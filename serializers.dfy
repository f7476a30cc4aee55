/**
 * The music serializers: the either-file-or-URL validators, album create and
 * update, the localized title map, the favourite flag, the normalized track
 * projection used by the home feed, and the three related-track lists of the
 * detailed track view.
 */
module MusicSerializers {

  import opened Wrappers
  import opened Catalog
  import opened Accounts
  import Ranking

  /** A request field is truthy when it is present and not empty. */
  predicate Truthy(field: Option<string>) {
    field.Some? && field.value != []
  }

  /**
   * The shared shape of the three `validate` methods: the data passes through
   * unchanged when the file or the URL is given, and is refused otherwise.
   */
  function RequireFileOrUrl<D>(data: D, file: Option<string>, url: Option<string>, message: string): (r: Result<D, string>)
    ensures r.Ok? <==> Truthy(file) || Truthy(url)
    ensures r.Ok? ==> r.value == data
    ensures r.Err? ==> r.error == message
  {
    if !Truthy(file) && !Truthy(url) then Err(message) else Ok(data)
  }

  datatype ArtistData = ArtistData(name: string, image: Option<string>, imageUrl: Option<string>)

  datatype AlbumData = AlbumData(title: Option<string>, artists: Option<seq<nat>>, coverImage: Option<string>, coverImageUrl: Option<string>)

  datatype UploadData = UploadData(upload: Upload, audioFile: Option<string>)

  const ArtistImageMessage: string := "Either 'image' or 'image_url' must be provided."
  const AlbumCoverMessage: string := "Either 'cover_image' or 'cover_image_url' must be provided."
  const AudioMessage: string := "Either 'audio_file' or 'audio_url' must be provided."

  /** `ArtistSerializer.validate`. */
  function ValidateArtist(data: ArtistData): (r: Result<ArtistData, string>)
    ensures r.Ok? <==> Truthy(data.image) || Truthy(data.imageUrl)
    ensures r.Ok? ==> r.value == data
    ensures r.Err? ==> r.error == ArtistImageMessage
  {
    RequireFileOrUrl(data, data.image, data.imageUrl, ArtistImageMessage)
  }

  /** `AlbumSerializer.validate`. */
  function ValidateAlbum(data: AlbumData): (r: Result<AlbumData, string>)
    ensures r.Ok? <==> Truthy(data.coverImage) || Truthy(data.coverImageUrl)
    ensures r.Ok? ==> r.value == data
    ensures r.Err? ==> r.error == AlbumCoverMessage
  {
    RequireFileOrUrl(data, data.coverImage, data.coverImageUrl, AlbumCoverMessage)
  }

  /** `MusicUploadSerializer.validate`. */
  function ValidateUpload(data: UploadData): (r: Result<UploadData, string>)
    ensures r.Ok? <==> Truthy(data.audioFile) || Truthy(data.upload.audioUrl)
    ensures r.Ok? ==> r.value == data
    ensures r.Err? ==> r.error == AudioMessage
  {
    RequireFileOrUrl(data, data.audioFile, data.upload.audioUrl, AudioMessage)
  }

  /** `AlbumSerializer.create`: the artist list is popped (none when absent) and set on the new album. */
  function CreatedAlbum(id: nat, data: AlbumData): (a: Album)
    ensures a.id == id && a.title == OrElse(data.title, [])
    ensures a.artists == (if data.artists.Some? then data.artists.value else [])
  {
    Album(id, OrElse(data.title, []), OrElse(data.artists, []))
  }

  /**
   * `AlbumSerializer.update`: the fields present are written, and the artist
   * set is replaced only when the data carries one.
   */
  function UpdatedAlbum(album: Album, data: AlbumData): (a: Album)
    ensures a.id == album.id
    ensures data.artists.None? ==> a.artists == album.artists
    ensures data.artists.Some? ==> a.artists == data.artists.value
    ensures data.title.None? ==> a.title == album.title
    ensures data.title.Some? ==> a.title == data.title.value
  {
    Album(album.id, OrElse(data.title, album.title), OrElse(data.artists, album.artists))
  }

  /** An update without an artist list never touches the album's artists, however often it is applied. */
  lemma UpdateWithoutArtistsKeepsArtists(album: Album, d1: AlbumData, d2: AlbumData)
    requires d1.artists.None? && d2.artists.None?
    ensures UpdatedAlbum(UpdatedAlbum(album, d1), d2).artists == album.artists
  {
  }

  /** The title shown for one language: the translated title when it is set and not empty, else the base title. */
  function LocalizedTitle(t: Track, code: string): (r: string)
    ensures code in t.translations && Truthy(t.translations[code]) ==> r == t.translations[code].value
    ensures !(code in t.translations && Truthy(t.translations[code])) ==> r == t.title
  {
    if code in t.translations && Truthy(t.translations[code]) then t.translations[code].value else t.title
  }

  /** The specification of `get_titles`: one entry per configured language code. */
  function Titles(t: Track, languages: seq<string>): (r: map<string, string>)
    ensures r.Keys == set c | c in languages
  {
    map c | c in languages :: LocalizedTitle(t, c)
  }

  /** `NormalizedMusicSerializer.get_titles`: the dictionary filled one configured language at a time. */
  method GetTitles(t: Track, languages: seq<string>) returns (titles: map<string, string>)
    ensures titles == Titles(t, languages)
    ensures forall c :: c in languages ==> c in titles && (titles[c] == t.title || titles[c] == t.translations[c].value)
  {
    titles := map[];
    for i := 0 to |languages|
      invariant titles.Keys == set c | c in languages[..i]
      invariant forall c :: c in titles ==> titles[c] == LocalizedTitle(t, c)
    {
      assert languages[..i + 1] == languages[..i] + [languages[i]];
      titles := titles[languages[i] := LocalizedTitle(t, languages[i])];
    }
    assert languages[..|languages|] == languages;
  }

  /** A track with a title has a non-empty title in every configured language. */
  lemma TitlesNeverEmpty(t: Track, languages: seq<string>)
    requires t.title != []
    ensures forall c :: c in Titles(t, languages) ==> Titles(t, languages)[c] != []
  {
  }

  /** Without an English translation, the English entry is the base title. */
  lemma EnglishFallsBackToTitle(t: Track, languages: seq<string>)
    requires "en" in languages && "en" !in t.translations
    ensures "en" in Titles(t, languages) && Titles(t, languages)["en"] == t.title
  {
  }

  /**
   * `get_is_favorited`: false without a request or for an anonymous user,
   * otherwise whether the user has a favourite row for the track.
   */
  function IsFavorited(favs: seq<FavoriteRec>, request: Option<Requester>, t: Track): (r: bool)
    ensures request.None? || request.value.Anonymous? ==> !r
    ensures request.Some? && request.value.SignedIn? ==>
              (r <==> exists k :: 0 <= k < |favs| && favs[k].user == request.value.user.id && favs[k].music == t.id)
  {
    if request.None? || request.value.Anonymous? then false
    else
      var user := request.value.user.id;
      match Ranking.IndexWhere(favs, (f: FavoriteRec) => f.user == user && f.music == t.id)
      case Some(_) => true
      case None => false
  }

  /** `get_artist_names`: the names of the track's artists, in the artist table's order. */
  function ArtistNames(artists: seq<Artist>, t: Track): (r: seq<string>)
    ensures |r| <= |artists|
    ensures forall i :: 0 <= i < |r| ==> exists a :: a in artists && a.id in t.artists && a.name == r[i]
  {
    var linkedTo := (a: Artist) => a.id in t.artists;
    var linked := Ranking.Filter(artists, linkedTo);
    Ranking.FilterMembers(artists, linkedTo);
    assert forall i :: 0 <= i < |linked| ==> linked[i] in artists && linked[i].id in t.artists;
    seq(|linked|, i requires 0 <= i < |linked| => linked[i].name)
  }

  /**
   * `album.title`, null when the track has no album; the album row is the
   * first with the track's album id.
   */
  function AlbumTitle(albums: seq<Album>, t: Track): (r: Option<string>)
    ensures t.album.None? ==> r.None?
    ensures t.album.Some? ==> (r.Some? <==> exists a :: a in albums && a.id == t.album.value)
    ensures r.Some? ==> exists a :: a in albums && Some(a.id) == t.album && a.title == r.value
    ensures forall k :: (0 <= k < |albums| && Some(albums[k].id) == t.album
                         && forall j :: 0 <= j < k ==> albums[j].id != albums[k].id) ==>
              r == Some(albums[k].title)
  {
    if t.album.None? then None
    else match Ranking.IndexWhere(albums, (a: Album) => a.id == t.album.value)
      case Some(k) => Some(albums[k].title)
      case None =>
        assert forall a :: a in albums ==> a.id != t.album.value;
        None
  }

  /** What `NormalizedMusicSerializer` produces for one track. */
  datatype NormalizedTrack = NormalizedTrack(
    id: nat,
    titles: map<string, string>,
    artistNames: seq<string>,
    albumTitle: Option<string>,
    thumbUrl: Option<string>,
    audioUrl: Option<string>,
    duration: nat,
    language: Language,
    playCount: nat,
    isFavorited: bool)

  /** The normalized projection of a track. */
  function Normalize(lib: Library, languages: seq<string>, request: Option<Requester>, t: Track): (n: NormalizedTrack)
    ensures n.id == t.id && n.playCount == t.playCount && n.duration == t.duration && n.language == t.language
    ensures n.titles.Keys == set c | c in languages
    ensures n.isFavorited ==> request.Some? && request.value.SignedIn?
    ensures n.isFavorited <==> request.Some? && request.value.SignedIn?
                               && exists k :: 0 <= k < |lib.favorites| && lib.favorites[k].user == request.value.user.id
                                               && lib.favorites[k].music == t.id
    ensures n.isFavorited == IsFavorited(lib.favorites, request, t)
    ensures n.titles == Titles(t, languages) && n.albumTitle == AlbumTitle(lib.albums, t)
    ensures n.artistNames == ArtistNames(lib.artists, t)
    ensures n.thumbUrl == t.thumbUrl && n.audioUrl == t.audioUrl
  {
    NormalizedTrack(t.id, Titles(t, languages), ArtistNames(lib.artists, t), AlbumTitle(lib.albums, t),
                    t.thumbUrl, t.audioUrl, t.duration, t.language, t.playCount, IsFavorited(lib.favorites, request, t))
  }

  const RelatedCap: nat := 10

  predicate SameAlbumOther(x: Track, t: Track) {
    t.album.Some? && x.album == t.album && x.id != t.id
  }

  predicate SharesArtistOther(x: Track, t: Track) {
    ByAnyArtist(x, t.artists) && x.id != t.id && (t.album.Some? ==> x.album != t.album)
  }

  predicate SharesTagOther(x: Track, t: Track) {
    HasAnyTag(x, set g | g in t.tags) && x.id != t.id && !ByAnyArtist(x, t.artists)
    && (t.album.Some? ==> x.album != t.album)
  }

  /** `get_related_by_album`: other tracks of the same album, newest first, at most 10. */
  function RelatedByAlbum(tracks: seq<Track>, t: Track): seq<Track> {
    if t.album.None? then []
    else Ranking.TopBy(Ranking.Filter(tracks, (x: Track) => SameAlbumOther(x, t)), CreatedAtKey, RelatedCap)
  }

  /** `get_related_by_artist`: other tracks sharing an artist, minus the album's tracks. */
  function RelatedByArtist(tracks: seq<Track>, t: Track): seq<Track> {
    Ranking.TopBy(Ranking.Filter(tracks, (x: Track) => SharesArtistOther(x, t)), CreatedAtKey, RelatedCap)
  }

  /** `get_related_by_tags`: other tracks sharing a tag, minus those sharing an artist or the album. */
  function RelatedByTags(tracks: seq<Track>, t: Track): seq<Track> {
    if t.tags == [] then []
    else Ranking.TopBy(Ranking.Filter(tracks, (x: Track) => SharesTagOther(x, t)), CreatedAtKey, RelatedCap)
  }

  /** The facts every related list shares: a capped, newest-first selection of catalogue tracks. */
  predicate RelatedShape(tracks: seq<Track>, r: seq<Track>) {
    |r| <= RelatedCap
    && Ranking.NonIncreasing(r, CreatedAtKey)
    && (forall x :: x in r ==> x in tracks)
  }

  lemma RelatedByAlbumProperties(tracks: seq<Track>, t: Track)
    ensures t.album.None? ==> RelatedByAlbum(tracks, t) == []
    ensures RelatedShape(tracks, RelatedByAlbum(tracks, t))
    ensures forall x :: x in RelatedByAlbum(tracks, t) ==> x.album == t.album && x.id != t.id
    ensures UniqueTrackIds(tracks) ==> Ranking.DistinctBy(RelatedByAlbum(tracks, t), TrackId)
  {
    if t.album.Some? {
      var p := (x: Track) => SameAlbumOther(x, t);
      var candidates := Ranking.Filter(tracks, p);
      Ranking.TopByProperties(candidates, CreatedAtKey, RelatedCap);
      Ranking.FilterMembers(tracks, p);
      if UniqueTrackIds(tracks) {
        Ranking.FilterKeepsDistinct(tracks, p, TrackId);
        Ranking.TopByKeepsDistinct(candidates, CreatedAtKey, RelatedCap, TrackId);
      }
    }
  }

  lemma RelatedByArtistProperties(tracks: seq<Track>, t: Track)
    ensures RelatedShape(tracks, RelatedByArtist(tracks, t))
    ensures forall x :: x in RelatedByArtist(tracks, t) ==> SharesArtistOther(x, t)
    ensures UniqueTrackIds(tracks) ==> Ranking.DistinctBy(RelatedByArtist(tracks, t), TrackId)
  {
    var p := (x: Track) => SharesArtistOther(x, t);
    var candidates := Ranking.Filter(tracks, p);
    var r := Ranking.TopBy(candidates, CreatedAtKey, RelatedCap);
    Ranking.TopByProperties(candidates, CreatedAtKey, RelatedCap);
    Ranking.FilterMembers(tracks, p);
    forall x | x in r ensures SharesArtistOther(x, t) {
      assert x in candidates;
    }
    if UniqueTrackIds(tracks) {
      Ranking.FilterKeepsDistinct(tracks, p, TrackId);
      Ranking.TopByKeepsDistinct(candidates, CreatedAtKey, RelatedCap, TrackId);
    }
  }

  /** A track without artists has no related-by-artist list. */
  lemma NoArtistsNoRelatedByArtist(tracks: seq<Track>, t: Track)
    requires t.artists == []
    ensures RelatedByArtist(tracks, t) == []
  {
    Ranking.FilterNone(tracks, (x: Track) => SharesArtistOther(x, t));
  }

  lemma RelatedByTagsProperties(tracks: seq<Track>, t: Track)
    ensures t.tags == [] ==> RelatedByTags(tracks, t) == []
    ensures RelatedShape(tracks, RelatedByTags(tracks, t))
    ensures forall x :: x in RelatedByTags(tracks, t) ==>
              HasAnyTag(x, set g | g in t.tags) && x.id != t.id && !ByAnyArtist(x, t.artists)
              && (t.album.Some? ==> x.album != t.album)
    ensures UniqueTrackIds(tracks) ==> Ranking.DistinctBy(RelatedByTags(tracks, t), TrackId)
  {
    if t.tags != [] {
      var p := (x: Track) => SharesTagOther(x, t);
      var candidates := Ranking.Filter(tracks, p);
      Ranking.TopByProperties(candidates, CreatedAtKey, RelatedCap);
      Ranking.FilterMembers(tracks, p);
      if UniqueTrackIds(tracks) {
        Ranking.FilterKeepsDistinct(tracks, p, TrackId);
        Ranking.TopByKeepsDistinct(candidates, CreatedAtKey, RelatedCap, TrackId);
      }
    }
  }

  /**
   * A related list leaves out no qualifying track newer than one it lists,
   * and it is either full or holds every qualifying track.
   */
  lemma RelatedComplete(tracks: seq<Track>, p: Track -> bool)
    ensures var r := Ranking.TopBy(Ranking.Filter(tracks, p), CreatedAtKey, RelatedCap);
            (forall x, y :: x in tracks && p(x) && x !in r && y in r ==> x.createdAt <= y.createdAt)
            && (|r| == RelatedCap || forall x :: x in tracks && p(x) ==> x in r)
  {
    var r := Ranking.TopBy(Ranking.Filter(tracks, p), CreatedAtKey, RelatedCap);
    Ranking.TopOfFilterMaximal(tracks, p, CreatedAtKey, RelatedCap);
    forall x, y | x in tracks && p(x) && x !in r && y in r ensures x.createdAt <= y.createdAt {
      assert Ranking.AtLeast(CreatedAtKey(y), CreatedAtKey(x));
    }
    Ranking.TopOfFilterComplete(tracks, p, CreatedAtKey, RelatedCap);
  }

  /** The first 10 of the same-album tracks, newest first: none left out is newer, and all are listed when fewer qualify. */
  lemma RelatedByAlbumComplete(tracks: seq<Track>, t: Track)
    ensures forall x, y :: (x in tracks && SameAlbumOther(x, t) && x !in RelatedByAlbum(tracks, t)
                            && y in RelatedByAlbum(tracks, t)) ==> x.createdAt <= y.createdAt
    ensures |RelatedByAlbum(tracks, t)| == RelatedCap
            || forall x :: x in tracks && SameAlbumOther(x, t) ==> x in RelatedByAlbum(tracks, t)
  {
    if t.album.Some? {
      RelatedComplete(tracks, (x: Track) => SameAlbumOther(x, t));
    }
  }

  /** The first 10 of the tracks sharing an artist, newest first, in the same sense. */
  lemma RelatedByArtistComplete(tracks: seq<Track>, t: Track)
    ensures forall x, y :: (x in tracks && SharesArtistOther(x, t) && x !in RelatedByArtist(tracks, t)
                            && y in RelatedByArtist(tracks, t)) ==> x.createdAt <= y.createdAt
    ensures |RelatedByArtist(tracks, t)| == RelatedCap
            || forall x :: x in tracks && SharesArtistOther(x, t) ==> x in RelatedByArtist(tracks, t)
  {
    RelatedComplete(tracks, (x: Track) => SharesArtistOther(x, t));
  }

  /** The first 10 of the tracks sharing a tag, newest first, in the same sense. */
  lemma RelatedByTagsComplete(tracks: seq<Track>, t: Track)
    ensures forall x, y :: (x in tracks && SharesTagOther(x, t) && x !in RelatedByTags(tracks, t)
                            && y in RelatedByTags(tracks, t)) ==> x.createdAt <= y.createdAt
    ensures |RelatedByTags(tracks, t)| == RelatedCap
            || forall x :: x in tracks && SharesTagOther(x, t) ==> x in RelatedByTags(tracks, t)
  {
    if t.tags != [] {
      RelatedComplete(tracks, (x: Track) => SharesTagOther(x, t));
    }
  }

  /** The three related lists never share a track, and none holds the track itself. */
  lemma RelatedListsDisjoint(tracks: seq<Track>, t: Track)
    ensures forall x :: x in RelatedByTags(tracks, t) ==> x !in RelatedByArtist(tracks, t) && x !in RelatedByAlbum(tracks, t)
    ensures forall x :: x in RelatedByArtist(tracks, t) ==> x !in RelatedByAlbum(tracks, t)
    ensures t !in RelatedByAlbum(tracks, t) && t !in RelatedByArtist(tracks, t) && t !in RelatedByTags(tracks, t)
  {
    RelatedByAlbumProperties(tracks, t);
    RelatedByArtistProperties(tracks, t);
    RelatedByTagsProperties(tracks, t);
  }
}

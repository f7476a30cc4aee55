/**
 * The music catalogue: tracks with their artists, album and tags, the
 * per-user play history and favourites, playlists, and the tables that hold
 * them. A track's many-to-many relations are the ids it points at.
 */
module Catalog {

  import opened Wrappers
  import Ranking

  /** `Music.Language`. */
  datatype Language = English | Arabic | Malayalam | Hindi | Telugu | Kannada | Tamil | Instrumental | Bilingual

  function LanguageCode(l: Language): string {
    match l
    case English => "ENGLISH"
    case Arabic => "ARABIC"
    case Malayalam => "MALAYALAM"
    case Hindi => "HINDI"
    case Telugu => "TELUGU"
    case Kannada => "KANNADA"
    case Tamil => "TAMIL"
    case Instrumental => "INSTRUMENTAL"
    case Bilingual => "BILINGUAL"
  }

  /** The stored code of a language choice; any other code is not a choice. */
  function ParseLanguage(code: string): (r: Option<Language>)
    ensures r.Some? ==> LanguageCode(r.value) == code
  {
    if code == "ENGLISH" then Some(English)
    else if code == "ARABIC" then Some(Arabic)
    else if code == "MALAYALAM" then Some(Malayalam)
    else if code == "HINDI" then Some(Hindi)
    else if code == "TELUGU" then Some(Telugu)
    else if code == "KANNADA" then Some(Kannada)
    else if code == "TAMIL" then Some(Tamil)
    else if code == "INSTRUMENTAL" then Some(Instrumental)
    else if code == "BILINGUAL" then Some(Bilingual)
    else None
  }

  /** Every language is read back from its code, so the nine codes are distinct. */
  lemma LanguageRoundTrip(l: Language)
    ensures ParseLanguage(LanguageCode(l)) == Some(l)
  {
  }

  const DefaultLanguage: Language := English

  datatype Artist = Artist(id: nat, name: string)

  datatype Album = Album(id: nat, title: string, artists: seq<nat>)

  datatype Tag = Tag(id: nat, name: string)

  /**
   * A track. `translations` maps a language code to the translated title
   * field when that field exists (its value may be null); play count and
   * duration are non-negative by type.
   */
  datatype Track = Track(
    id: nat,
    title: string,
    translations: map<string, Option<string>>,
    artists: seq<nat>,
    album: Option<nat>,
    tags: seq<nat>,
    playCount: nat,
    duration: nat,
    createdAt: int,
    language: Language,
    uploadedBy: Option<nat>,
    audioUrl: Option<string>,
    thumbUrl: Option<string>)

  function TrackId(t: Track): nat { t.id }

  /** The key of the default `-created_at` ordering. */
  function CreatedAtKey(t: Track): Ranking.Rank { Ranking.Rank(t.createdAt, 0) }

  /** The key of `order_by('-play_count')`. */
  function PlayCountKey(t: Track): Ranking.Rank { Ranking.Rank(t.playCount, 0) }

  /** `values_list('id', flat=True)`. */
  function TrackIds(ts: seq<Track>): (r: seq<nat>)
    ensures |r| == |ts|
    ensures forall i :: 0 <= i < |r| ==> r[i] == ts[i].id
  {
    seq(|ts|, i requires 0 <= i < |ts| => ts[i].id)
  }

  /** The track matches an `artist__in=artists` lookup. */
  predicate ByAnyArtist(t: Track, artists: seq<nat>) {
    exists a :: a in t.artists && a in artists
  }

  /** The track matches a `tags__in=tags` lookup. */
  predicate HasAnyTag(t: Track, tags: set<nat>) {
    exists g :: g in t.tags && g in tags
  }

  /** `RecentlyPlayed`: one row per (user, track), stamped with the last play. */
  datatype Play = Play(id: nat, user: nat, music: nat, playedAt: int)

  /** `Favorite`: one row per (user, track). */
  datatype FavoriteRec = FavoriteRec(id: nat, user: nat, music: nat, createdAt: int)

  datatype Playlist = Playlist(id: nat, name: string, owner: nat, tracks: set<nat>, isPublic: bool)

  /** `Playlist.track_count`: the number of distinct tracks in the playlist. */
  function TrackCount(p: Playlist): nat {
    |p.tracks|
  }

  /** The fields a new track is given; `None` where the upload leaves the field out. */
  datatype Upload = Upload(
    title: string,
    artists: seq<nat>,
    album: Option<nat>,
    tags: seq<nat>,
    duration: Option<nat>,
    language: Option<Language>,
    audioUrl: Option<string>,
    thumbUrl: Option<string>)

  /** A new track row: the model's defaults fill what the upload leaves out. */
  function NewTrack(id: nat, u: Upload, uploader: nat, now: int): (t: Track)
    ensures t.id == id && t.title == u.title && t.artists == u.artists && t.tags == u.tags && t.album == u.album
    ensures t.playCount == 0 && t.createdAt == now && t.uploadedBy == Some(uploader)
    ensures t.duration == (if u.duration.Some? then u.duration.value else 0)
    ensures t.language == (if u.language.Some? then u.language.value else English)
  {
    Track(id, u.title, map[], u.artists, u.album, u.tags, 0, OrElse(u.duration, 0), now,
          OrElse(u.language, DefaultLanguage), Some(uploader), u.audioUrl, u.thumbUrl)
  }

  /** A snapshot of the catalogue tables. `artists` is listed in the artist table's default order, by name. */
  datatype Library = Library(
    tracks: seq<Track>,
    artists: seq<Artist>,
    albums: seq<Album>,
    tags: seq<Tag>,
    plays: seq<Play>,
    favorites: seq<FavoriteRec>)

  predicate UniqueTrackIds(tracks: seq<Track>) {
    forall i, j :: 0 <= i < j < |tracks| ==> tracks[i].id != tracks[j].id
  }

  /** `unique_together = [['user', 'music']]` on `RecentlyPlayed`. */
  predicate UniquePlays(plays: seq<Play>) {
    forall i, j :: 0 <= i < j < |plays| ==> plays[i].user != plays[j].user || plays[i].music != plays[j].music
  }

  /** `unique_together = [['user', 'music']]` on `Favorite`. */
  predicate UniqueFavorites(favs: seq<FavoriteRec>) {
    forall i, j :: 0 <= i < j < |favs| ==> favs[i].user != favs[j].user || favs[i].music != favs[j].music
  }

  /** The database's own guarantees: primary keys and the two uniqueness constraints. */
  predicate WellFormed(lib: Library) {
    UniqueTrackIds(lib.tracks) && UniquePlays(lib.plays) && UniqueFavorites(lib.favorites)
  }

  /** `Music.objects.get(id=...)`. */
  function FindTrack(tracks: seq<Track>, id: nat): (r: Option<Track>)
    ensures r.Some? ==> r.value in tracks && r.value.id == id
    ensures r.None? <==> forall i :: 0 <= i < |tracks| ==> tracks[i].id != id
  {
    match Ranking.IndexWhere(tracks, (t: Track) => t.id == id)
    case Some(k) => Some(tracks[k])
    case None => None
  }

  predicate HasPlay(plays: seq<Play>, user: nat, music: nat) {
    exists k :: 0 <= k < |plays| && plays[k].user == user && plays[k].music == music
  }

  /**
   * `RecentlyPlayed.objects.update_or_create(user, music, defaults={'played_at': now})`:
   * the existing row for the pair gets the new time, or a new row is added.
   */
  function UpsertPlay(plays: seq<Play>, user: nat, music: nat, now: int, newId: nat): (r: seq<Play>)
    ensures HasPlay(plays, user, music) ==>
              exists k :: 0 <= k < |plays| && plays[k].user == user && plays[k].music == music
                          && r == plays[k := plays[k].(playedAt := now)]
    ensures !HasPlay(plays, user, music) ==> r == plays + [Play(newId, user, music, now)]
  {
    match Ranking.IndexWhere(plays, (p: Play) => p.user == user && p.music == music)
    case Some(k) => plays[k := plays[k].(playedAt := now)]
    case None => plays + [Play(newId, user, music, now)]
  }

  /**
   * Under the uniqueness constraint, an upsert keeps one row per pair, leaves
   * the pair's single row stamped with `now`, keeps every other row, and adds
   * a row exactly when the pair had none.
   */
  lemma UpsertPlayProperties(plays: seq<Play>, user: nat, music: nat, now: int, newId: nat)
    requires UniquePlays(plays)
    ensures var r := UpsertPlay(plays, user, music, now, newId);
            UniquePlays(r)
            && HasPlay(r, user, music)
            && (forall k :: 0 <= k < |r| && r[k].user == user && r[k].music == music ==> r[k].playedAt == now)
            && (forall k :: 0 <= k < |plays| && (plays[k].user != user || plays[k].music != music) ==> r[k] == plays[k])
            && |r| == |plays| + (if HasPlay(plays, user, music) then 0 else 1)
  {
    var r := UpsertPlay(plays, user, music, now, newId);
    if HasPlay(plays, user, music) {
      var k :| 0 <= k < |plays| && plays[k].user == user && plays[k].music == music
               && r == plays[k := plays[k].(playedAt := now)];
      assert r[k].user == user && r[k].music == music;
    } else {
      assert r[|plays|].user == user && r[|plays|].music == music;
    }
  }

  /** The catalogue tables, updated in place by the views. */
  class MusicDb {
    var tracks: seq<Track>
    var artists: seq<Artist>
    var albums: seq<Album>
    var tags: seq<Tag>
    var plays: seq<Play>
    var favorites: seq<FavoriteRec>
    var playlists: seq<Playlist>
    var nextTrackId: nat
    var nextPlayId: nat
    var nextFavoriteId: nat

    ghost predicate Valid()
      reads this
    {
      WellFormed(Snapshot())
      && (forall i :: 0 <= i < |tracks| ==> tracks[i].id < nextTrackId)
    }

    function Snapshot(): Library
      reads this
    {
      Library(tracks, artists, albums, tags, plays, favorites)
    }

    /** `Music.increment_play_count`: one more play on the row at `i`, nothing else changes. */
    method IncrementPlayCount(i: nat)
      requires Valid() && i < |tracks|
      modifies this
      ensures Valid()
      ensures tracks == old(tracks)[i := old(tracks)[i].(playCount := old(tracks)[i].playCount + 1)]
      ensures artists == old(artists) && albums == old(albums) && tags == old(tags)
      ensures plays == old(plays) && favorites == old(favorites) && playlists == old(playlists)
      ensures nextTrackId == old(nextTrackId) && nextPlayId == old(nextPlayId) && nextFavoriteId == old(nextFavoriteId)
    {
      tracks := tracks[i := tracks[i].(playCount := tracks[i].playCount + 1)];
    }

    /** The recently-played upsert for `(user, music)` at time `now`. */
    method RecordPlay(user: nat, music: nat, now: int)
      requires Valid()
      modifies this
      ensures Valid()
      ensures plays == UpsertPlay(old(plays), user, music, now, old(nextPlayId))
      ensures nextPlayId == old(nextPlayId) + (if HasPlay(old(plays), user, music) then 0 else 1)
      ensures tracks == old(tracks) && artists == old(artists) && albums == old(albums) && tags == old(tags)
      ensures favorites == old(favorites) && playlists == old(playlists)
      ensures nextTrackId == old(nextTrackId) && nextFavoriteId == old(nextFavoriteId)
    {
      UpsertPlayProperties(plays, user, music, now, nextPlayId);
      var isNew := !HasPlay(plays, user, music);
      plays := UpsertPlay(plays, user, music, now, nextPlayId);
      if isNew {
        nextPlayId := nextPlayId + 1;
      }
    }
  }
}

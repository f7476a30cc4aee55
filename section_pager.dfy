/**
 * `HomeViewSet.section`: the drill-down behind each home-feed section. The
 * slug picks one uncapped query; an unknown slug is a 404. Pagination of the
 * resulting rows is left to the framework.
 */
module SectionPager {

  import opened Wrappers
  import opened Catalog
  import opened Accounts
  import opened Envelope
  import opened HomeFeed
  import Ranking

  const InvalidSlugMessage: string := "Invalid section slug"

  /** An unknown slug, or a query that needs the profile of a user without one. */
  datatype PagerError = UnknownSlug | NoProfile

  /** The reply to an unknown slug. */
  function InvalidSlugReply<T>(): (r: Reply<T>)
    ensures r.status == Status404 && !Succeeded(r)
  {
    Failure(Status404, InvalidSlugMessage)
  }

  /** The reply to a refused section request: 404 for an unknown slug, a server error for a missing profile. */
  function PagerErrorReply<T>(e: PagerError): (r: Reply<T>)
    ensures !Succeeded(r)
    ensures r.status == (if e.UnknownSlug? then Status404 else Status500)
    ensures e.UnknownSlug? ==> r == InvalidSlugReply()
  {
    match e
    case UnknownSlug => InvalidSlugReply()
    case NoProfile => Failure(Status500, DefaultErrorMessage)
  }

  /** The tracks the user has a recently-played row for. */
  function PlayedIds(lib: Library, user: nat): set<nat> {
    set p | p in lib.plays && p.user == user :: p.music
  }

  /** The tracks the user has favourited. */
  function FavoritedIds(lib: Library, user: nat): set<nat> {
    set f | f in lib.favorites && f.user == user :: f.music
  }

  function IdIn(ids: set<nat>): Track -> bool {
    (t: Track) => t.id in ids
  }

  function ByArtists(artists: seq<nat>): Track -> bool {
    (t: Track) => ByAnyArtist(t, artists)
  }

  /** `Music.objects.filter(...)` in the model's default order, newest first. */
  function Newest(tracks: seq<Track>): seq<Track> {
    Ranking.SortDesc(tracks, CreatedAtKey)
  }

  function MostPlayed(tracks: seq<Track>): seq<Track> {
    Ranking.SortDesc(tracks, PlayCountKey)
  }

  /** The artists of `t` that are among `artists`, one per position. */
  function MatchingArtists(t: Track, artists: seq<nat>): nat {
    |Ranking.Filter(t.artists, (a: nat) => a in artists)|
  }

  function Repeat(t: Track, n: nat): (r: seq<Track>)
    ensures |r| == n && forall i :: 0 <= i < n ==> r[i] == t
  {
    if n == 0 then [] else [t] + Repeat(t, n - 1)
  }

  /**
   * The rows of `Music.objects.filter(artist__in=artists)` without
   * `.distinct()`: the join yields a track once per matching artist.
   */
  function ArtistJoin(tracks: seq<Track>, artists: seq<nat>): seq<Track> {
    if tracks == [] then []
    else Repeat(tracks[0], MatchingArtists(tracks[0], artists)) + ArtistJoin(tracks[1..], artists)
  }

  /** A track joins at least once exactly when one of its artists is a favourite. */
  lemma MatchingArtistsPositive(t: Track, artists: seq<nat>)
    ensures MatchingArtists(t, artists) > 0 <==> ByAnyArtist(t, artists)
  {
    var inFavorites := (a: nat) => a in artists;
    var f := Ranking.Filter(t.artists, inFavorites);
    if ByAnyArtist(t, artists) {
      var a :| a in t.artists && a in artists;
      var i :| 0 <= i < |t.artists| && t.artists[i] == a;
      assert a in f;
    }
    if |f| > 0 {
      Ranking.FilterMembers(t.artists, inFavorites);
      assert f[0] in f;
      assert f[0] in t.artists && f[0] in artists;
    }
  }

  /** The join lists the same tracks as the distinct query, only repeated. */
  lemma {:induction false} ArtistJoinMembers(tracks: seq<Track>, artists: seq<nat>)
    ensures forall t :: t in ArtistJoin(tracks, artists) <==> t in tracks && ByAnyArtist(t, artists)
  {
    if tracks != [] {
      ArtistJoinMembers(tracks[1..], artists);
      MatchingArtistsPositive(tracks[0], artists);
      assert tracks == [tracks[0]] + tracks[1..];
      var n := MatchingArtists(tracks[0], artists);
      var rep := Repeat(tracks[0], n);
      forall t ensures t in rep <==> t == tracks[0] && n > 0 {
        if n > 0 && t == tracks[0] { assert rep[0] == t; }
      }
    }
  }

  /** `recommended_for_you` in the pager, as written: the undistinct join, most played first. */
  function ForYouRowsAsWritten(lib: Library, artists: seq<nat>): seq<Track> {
    MostPlayed(ArtistJoin(lib.tracks, artists))
  }

  /** `recommended_for_you` in the pager as evidently intended: each qualifying track once. */
  function ForYouRows(lib: Library, artists: seq<nat>): seq<Track> {
    MostPlayed(Ranking.Filter(lib.tracks, ByArtists(artists)))
  }

  /** The tracks of the user's five latest plays, and the tracks sharing their tags minus those five. */
  function MoodRows(lib: Library, user: nat): seq<Track> {
    var lookback := Lookback(RecentlyPlayedIds(lib, user));
    MostPlayed(Ranking.Filter(lib.tracks, MoodFilter(RecentTags(lib, lookback), lookback)))
  }

  /** The query behind each slug, with the corrected `recommended_for_you` (see `ForYouRowsAsWritten`). */
  function SectionQuery(slugName: string, lib: Library, user: nat, profile: Option<UserProfile>)
    : Result<seq<Track>, PagerError>
  {
    match ParseSlug(slugName)
    case None => Err(UnknownSlug)
    case Some(RecentlyPlayed) => Ok(Newest(Ranking.Filter(lib.tracks, IdIn(PlayedIds(lib, user)))))
    case Some(Favorites) => Ok(Newest(Ranking.Filter(lib.tracks, IdIn(FavoritedIds(lib, user)))))
    case Some(Trending) => Ok(MostPlayed(lib.tracks))
    case Some(NewReleases) => Ok(Newest(lib.tracks))
    case Some(RecommendedForYou) =>
      if profile.None? then Err(NoProfile) else Ok(ForYouRows(lib, profile.value.favoriteArtists))
    case Some(RecommendedMood) => Ok(MoodRows(lib, user))
    case Some(PopularLanguage) =>
      if profile.None? then Err(NoProfile)
      else Ok(MostPlayed(Ranking.Filter(lib.tracks, InLanguage(FeedLanguage(profile.value.language)))))
  }

  /** Exactly the seven known slugs are served; any other is refused, with a 404 reply. */
  lemma UnknownSlugRefused(slugName: string, lib: Library, user: nat, profile: Option<UserProfile>)
    ensures SectionQuery(slugName, lib, user, profile) == Err(UnknownSlug)
            <==> forall s: Slug :: SlugName(s) != slugName
    ensures (forall s: Slug :: SlugName(s) != slugName) ==>
              PagerErrorReply<seq<Track>>(SectionQuery(slugName, lib, user, profile).error)
              == Failure(Status404, InvalidSlugMessage)
  {
    var parsed := ParseSlug(slugName);
    if parsed.Some? {
      assert SlugName(parsed.value) == slugName;
    }
  }

  /**
   * Each query holds exactly the tracks its section is about: the user's
   * played or favourited tracks, the whole catalogue, the tracks by a
   * favourite artist, or those in the profile's language; trending and the
   * two recommendations are most played first, the others newest first.
   */
  lemma SectionRows(slugName: string, lib: Library, user: nat, profile: UserProfile)
    ensures var r := SectionQuery(slugName, lib, user, Some(profile));
            r.Ok? ==>
              match ParseSlug(slugName)
              case Some(RecentlyPlayed) =>
                (forall t :: t in r.value <==> t in lib.tracks && t.id in PlayedIds(lib, user))
                && Ranking.NonIncreasing(r.value, CreatedAtKey)
              case Some(Favorites) =>
                (forall t :: t in r.value <==> t in lib.tracks && t.id in FavoritedIds(lib, user))
                && Ranking.NonIncreasing(r.value, CreatedAtKey)
              case Some(Trending) =>
                multiset(r.value) == multiset(lib.tracks) && Ranking.NonIncreasing(r.value, PlayCountKey)
              case Some(NewReleases) =>
                multiset(r.value) == multiset(lib.tracks) && Ranking.NonIncreasing(r.value, CreatedAtKey)
              case Some(RecommendedForYou) =>
                (forall t :: t in r.value <==> t in lib.tracks && ByAnyArtist(t, profile.favoriteArtists))
                && Ranking.NonIncreasing(r.value, PlayCountKey)
              case Some(RecommendedMood) =>
                var lookback := Lookback(RecentlyPlayedIds(lib, user));
                (forall t :: t in r.value <==>
                   t in lib.tracks && HasAnyTag(t, RecentTags(lib, lookback)) && t.id !in lookback)
                && Ranking.NonIncreasing(r.value, PlayCountKey)
              case Some(PopularLanguage) =>
                (forall t :: t in r.value <==> t in lib.tracks && t.language == FeedLanguage(profile.language))
                && Ranking.NonIncreasing(r.value, PlayCountKey)
              case None => false
  {
    match ParseSlug(slugName)
    case None =>
    case Some(RecentlyPlayed) =>
      Ranking.SortedFilterMembers(lib.tracks, IdIn(PlayedIds(lib, user)), CreatedAtKey);
      Ranking.SortDescOrdered(Ranking.Filter(lib.tracks, IdIn(PlayedIds(lib, user))), CreatedAtKey);
    case Some(Favorites) =>
      Ranking.SortedFilterMembers(lib.tracks, IdIn(FavoritedIds(lib, user)), CreatedAtKey);
      Ranking.SortDescOrdered(Ranking.Filter(lib.tracks, IdIn(FavoritedIds(lib, user))), CreatedAtKey);
    case Some(Trending) =>
      Ranking.SortDescOrdered(lib.tracks, PlayCountKey);
    case Some(NewReleases) =>
      Ranking.SortDescOrdered(lib.tracks, CreatedAtKey);
    case Some(RecommendedForYou) =>
      Ranking.SortedFilterMembers(lib.tracks, ByArtists(profile.favoriteArtists), PlayCountKey);
      Ranking.SortDescOrdered(Ranking.Filter(lib.tracks, ByArtists(profile.favoriteArtists)), PlayCountKey);
    case Some(RecommendedMood) =>
      var lookback := Lookback(RecentlyPlayedIds(lib, user));
      var p := MoodFilter(RecentTags(lib, lookback), lookback);
      Ranking.SortedFilterMembers(lib.tracks, p, PlayCountKey);
      Ranking.SortDescOrdered(Ranking.Filter(lib.tracks, p), PlayCountKey);
    case Some(PopularLanguage) =>
      var p := InLanguage(FeedLanguage(profile.language));
      Ranking.SortedFilterMembers(lib.tracks, p, PlayCountKey);
      Ranking.SortDescOrdered(Ranking.Filter(lib.tracks, p), PlayCountKey);
  }

  /** The two queries that read the profile fail without one; the others never fail on a known slug. */
  lemma PagerNeedsProfile(slugName: string, lib: Library, user: nat)
    ensures SectionQuery(slugName, lib, user, None) == Err(NoProfile)
            <==> slugName == "recommended_for_you" || slugName == "popular_language"
  {
  }

  /**
   * Unlike the feed, the pager's `recommended_for_you` keeps recently played
   * tracks: a played track by a favourite artist is listed.
   */
  lemma PagerForYouKeepsRecent(lib: Library, user: nat, profile: UserProfile, t: Track)
    requires t in lib.tracks && ByAnyArtist(t, profile.favoriteArtists)
    requires t.id in RecentlyPlayedIds(lib, user)
    ensures t in ForYouRows(lib, profile.favoriteArtists)
    ensures t !in ForYouTracks(lib, profile.favoriteArtists, RecentlyPlayedIds(lib, user))
  {
    Ranking.SortedFilterMembers(lib.tracks, ByArtists(profile.favoriteArtists), PlayCountKey);
    RecommendedForYouSection(lib, profile.favoriteArtists, RecentlyPlayedIds(lib, user));
  }

  /** Over distinct catalogue ids the corrected query lists each track once. */
  lemma ForYouRowsDistinct(lib: Library, artists: seq<nat>)
    requires UniqueTrackIds(lib.tracks)
    ensures NoDuplicates(TrackIds(ForYouRows(lib, artists)))
  {
    var f := Ranking.Filter(lib.tracks, ByArtists(artists));
    assert Ranking.DistinctBy(lib.tracks, TrackId);
    Ranking.FilterKeepsDistinct(lib.tracks, ByArtists(artists), TrackId);
    Ranking.SortDescKeepsDistinct(f, PlayCountKey, TrackId);
  }

  /** A track credited to artists 1 and 2, alone in its catalogue. */
  function DuetTrack(): Track {
    Track(1, "Song", map[], [1, 2], None, [], 0, 0, 0, English, None, None, None)
  }

  function DuetLibrary(): Library {
    Library([DuetTrack()], [], [], [], [], [])
  }

  lemma DuetJoin()
    ensures ArtistJoin(DuetLibrary().tracks, [1, 2]) == [DuetTrack(), DuetTrack()]
  {
    var t := DuetTrack();
    assert Ranking.Filter(t.artists, (a: nat) => a in [1, 2]) == [1, 2] by {
      assert t.artists[1..] == [2];
      assert t.artists[1..][1..] == [];
    }
    assert DuetLibrary().tracks[1..] == [];
  }

  /**
   * The query as written lists a track by two favourite artists twice: with
   * favourites 1 and 2, the duet yields two rows, where the corrected query
   * yields one.
   */
  lemma ForYouAsWrittenDuplicates()
    ensures ForYouRowsAsWritten(DuetLibrary(), [1, 2]) == [DuetTrack(), DuetTrack()]
    ensures ForYouRows(DuetLibrary(), [1, 2]) == [DuetTrack()]
  {
    DuetJoin();
    var t := DuetTrack();
    assert Ranking.SortDesc([t, t], PlayCountKey) == [t, t] by {
      var rows := Ranking.SortDesc([t, t], PlayCountKey);
      assert multiset(rows) == multiset{t, t};
      assert rows[0] in multiset(rows) && rows[1] in multiset(rows);
    }
    assert ByAnyArtist(DuetTrack(), [1, 2]) by {
      assert 1 in DuetTrack().artists && 1 in [1, 2];
    }
    assert Ranking.Filter(DuetLibrary().tracks, ByArtists([1, 2])) == [DuetTrack()];
  }
}

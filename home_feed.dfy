/**
 * The personalised home feed: seven section builders run in a fixed order,
 * each filtering the catalogue or the user's activity, sorting it and
 * capping it; a section is emitted only when its list is not empty, and the
 * ids of every emitted item are gathered for the normalized track map.
 */
module HomeFeed {

  import opened Wrappers
  import opened Catalog
  import opened Accounts
  import opened Text
  import opened MusicSerializers
  import Ranking

  /** The seven section slugs. */
  datatype Slug = RecentlyPlayed | Favorites | RecommendedForYou | RecommendedMood | Trending | NewReleases | PopularLanguage

  function SlugName(s: Slug): string {
    match s
    case RecentlyPlayed => "recently_played"
    case Favorites => "favorites"
    case RecommendedForYou => "recommended_for_you"
    case RecommendedMood => "recommended_mood"
    case Trending => "trending"
    case NewReleases => "new_releases"
    case PopularLanguage => "popular_language"
  }

  function SectionTitle(s: Slug): string {
    match s
    case RecentlyPlayed => "Recently Played"
    case Favorites => "Favorites"
    case RecommendedForYou => "Recommended for You"
    case RecommendedMood => "Based on your mood"
    case Trending => "Trending"
    case NewReleases => "New Releases"
    case PopularLanguage => "Popular in your language"
  }

  /** A slug's position in the feed. */
  function SlugRank(s: Slug): nat {
    match s
    case RecentlyPlayed => 0
    case Favorites => 1
    case RecommendedForYou => 2
    case RecommendedMood => 3
    case Trending => 4
    case NewReleases => 5
    case PopularLanguage => 6
  }

  /** The order in which the builders run. */
  const PolicyOrder: seq<Slug> :=
    [RecentlyPlayed, Favorites, RecommendedForYou, RecommendedMood, Trending, NewReleases, PopularLanguage]

  /** Reading a slug from a URL: exactly the seven names are known. */
  function ParseSlug(name: string): (r: Option<Slug>)
    ensures r.Some? ==> SlugName(r.value) == name
    ensures r.None? ==> forall s: Slug :: SlugName(s) != name
  {
    if name == "recently_played" then Some(RecentlyPlayed)
    else if name == "favorites" then Some(Favorites)
    else if name == "recommended_for_you" then Some(RecommendedForYou)
    else if name == "recommended_mood" then Some(RecommendedMood)
    else if name == "trending" then Some(Trending)
    else if name == "new_releases" then Some(NewReleases)
    else if name == "popular_language" then Some(PopularLanguage)
    else None
  }

  lemma SlugRoundTrip(s: Slug)
    ensures ParseSlug(SlugName(s)) == Some(s)
  {
  }

  /** One feed section: its title, slug and the track ids it lists. */
  datatype Section = Section(title: string, slug: Slug, items: seq<nat>)

  const RecentCap: nat := 10
  const SectionCap: nat := 15
  const MoodLookback: nat := 5

  function PlayedAtKey(p: Play): Ranking.Rank { Ranking.Rank(p.playedAt, 0) }

  function FavoritedAtKey(f: FavoriteRec): Ranking.Rank { Ranking.Rank(f.createdAt, 0) }

  /** The user's recently-played rows by `-played_at`, at most ten. */
  function RecentPlays(lib: Library, user: nat): seq<Play> {
    Ranking.TopBy(Ranking.Filter(lib.plays, PlayedBy(user)), PlayedAtKey, RecentCap)
  }

  function PlayedBy(user: nat): Play -> bool {
    (p: Play) => p.user == user
  }

  /** The `recently_played` items: the tracks of those rows, in that order. */
  function RecentlyPlayedIds(lib: Library, user: nat): (r: seq<nat>)
    ensures |r| == |RecentPlays(lib, user)|
    ensures forall i :: 0 <= i < |r| ==> r[i] == RecentPlays(lib, user)[i].music
  {
    var ps := RecentPlays(lib, user);
    seq(|ps|, i requires 0 <= i < |ps| => ps[i].music)
  }

  /** The user's favourite rows by `-created_at`, at most fifteen. */
  function RecentFavorites(lib: Library, user: nat): seq<FavoriteRec> {
    Ranking.TopBy(Ranking.Filter(lib.favorites, FavoritedBy(user)), FavoritedAtKey, SectionCap)
  }

  function FavoritedBy(user: nat): FavoriteRec -> bool {
    (f: FavoriteRec) => f.user == user
  }

  /** The `favorites` items. */
  function FavoriteIds(lib: Library, user: nat): (r: seq<nat>)
    ensures |r| == |RecentFavorites(lib, user)|
    ensures forall i :: 0 <= i < |r| ==> r[i] == RecentFavorites(lib, user)[i].music
  {
    var fs := RecentFavorites(lib, user);
    seq(|fs|, i requires 0 <= i < |fs| => fs[i].music)
  }

  /** `recently_played_ids[:5]`, the plays whose tags drive the mood section. */
  function Lookback(recent: seq<nat>): seq<nat> {
    Ranking.Cap(recent, MoodLookback)
  }

  /** The tags attached to the tracks with the given ids. */
  function RecentTags(lib: Library, ids: seq<nat>): set<nat> {
    set t, g | t in lib.tracks && t.id in ids && g in t.tags :: g
  }

  predicate ForYouCandidate(t: Track, artists: seq<nat>, recent: seq<nat>) {
    ByAnyArtist(t, artists) && t.id !in recent
  }

  predicate MoodCandidate(t: Track, tags: set<nat>, recent: seq<nat>) {
    HasAnyTag(t, tags) && t.id !in recent
  }

  /** Tracks by a favourite artist, not recently played, by `-play_count`, at most fifteen. */
  function ForYouTracks(lib: Library, artists: seq<nat>, recent: seq<nat>): seq<Track> {
    Ranking.TopBy(Ranking.Filter(lib.tracks, ForYouFilter(artists, recent)), PlayCountKey, SectionCap)
  }

  function ForYouFilter(artists: seq<nat>, recent: seq<nat>): Track -> bool {
    (t: Track) => ForYouCandidate(t, artists, recent)
  }

  /** Tracks sharing a tag of the recent plays, not recently played, by `-play_count`, at most fifteen. */
  function MoodTracks(lib: Library, recent: seq<nat>): seq<Track> {
    Ranking.TopBy(Ranking.Filter(lib.tracks, MoodFilter(RecentTags(lib, Lookback(recent)), recent)), PlayCountKey, SectionCap)
  }

  function MoodFilter(tags: set<nat>, recent: seq<nat>): Track -> bool {
    (t: Track) => MoodCandidate(t, tags, recent)
  }

  function TrendingTracks(lib: Library): seq<Track> {
    Ranking.TopBy(lib.tracks, PlayCountKey, SectionCap)
  }

  function NewReleaseTracks(lib: Library): seq<Track> {
    Ranking.TopBy(lib.tracks, CreatedAtKey, SectionCap)
  }

  /** The catalogue language matching the profile language: Arabic for 'ar', English otherwise. */
  function FeedLanguage(l: ProfileLanguage): (r: Language)
    ensures r == Arabic <==> l == Ar
    ensures r == English <==> l == En
  {
    match l
    case Ar => Arabic
    case En => English
  }

  function PopularLanguageTracks(lib: Library, lang: Language): seq<Track> {
    Ranking.TopBy(Ranking.Filter(lib.tracks, InLanguage(lang)), PlayCountKey, SectionCap)
  }

  function InLanguage(lang: Language): Track -> bool {
    (t: Track) => t.language == lang
  }

  /** Whether a section's builder runs at all: two of them are guarded. */
  predicate Attempted(lib: Library, user: nat, profile: UserProfile, s: Slug) {
    match s
    case RecommendedForYou => profile.favoriteArtists != []
    case RecommendedMood =>
      RecentlyPlayedIds(lib, user) != [] && RecentTags(lib, Lookback(RecentlyPlayedIds(lib, user))) != {}
    case _ => true
  }

  /** The items a section's builder produces when it runs. */
  function Candidate(lib: Library, user: nat, profile: UserProfile, s: Slug): seq<nat> {
    match s
    case RecentlyPlayed => RecentlyPlayedIds(lib, user)
    case Favorites => FavoriteIds(lib, user)
    case RecommendedForYou => TrackIds(ForYouTracks(lib, profile.favoriteArtists, RecentlyPlayedIds(lib, user)))
    case RecommendedMood => TrackIds(MoodTracks(lib, RecentlyPlayedIds(lib, user)))
    case Trending => TrackIds(TrendingTracks(lib))
    case NewReleases => TrackIds(NewReleaseTracks(lib))
    case PopularLanguage => LanguageIds(lib, profile)
  }

  /** The ids of the profile language's most played tracks. */
  function LanguageIds(lib: Library, profile: UserProfile): seq<nat> {
    TrackIds(PopularLanguageTracks(lib, FeedLanguage(profile.language)))
  }

  /** What one builder contributes: its section when it runs and finds something, else nothing. */
  function Step(lib: Library, user: nat, profile: UserProfile, s: Slug): seq<Section> {
    StepOf(s, Attempted(lib, user, profile, s), Candidate(lib, user, profile, s))
  }

  function StepOf(s: Slug, attempted: bool, items: seq<nat>): seq<Section> {
    if attempted && items != [] then [Section(SectionTitle(s), s, items)] else []
  }

  /** The seven builders, for one user and profile. */
  function Builders(lib: Library, user: nat, profile: UserProfile): Slug -> seq<Section> {
    (s: Slug) => Step(lib, user, profile, s)
  }

  /** The sections the builders `step` emit when run for `slugs`, in that order. */
  function Emit(step: Slug -> seq<Section>, slugs: seq<Slug>): seq<Section> {
    if slugs == [] then [] else step(slugs[0]) + Emit(step, slugs[1..])
  }

  /** The ids a list holds. */
  function Members(ids: seq<nat>): set<nat> {
    set x | x in ids
  }

  /** Every track id listed by some section. */
  function ItemIds(sections: seq<Section>): set<nat> {
    if sections == [] then {} else Members(sections[0].items) + ItemIds(sections[1..])
  }

  datatype Feed = Feed(sections: seq<Section>, ids: set<nat>)

  /** A user without a profile makes the feed fail when it reaches the profile. */
  datatype FeedError = ProfileMissing

  /** The specification of `get_home_sections`. */
  function HomeSections(lib: Library, user: nat, profile: Option<UserProfile>): Result<Feed, FeedError> {
    if profile.None? then Err(ProfileMissing)
    else
      var sections := Emit(Builders(lib, user, profile.value), PolicyOrder);
      Ok(Feed(sections, ItemIds(sections)))
  }

  lemma {:induction false} EmitAppend(step: Slug -> seq<Section>, a: seq<Slug>, b: seq<Slug>)
    ensures Emit(step, a + b) == Emit(step, a) + Emit(step, b)
  {
    if a == [] {
      assert a + b == b;
    } else {
      assert (a + b)[0] == a[0];
      assert (a + b)[1..] == a[1..] + b;
      EmitAppend(step, a[1..], b);
      calc {
        Emit(step, a + b);
        step(a[0]) + Emit(step, a[1..] + b);
        step(a[0]) + (Emit(step, a[1..]) + Emit(step, b));
        (step(a[0]) + Emit(step, a[1..])) + Emit(step, b);
      }
    }
  }

  lemma {:induction false} ItemIdsAppend(a: seq<Section>, b: seq<Section>)
    ensures ItemIds(a + b) == ItemIds(a) + ItemIds(b)
  {
    if a == [] {
      assert a + b == b;
    } else {
      assert (a + b)[0] == a[0];
      assert (a + b)[1..] == a[1..] + b;
      ItemIdsAppend(a[1..], b);
    }
  }

  /** The feed is the seven builders' contributions, in policy order. */
  lemma EmitPolicy(lib: Library, user: nat, profile: UserProfile)
    ensures Emit(Builders(lib, user, profile), PolicyOrder)
            == Step(lib, user, profile, RecentlyPlayed) + Step(lib, user, profile, Favorites)
               + Step(lib, user, profile, RecommendedForYou) + Step(lib, user, profile, RecommendedMood)
               + Step(lib, user, profile, Trending) + Step(lib, user, profile, NewReleases)
               + Step(lib, user, profile, PopularLanguage)
  {
    assert PolicyOrder == [RecentlyPlayed] + [Favorites] + [RecommendedForYou] + [RecommendedMood]
                          + [Trending] + [NewReleases] + [PopularLanguage];
    var step := Builders(lib, user, profile);
    forall s: Slug ensures Emit(step, [s]) == Step(lib, user, profile, s) {
      assert Emit(step, [s]) == step(s) + Emit(step, []);
    }
    EmitAppend(step, [RecentlyPlayed], [Favorites]);
    EmitAppend(step, [RecentlyPlayed] + [Favorites], [RecommendedForYou]);
    EmitAppend(step, [RecentlyPlayed] + [Favorites] + [RecommendedForYou], [RecommendedMood]);
    EmitAppend(step, [RecentlyPlayed] + [Favorites] + [RecommendedForYou] + [RecommendedMood], [Trending]);
    EmitAppend(step, [RecentlyPlayed] + [Favorites] + [RecommendedForYou] + [RecommendedMood]
                     + [Trending], [NewReleases]);
    EmitAppend(step, [RecentlyPlayed] + [Favorites] + [RecommendedForYou] + [RecommendedMood]
                     + [Trending] + [NewReleases], [PopularLanguage]);
  }

  /** What one builder contributes, spelt out. */
  lemma StepValue(lib: Library, user: nat, profile: UserProfile, s: Slug)
    ensures var items := Candidate(lib, user, profile, s);
            Step(lib, user, profile, s)
            == if Attempted(lib, user, profile, s) && items != [] then [Section(SectionTitle(s), s, items)] else []
    ensures ItemIds(Step(lib, user, profile, s))
            == if Attempted(lib, user, profile, s) then Members(Candidate(lib, user, profile, s)) else {}
  {
    var items := Candidate(lib, user, profile, s);
    if Attempted(lib, user, profile, s) && items != [] {
      assert Step(lib, user, profile, s)[1..] == [];
    }
  }

  /** Appending one builder's contribution, given whether it runs and what it finds. */
  lemma AppendStep(s: Slug, sections: seq<Section>, musicIds: set<nat>, attempted: bool, items: seq<nat>)
    ensures sections + StepOf(s, attempted, items)
            == if attempted && items != [] then sections + [Section(SectionTitle(s), s, items)] else sections
    ensures musicIds + ItemIds(StepOf(s, attempted, items))
            == if attempted && items != [] then musicIds + Members(items) else musicIds
  {
    if attempted && items != [] {
      assert StepOf(s, attempted, items)[1..] == [];
    } else {
      assert sections + [] == sections;
    }
  }

  /** Appends the `recently_played` section when the user has recent plays. */
  method AddRecentlyPlayed(ghost lib: Library, ghost user: nat, ghost p: UserProfile, recent: seq<nat>,
                           sections: seq<Section>, musicIds: set<nat>)
    returns (sections': seq<Section>, musicIds': set<nat>)
    requires recent == RecentlyPlayedIds(lib, user)
    ensures sections' == sections + Step(lib, user, p, RecentlyPlayed)
    ensures musicIds' == musicIds + ItemIds(Step(lib, user, p, RecentlyPlayed))
  {
    assert Step(lib, user, p, RecentlyPlayed) == StepOf(RecentlyPlayed, true, recent);
    AppendStep(RecentlyPlayed, sections, musicIds, true, recent);
    sections', musicIds' := sections, musicIds;
    if recent != [] {
      sections' := sections' + [Section(SectionTitle(RecentlyPlayed), RecentlyPlayed, recent)];
      musicIds' := musicIds' + Members(recent);
    }
  }

  /** Appends the `favorites` section when the user has favourites. */
  method AddFavorites(lib: Library, user: nat, ghost p: UserProfile, sections: seq<Section>, musicIds: set<nat>)
    returns (sections': seq<Section>, musicIds': set<nat>)
    ensures sections' == sections + Step(lib, user, p, Favorites)
    ensures musicIds' == musicIds + ItemIds(Step(lib, user, p, Favorites))
  {
    assert Step(lib, user, p, Favorites) == StepOf(Favorites, true, FavoriteIds(lib, user));
    AppendStep(Favorites, sections, musicIds, true, FavoriteIds(lib, user));
    sections', musicIds' := sections, musicIds;
    var favoriteIds := FavoriteIds(lib, user);
    if favoriteIds != [] {
      sections' := sections' + [Section(SectionTitle(Favorites), Favorites, favoriteIds)];
      musicIds' := musicIds' + Members(favoriteIds);
    }
  }

  /** Appends `recommended_for_you` when the profile names favourite artists and a track qualifies. */
  method AddRecommendedForYou(lib: Library, ghost user: nat, profile: UserProfile, recent: seq<nat>,
                              sections: seq<Section>, musicIds: set<nat>)
    returns (sections': seq<Section>, musicIds': set<nat>)
    requires recent == RecentlyPlayedIds(lib, user)
    ensures sections' == sections + Step(lib, user, profile, RecommendedForYou)
    ensures musicIds' == musicIds + ItemIds(Step(lib, user, profile, RecommendedForYou))
  {
    assert Step(lib, user, profile, RecommendedForYou)
           == StepOf(RecommendedForYou, profile.favoriteArtists != [],
                     TrackIds(ForYouTracks(lib, profile.favoriteArtists, recent)));
    AppendStep(RecommendedForYou, sections, musicIds, profile.favoriteArtists != [],
               TrackIds(ForYouTracks(lib, profile.favoriteArtists, recent)));
    sections', musicIds' := sections, musicIds;
    var artists := profile.favoriteArtists;
    if artists != [] {
      var recIds := TrackIds(ForYouTracks(lib, artists, recent));
      if recIds != [] {
        sections' := sections' + [Section(SectionTitle(RecommendedForYou), RecommendedForYou, recIds)];
        musicIds' := musicIds' + Members(recIds);
      }
    }
  }

  /** Appends `recommended_mood` when the last five plays carry tags and a track qualifies. */
  method AddRecommendedMood(lib: Library, ghost user: nat, ghost p: UserProfile, recent: seq<nat>,
                            sections: seq<Section>, musicIds: set<nat>)
    returns (sections': seq<Section>, musicIds': set<nat>)
    requires recent == RecentlyPlayedIds(lib, user)
    ensures sections' == sections + Step(lib, user, p, RecommendedMood)
    ensures musicIds' == musicIds + ItemIds(Step(lib, user, p, RecommendedMood))
  {
    assert Step(lib, user, p, RecommendedMood)
           == StepOf(RecommendedMood, recent != [] && RecentTags(lib, Lookback(recent)) != {},
                     TrackIds(MoodTracks(lib, recent)));
    AppendStep(RecommendedMood, sections, musicIds, recent != [] && RecentTags(lib, Lookback(recent)) != {},
               TrackIds(MoodTracks(lib, recent)));
    sections', musicIds' := sections, musicIds;
    if recent != [] {
      var recentTags := RecentTags(lib, Lookback(recent));
      if recentTags != {} {
        var tagIds := TrackIds(MoodTracks(lib, recent));
        if tagIds != [] {
          sections' := sections' + [Section(SectionTitle(RecommendedMood), RecommendedMood, tagIds)];
          musicIds' := musicIds' + Members(tagIds);
        }
      }
    }
  }

  /** Appends `trending` when the catalogue is not empty. */
  method AddTrending(lib: Library, ghost user: nat, ghost p: UserProfile, sections: seq<Section>, musicIds: set<nat>)
    returns (sections': seq<Section>, musicIds': set<nat>)
    ensures sections' == sections + Step(lib, user, p, Trending)
    ensures musicIds' == musicIds + ItemIds(Step(lib, user, p, Trending))
  {
    assert Step(lib, user, p, Trending) == StepOf(Trending, true, TrackIds(TrendingTracks(lib)));
    AppendStep(Trending, sections, musicIds, true, TrackIds(TrendingTracks(lib)));
    sections', musicIds' := sections, musicIds;
    var trendingIds := TrackIds(TrendingTracks(lib));
    if trendingIds != [] {
      sections' := sections' + [Section(SectionTitle(Trending), Trending, trendingIds)];
      musicIds' := musicIds' + Members(trendingIds);
    }
  }

  /** Appends `new_releases` when the catalogue is not empty. */
  method AddNewReleases(lib: Library, ghost user: nat, ghost p: UserProfile, sections: seq<Section>, musicIds: set<nat>)
    returns (sections': seq<Section>, musicIds': set<nat>)
    ensures sections' == sections + Step(lib, user, p, NewReleases)
    ensures musicIds' == musicIds + ItemIds(Step(lib, user, p, NewReleases))
  {
    assert Step(lib, user, p, NewReleases) == StepOf(NewReleases, true, TrackIds(NewReleaseTracks(lib)));
    AppendStep(NewReleases, sections, musicIds, true, TrackIds(NewReleaseTracks(lib)));
    sections', musicIds' := sections, musicIds;
    var newIds := TrackIds(NewReleaseTracks(lib));
    if newIds != [] {
      sections' := sections' + [Section(SectionTitle(NewReleases), NewReleases, newIds)];
      musicIds' := musicIds' + Members(newIds);
    }
  }

  /** Appends `popular_language` when some track is in the profile's language. */
  method AddPopularLanguage(lib: Library, ghost user: nat, profile: UserProfile, sections: seq<Section>, musicIds: set<nat>)
    returns (sections': seq<Section>, musicIds': set<nat>)
    ensures sections' == sections + Step(lib, user, profile, PopularLanguage)
    ensures musicIds' == musicIds + ItemIds(Step(lib, user, profile, PopularLanguage))
  {
    var language := FeedLanguage(profile.language);
    var langIds := TrackIds(PopularLanguageTracks(lib, language));
    assert Step(lib, user, profile, PopularLanguage) == StepOf(PopularLanguage, true, langIds);
    AppendStep(PopularLanguage, sections, musicIds, true, langIds);
    sections', musicIds' := sections, musicIds;
    if langIds != [] {
      sections' := sections' + [Section(SectionTitle(PopularLanguage), PopularLanguage, langIds)];
      musicIds' := musicIds' + Members(langIds);
    }
  }

  /**
   * `HomeViewSet.get_home_sections`: the builders run one after another,
   * each appending its section and adding its ids when its list is not
   * empty; a missing profile fails after the first two.
   */
  method BuildHomeSections(lib: Library, user: nat, profile: Option<UserProfile>) returns (r: Result<Feed, FeedError>)
    ensures r == HomeSections(lib, user, profile)
    ensures r.Ok? ==> r.value.ids == ItemIds(r.value.sections)
  {
    ghost var p := if profile.Some? then profile.value else NewProfile(user);
    var sections: seq<Section> := [];
    var musicIds: set<nat> := {};
    var recent := RecentlyPlayedIds(lib, user);
    sections, musicIds := AddRecentlyPlayed(lib, user, p, recent, sections, musicIds);
    sections, musicIds := AddFavorites(lib, user, p, sections, musicIds);
    if profile.None? {
      return Err(ProfileMissing);
    }
    var prof := profile.value;
    ghost var s0, s1 := Step(lib, user, prof, RecentlyPlayed), Step(lib, user, prof, Favorites);
    assert sections == s0 + s1 && musicIds == ItemIds(s0) + ItemIds(s1) by {
      assert p == prof;
      assert [] + s0 == s0;
      assert {} + ItemIds(s0) == ItemIds(s0);
    }
    sections, musicIds := AddRecommendedForYou(lib, user, prof, recent, sections, musicIds);
    sections, musicIds := AddRecommendedMood(lib, user, prof, recent, sections, musicIds);
    sections, musicIds := AddTrending(lib, user, prof, sections, musicIds);
    sections, musicIds := AddNewReleases(lib, user, prof, sections, musicIds);
    sections, musicIds := AddPopularLanguage(lib, user, prof, sections, musicIds);
    ghost var s2, s3 := Step(lib, user, prof, RecommendedForYou), Step(lib, user, prof, RecommendedMood);
    ghost var s4, s5 := Step(lib, user, prof, Trending), Step(lib, user, prof, NewReleases);
    ghost var s6 := Step(lib, user, prof, PopularLanguage);
    EmitPolicy(lib, user, prof);
    ItemIdsSeven(s0, s1, s2, s3, s4, s5, s6);
    assert sections == Emit(Builders(lib, user, prof), PolicyOrder);
    r := Ok(Feed(sections, musicIds));
  }

  lemma ItemIdsSeven(s0: seq<Section>, s1: seq<Section>, s2: seq<Section>, s3: seq<Section>,
                     s4: seq<Section>, s5: seq<Section>, s6: seq<Section>)
    ensures ItemIds(s0 + s1 + s2 + s3 + s4 + s5 + s6)
            == ItemIds(s0) + ItemIds(s1) + ItemIds(s2) + ItemIds(s3) + ItemIds(s4) + ItemIds(s5) + ItemIds(s6)
  {
    ItemIdsAppend(s0, s1);
    ItemIdsAppend(s0 + s1, s2);
    ItemIdsAppend(s0 + s1 + s2, s3);
    ItemIdsAppend(s0 + s1 + s2 + s3, s4);
    ItemIdsAppend(s0 + s1 + s2 + s3 + s4, s5);
    ItemIdsAppend(s0 + s1 + s2 + s3 + s4 + s5, s6);
  }

  // ---------------------------------------------------------------------
  // The shape of the feed

  /** Sections appear in strictly increasing policy position, so each slug at most once. */
  predicate InPolicyOrder(sections: seq<Section>) {
    forall i, j :: 0 <= i < j < |sections| ==> SlugRank(sections[i].slug) < SlugRank(sections[j].slug)
  }

  /** Each builder emits at most one section, under its own slug. */
  predicate OneSectionEach(step: Slug -> seq<Section>) {
    forall s :: |step(s)| <= 1 && forall x :: x in step(s) ==> x.slug == s
  }

  /** Every emitted section is one its own builder produced. */
  lemma {:induction false} EmitSound(step: Slug -> seq<Section>, slugs: seq<Slug>)
    requires OneSectionEach(step)
    ensures forall x :: x in Emit(step, slugs) ==> x.slug in slugs && x in step(x.slug)
  {
    if slugs != [] {
      EmitSound(step, slugs[1..]);
      forall x | x in Emit(step, slugs) ensures x.slug in slugs && x in step(x.slug) {
        if x !in step(slugs[0]) {
          assert x in Emit(step, slugs[1..]);
          assert x.slug in slugs[1..];
        }
      }
    }
  }

  /** Every section a builder for one of `slugs` produces is emitted. */
  lemma {:induction false} EmitComplete(step: Slug -> seq<Section>, slugs: seq<Slug>)
    ensures forall s, x :: s in slugs && x in step(s) ==> x in Emit(step, slugs)
  {
    if slugs != [] {
      EmitComplete(step, slugs[1..]);
      forall s, x | s in slugs && x in step(s) ensures x in Emit(step, slugs) {
        if s != slugs[0] {
          assert s in slugs[1..];
        }
      }
    }
  }

  /** Builders run in increasing policy position emit sections in that order. */
  lemma {:induction false} EmitOrdered(step: Slug -> seq<Section>, slugs: seq<Slug>)
    requires OneSectionEach(step)
    requires forall i, j :: 0 <= i < j < |slugs| ==> SlugRank(slugs[i]) < SlugRank(slugs[j])
    ensures InPolicyOrder(Emit(step, slugs))
  {
    if slugs != [] {
      var head := step(slugs[0]);
      var tail := Emit(step, slugs[1..]);
      EmitOrdered(step, slugs[1..]);
      EmitSound(step, slugs[1..]);
      forall y | y in tail ensures SlugRank(slugs[0]) < SlugRank(y.slug) {
        var k :| 0 <= k < |slugs[1..]| && slugs[1..][k] == y.slug;
        assert slugs[k + 1] == y.slug;
      }
      var r := head + tail;
      forall i, j | 0 <= i < j < |r| ensures SlugRank(r[i].slug) < SlugRank(r[j].slug) {
        if i < |head| {
          assert r[i] in head;
          assert r[j] in tail;
        } else {
          assert r[i] == tail[i - |head|] && r[j] == tail[j - |head|];
        }
      }
    }
  }

  /** The gathered ids are exactly the ids some section lists. */
  lemma {:induction false} ItemIdsMembers(sections: seq<Section>)
    ensures forall id :: id in ItemIds(sections) <==> exists x :: x in sections && id in x.items
  {
    if sections != [] {
      ItemIdsMembers(sections[1..]);
      forall id ensures id in ItemIds(sections) <==> exists x :: x in sections && id in x.items {
        if id in ItemIds(sections[1..]) {
          var x :| x in sections[1..] && id in x.items;
          assert x in sections;
        }
        if exists x :: x in sections && id in x.items {
          var x :| x in sections && id in x.items;
          if x != sections[0] {
            assert x in sections[1..];
          }
        }
      }
    }
  }

  /** The seven builders emit at most one section each, a non-empty one, exactly when they run and find something. */
  lemma BuildersShape(lib: Library, user: nat, profile: UserProfile)
    ensures OneSectionEach(Builders(lib, user, profile))
    ensures forall s, x :: x in Builders(lib, user, profile)(s) ==>
              x.items != [] && x.title == SectionTitle(s) && x.items == Candidate(lib, user, profile, s)
    ensures forall s :: Builders(lib, user, profile)(s) != []
              <==> Attempted(lib, user, profile, s) && Candidate(lib, user, profile, s) != []
  {
    forall s ensures var b := Builders(lib, user, profile)(s);
                     |b| <= 1 && (b != [] <==> Attempted(lib, user, profile, s) && Candidate(lib, user, profile, s) != [])
                     && (forall x :: x in b ==> x.slug == s && x.items != [] && x.title == SectionTitle(s)
                                                && x.items == Candidate(lib, user, profile, s)) {
      StepValue(lib, user, profile, s);
    }
  }

  /** The policy order lists each slug once, by rank. */
  lemma PolicyOrderRanks()
    ensures forall i, j :: 0 <= i < j < |PolicyOrder| ==> SlugRank(PolicyOrder[i]) < SlugRank(PolicyOrder[j])
    ensures forall s: Slug :: s in PolicyOrder
  {
    assert forall k :: 0 <= k < |PolicyOrder| ==> SlugRank(PolicyOrder[k]) == k;
    forall s: Slug ensures s in PolicyOrder {
      assert PolicyOrder[SlugRank(s)] == s;
    }
  }

  /**
   * The feed: it fails exactly when the profile is missing; otherwise the
   * sections follow the policy order, none is empty, a slug's section is
   * present exactly when its builder ran and found something, each lists
   * what its builder found, and the ids are the union of all items.
   */
  lemma HomeFeedShape(lib: Library, user: nat, profile: Option<UserProfile>)
    ensures HomeSections(lib, user, profile).Ok? <==> profile.Some?
    ensures profile.Some? ==>
              var f := HomeSections(lib, user, profile).value;
              InPolicyOrder(f.sections)
              && (forall x :: x in f.sections ==>
                    x.items != [] && x.title == SectionTitle(x.slug)
                    && x.items == Candidate(lib, user, profile.value, x.slug))
              && (forall s: Slug ::
                    (exists x :: x in f.sections && x.slug == s)
                    <==> Attempted(lib, user, profile.value, s) && Candidate(lib, user, profile.value, s) != [])
              && (forall id :: id in f.ids <==> exists x :: x in f.sections && id in x.items)
  {
    if profile.Some? {
      SectionsShape(lib, user, profile.value);
    }
  }

  /** The sections built for a user with a profile, as `HomeFeedShape` states them. */
  lemma SectionsShape(lib: Library, user: nat, p: UserProfile)
    ensures var sections := Emit(Builders(lib, user, p), PolicyOrder);
            InPolicyOrder(sections)
            && (forall x :: x in sections ==>
                  x.items != [] && x.title == SectionTitle(x.slug) && x.items == Candidate(lib, user, p, x.slug))
            && (forall s: Slug ::
                  (exists x :: x in sections && x.slug == s) <==> Attempted(lib, user, p, s) && Candidate(lib, user, p, s) != [])
            && (forall id :: id in ItemIds(sections) <==> exists x :: x in sections && id in x.items)
  {
    var step := Builders(lib, user, p);
    var sections := Emit(step, PolicyOrder);
    BuildersShape(lib, user, p);
    PolicyOrderRanks();
    EmitOrdered(step, PolicyOrder);
    EmitSound(step, PolicyOrder);
    EmitComplete(step, PolicyOrder);
    ItemIdsMembers(sections);
    forall s: Slug ensures (exists x :: x in sections && x.slug == s)
                           <==> Attempted(lib, user, p, s) && Candidate(lib, user, p, s) != [] {
      if Attempted(lib, user, p, s) && Candidate(lib, user, p, s) != [] {
        var x := step(s)[0];
        assert x in step(s);
      }
    }
  }

  // ---------------------------------------------------------------------
  // The builders

  /** No id is listed twice. */
  predicate NoDuplicates(ids: seq<nat>) {
    forall i, j :: 0 <= i < j < |ids| ==> ids[i] != ids[j]
  }

  function UserAndMusic(p: Play): (nat, nat) { (p.user, p.music) }

  function FavoriteUserAndMusic(f: FavoriteRec): (nat, nat) { (f.user, f.music) }

  /** A `filter(...).order_by(...)[:k]` over the catalogue, in terms of the catalogue. */
  lemma FilteredTopTracks(tracks: seq<Track>, p: Track -> bool, key: Track -> Ranking.Rank, k: nat)
    ensures var r := Ranking.TopBy(Ranking.Filter(tracks, p), key, k);
            |r| <= k
            && (forall t :: t in r ==> t in tracks && p(t))
            && Ranking.NonIncreasing(r, key)
            && (forall t, u :: t in tracks && p(t) && t !in r && u in r ==> Ranking.AtLeast(key(u), key(t)))
    ensures UniqueTrackIds(tracks) ==> NoDuplicates(TrackIds(Ranking.TopBy(Ranking.Filter(tracks, p), key, k)))
  {
    Ranking.TopByProperties(Ranking.Filter(tracks, p), key, k);
    Ranking.TopOfFilterMembers(tracks, p, key, k);
    Ranking.TopOfFilterMaximal(tracks, p, key, k);
    if UniqueTrackIds(tracks) {
      assert Ranking.DistinctBy(tracks, TrackId);
      Ranking.TopOfFilterDistinct(tracks, p, key, k, TrackId);
    }
  }

  /** An `order_by(...)[:k]` over the whole catalogue. */
  lemma TopTracks(tracks: seq<Track>, key: Track -> Ranking.Rank, k: nat)
    ensures var r := Ranking.TopBy(tracks, key, k);
            |r| == (if |tracks| <= k then |tracks| else k)
            && (forall t :: t in r ==> t in tracks)
            && Ranking.NonIncreasing(r, key)
            && (forall t, u :: t in tracks && t !in r && u in r ==> Ranking.AtLeast(key(u), key(t)))
    ensures UniqueTrackIds(tracks) ==> NoDuplicates(TrackIds(Ranking.TopBy(tracks, key, k)))
  {
    Ranking.TopByProperties(tracks, key, k);
    if UniqueTrackIds(tracks) {
      assert Ranking.DistinctBy(tracks, TrackId);
      Ranking.TopByKeepsDistinct(tracks, key, k, TrackId);
    }
  }

  /**
   * `recently_played`: at most ten of the user's own plays, most recent
   * first, none omitted that is more recent than one kept, each track once.
   */
  lemma RecentlyPlayedSection(lib: Library, user: nat)
    ensures var ps := RecentPlays(lib, user);
            |RecentlyPlayedIds(lib, user)| <= RecentCap
            && (forall p :: p in ps ==> p in lib.plays && p.user == user)
            && Ranking.NonIncreasing(ps, PlayedAtKey)
            && (forall p, q :: p in lib.plays && p.user == user && p !in ps && q in ps ==> q.playedAt >= p.playedAt)
    ensures UniquePlays(lib.plays) ==> NoDuplicates(RecentlyPlayedIds(lib, user))
  {
    Ranking.TopByProperties(Ranking.Filter(lib.plays, PlayedBy(user)), PlayedAtKey, RecentCap);
    Ranking.TopOfFilterMembers(lib.plays, PlayedBy(user), PlayedAtKey, RecentCap);
    RecentPlaysMaximal(lib, user);
    if UniquePlays(lib.plays) {
      RecentlyPlayedDistinct(lib, user);
    }
  }

  lemma RecentPlaysMaximal(lib: Library, user: nat)
    ensures var ps := RecentPlays(lib, user);
            forall p, q :: p in lib.plays && p.user == user && p !in ps && q in ps ==> q.playedAt >= p.playedAt
  {
    var ps := RecentPlays(lib, user);
    Ranking.TopOfFilterMaximal(lib.plays, PlayedBy(user), PlayedAtKey, RecentCap);
    forall p, q | p in lib.plays && p.user == user && p !in ps && q in ps ensures q.playedAt >= p.playedAt {
      assert Ranking.AtLeast(PlayedAtKey(q), PlayedAtKey(p));
    }
  }

  lemma RecentlyPlayedDistinct(lib: Library, user: nat)
    requires UniquePlays(lib.plays)
    ensures NoDuplicates(RecentlyPlayedIds(lib, user))
  {
    var ps := RecentPlays(lib, user);
    var ids := RecentlyPlayedIds(lib, user);
    assert Ranking.DistinctBy(lib.plays, UserAndMusic);
    Ranking.TopOfFilterDistinct(lib.plays, PlayedBy(user), PlayedAtKey, RecentCap, UserAndMusic);
    Ranking.TopOfFilterMembers(lib.plays, PlayedBy(user), PlayedAtKey, RecentCap);
    forall i, j | 0 <= i < j < |ids| ensures ids[i] != ids[j] {
      assert ps[i] in ps && ps[j] in ps;
      assert UserAndMusic(ps[i]) != UserAndMusic(ps[j]);
    }
  }

  /**
   * `favorites`: at most fifteen of the user's own favourites, newest first,
   * none omitted that is newer than one kept, each track once.
   */
  lemma FavoritesSection(lib: Library, user: nat)
    ensures var fs := RecentFavorites(lib, user);
            |FavoriteIds(lib, user)| <= SectionCap
            && (forall f :: f in fs ==> f in lib.favorites && f.user == user)
            && Ranking.NonIncreasing(fs, FavoritedAtKey)
            && (forall f, g :: f in lib.favorites && f.user == user && f !in fs && g in fs ==> g.createdAt >= f.createdAt)
    ensures UniqueFavorites(lib.favorites) ==> NoDuplicates(FavoriteIds(lib, user))
  {
    Ranking.TopByProperties(Ranking.Filter(lib.favorites, FavoritedBy(user)), FavoritedAtKey, SectionCap);
    Ranking.TopOfFilterMembers(lib.favorites, FavoritedBy(user), FavoritedAtKey, SectionCap);
    RecentFavoritesMaximal(lib, user);
    if UniqueFavorites(lib.favorites) {
      FavoriteIdsDistinct(lib, user);
    }
  }

  lemma RecentFavoritesMaximal(lib: Library, user: nat)
    ensures var fs := RecentFavorites(lib, user);
            forall f, g :: f in lib.favorites && f.user == user && f !in fs && g in fs ==> g.createdAt >= f.createdAt
  {
    var fs := RecentFavorites(lib, user);
    Ranking.TopOfFilterMaximal(lib.favorites, FavoritedBy(user), FavoritedAtKey, SectionCap);
    forall f, g | f in lib.favorites && f.user == user && f !in fs && g in fs ensures g.createdAt >= f.createdAt {
      assert Ranking.AtLeast(FavoritedAtKey(g), FavoritedAtKey(f));
    }
  }

  lemma FavoriteIdsDistinct(lib: Library, user: nat)
    requires UniqueFavorites(lib.favorites)
    ensures NoDuplicates(FavoriteIds(lib, user))
  {
    var fs := RecentFavorites(lib, user);
    var ids := FavoriteIds(lib, user);
    assert Ranking.DistinctBy(lib.favorites, FavoriteUserAndMusic);
    Ranking.TopOfFilterDistinct(lib.favorites, FavoritedBy(user), FavoritedAtKey, SectionCap, FavoriteUserAndMusic);
    Ranking.TopOfFilterMembers(lib.favorites, FavoritedBy(user), FavoritedAtKey, SectionCap);
    forall i, j | 0 <= i < j < |ids| ensures ids[i] != ids[j] {
      assert fs[i] in fs && fs[j] in fs;
      assert FavoriteUserAndMusic(fs[i]) != FavoriteUserAndMusic(fs[j]);
    }
  }

  /**
   * `recommended_for_you`: at most fifteen tracks, each by a favourite artist
   * and not among the recently played ids, most played first, none left out
   * that was played more than one kept, each track once.
   */
  lemma RecommendedForYouSection(lib: Library, artists: seq<nat>, recent: seq<nat>)
    ensures var r := ForYouTracks(lib, artists, recent);
            |r| <= SectionCap
            && (forall t :: t in r ==> t in lib.tracks && ByAnyArtist(t, artists) && t.id !in recent)
            && Ranking.NonIncreasing(r, PlayCountKey)
            && (forall t, u :: t in lib.tracks && ForYouCandidate(t, artists, recent) && t !in r && u in r ==>
                  u.playCount >= t.playCount)
    ensures UniqueTrackIds(lib.tracks) ==> NoDuplicates(TrackIds(ForYouTracks(lib, artists, recent)))
  {
    var r := ForYouTracks(lib, artists, recent);
    FilteredTopTracks(lib.tracks, ForYouFilter(artists, recent), PlayCountKey, SectionCap);
    forall t, u | t in lib.tracks && ForYouCandidate(t, artists, recent) && t !in r && u in r
      ensures u.playCount >= t.playCount
    {
      assert Ranking.AtLeast(PlayCountKey(u), PlayCountKey(t));
    }
  }

  /**
   * `recommended_mood`: at most fifteen tracks, each carrying a tag of one of
   * the first five recently played tracks and not itself recently played,
   * most played first, none left out that was played more than one kept,
   * each track once.
   */
  lemma RecommendedMoodSection(lib: Library, recent: seq<nat>)
    ensures var r := MoodTracks(lib, recent);
            var tags := RecentTags(lib, Lookback(recent));
            |r| <= SectionCap
            && (forall t :: t in r ==>
                  (t in lib.tracks && t.id !in recent
                   && exists g, u :: g in t.tags && u in lib.tracks && u.id in recent[..|Lookback(recent)|] && g in u.tags))
            && Ranking.NonIncreasing(r, PlayCountKey)
            && (forall t, u :: t in lib.tracks && MoodCandidate(t, tags, recent) && t !in r && u in r ==>
                  u.playCount >= t.playCount)
    ensures |Lookback(recent)| == if |recent| <= MoodLookback then |recent| else MoodLookback
    ensures UniqueTrackIds(lib.tracks) ==> NoDuplicates(TrackIds(MoodTracks(lib, recent)))
  {
    var r := MoodTracks(lib, recent);
    var tags := RecentTags(lib, Lookback(recent));
    FilteredTopTracks(lib.tracks, MoodFilter(tags, recent), PlayCountKey, SectionCap);
    forall t | t in r
      ensures exists g, u :: g in t.tags && u in lib.tracks && u.id in recent[..|Lookback(recent)|] && g in u.tags
    {
      assert MoodCandidate(t, tags, recent);
      var g :| g in t.tags && g in tags;
      var u :| u in lib.tracks && u.id in Lookback(recent) && g in u.tags;
    }
    forall t, u | t in lib.tracks && MoodCandidate(t, tags, recent) && t !in r && u in r
      ensures u.playCount >= t.playCount
    {
      assert Ranking.AtLeast(PlayCountKey(u), PlayCountKey(t));
    }
  }

  /** `trending`: the fifteen most played tracks (all of them when fewer), most played first, each once. */
  lemma TrendingSection(lib: Library)
    ensures var r := TrendingTracks(lib);
            |r| == (if |lib.tracks| <= SectionCap then |lib.tracks| else SectionCap)
            && (forall t :: t in r ==> t in lib.tracks)
            && Ranking.NonIncreasing(r, PlayCountKey)
            && (forall t, u :: t in lib.tracks && t !in r && u in r ==> u.playCount >= t.playCount)
    ensures UniqueTrackIds(lib.tracks) ==> NoDuplicates(TrackIds(TrendingTracks(lib)))
  {
    var r := TrendingTracks(lib);
    TopTracks(lib.tracks, PlayCountKey, SectionCap);
    forall t, u | t in lib.tracks && t !in r && u in r ensures u.playCount >= t.playCount {
      assert Ranking.AtLeast(PlayCountKey(u), PlayCountKey(t));
    }
  }

  /** `new_releases`: the fifteen newest tracks (all of them when fewer), newest first, each once. */
  lemma NewReleasesSection(lib: Library)
    ensures var r := NewReleaseTracks(lib);
            |r| == (if |lib.tracks| <= SectionCap then |lib.tracks| else SectionCap)
            && (forall t :: t in r ==> t in lib.tracks)
            && Ranking.NonIncreasing(r, CreatedAtKey)
            && (forall t, u :: t in lib.tracks && t !in r && u in r ==> u.createdAt >= t.createdAt)
    ensures UniqueTrackIds(lib.tracks) ==> NoDuplicates(TrackIds(NewReleaseTracks(lib)))
  {
    var r := NewReleaseTracks(lib);
    TopTracks(lib.tracks, CreatedAtKey, SectionCap);
    forall t, u | t in lib.tracks && t !in r && u in r ensures u.createdAt >= t.createdAt {
      assert Ranking.AtLeast(CreatedAtKey(u), CreatedAtKey(t));
    }
  }

  /**
   * `popular_language`: at most fifteen tracks in Arabic when the profile
   * language is 'ar' and in English otherwise, most played first, none left
   * out that was played more than one kept, each once.
   */
  lemma PopularLanguageSection(lib: Library, language: ProfileLanguage)
    ensures var r := PopularLanguageTracks(lib, FeedLanguage(language));
            |r| <= SectionCap
            && (forall t :: t in r ==>
                  (t in lib.tracks && (t.language == Arabic <==> language == Ar) && (t.language == English <==> language == En)))
            && Ranking.NonIncreasing(r, PlayCountKey)
            && (forall t, u :: t in lib.tracks && t.language == FeedLanguage(language) && t !in r && u in r ==>
                  u.playCount >= t.playCount)
    ensures UniqueTrackIds(lib.tracks) ==> NoDuplicates(TrackIds(PopularLanguageTracks(lib, FeedLanguage(language))))
  {
    var lang := FeedLanguage(language);
    PopularTracks(lib, lang);
    forall t | t in PopularLanguageTracks(lib, lang)
      ensures (t.language == Arabic <==> language == Ar) && (t.language == English <==> language == En)
    {
      assert t.language == lang;
    }
  }

  /** The tracks in one language, most played first, none left out that was played more than one kept. */
  lemma PopularTracks(lib: Library, lang: Language)
    ensures var r := PopularLanguageTracks(lib, lang);
            |r| <= SectionCap
            && (forall t :: t in r ==> t in lib.tracks && t.language == lang)
            && Ranking.NonIncreasing(r, PlayCountKey)
            && (forall t, u :: t in lib.tracks && t.language == lang && t !in r && u in r ==> u.playCount >= t.playCount)
    ensures UniqueTrackIds(lib.tracks) ==> NoDuplicates(TrackIds(PopularLanguageTracks(lib, lang)))
  {
    var r := PopularLanguageTracks(lib, lang);
    FilteredTopTracks(lib.tracks, InLanguage(lang), PlayCountKey, SectionCap);
    forall t, u | t in lib.tracks && t.language == lang && t !in r && u in r ensures u.playCount >= t.playCount {
      assert InLanguage(lang)(t);
      assert Ranking.AtLeast(PlayCountKey(u), PlayCountKey(t));
    }
  }

  /** Every section of the feed lists exactly what its builder found. */
  lemma FeedSectionsAreCandidates(lib: Library, user: nat, profile: UserProfile)
    ensures forall x :: x in HomeSections(lib, user, Some(profile)).value.sections ==>
              x.items == Candidate(lib, user, profile, x.slug)
  {
    var step := Builders(lib, user, profile);
    BuildersShape(lib, user, profile);
    EmitSound(step, PolicyOrder);
  }

  lemma TrackIdsNotIn(r: seq<Track>, recent: seq<nat>)
    requires forall t :: t in r ==> t.id !in recent
    ensures forall id :: id in TrackIds(r) ==> id !in recent
  {
    forall id | id in TrackIds(r) ensures id !in recent {
      var i :| 0 <= i < |TrackIds(r)| && TrackIds(r)[i] == id;
      assert r[i] in r;
    }
  }

  /** Neither recommendation section of the feed lists a recently played track. */
  lemma FeedExcludesRecent(lib: Library, user: nat, profile: UserProfile)
    ensures var f := HomeSections(lib, user, Some(profile)).value;
            forall x, id :: x in f.sections && (x.slug == RecommendedForYou || x.slug == RecommendedMood) && id in x.items ==>
              id !in RecentlyPlayedIds(lib, user)
  {
    var recent := RecentlyPlayedIds(lib, user);
    FeedSectionsAreCandidates(lib, user, profile);
    assert forall id :: id in TrackIds(ForYouTracks(lib, profile.favoriteArtists, recent)) ==> id !in recent by {
      RecommendedForYouSection(lib, profile.favoriteArtists, recent);
      TrackIdsNotIn(ForYouTracks(lib, profile.favoriteArtists, recent), recent);
    }
    assert forall id :: id in TrackIds(MoodTracks(lib, recent)) ==> id !in recent by {
      RecommendedMoodSection(lib, recent);
      TrackIdsNotIn(MoodTracks(lib, recent), recent);
    }
  }

  /** Over a well-formed database no section of the feed lists a track twice. */
  lemma FeedSectionsDistinct(lib: Library, user: nat, profile: UserProfile)
    requires WellFormed(lib)
    ensures forall x :: x in HomeSections(lib, user, Some(profile)).value.sections ==> NoDuplicates(x.items)
  {
    var f := HomeSections(lib, user, Some(profile)).value;
    var recent := RecentlyPlayedIds(lib, user);
    FeedSectionsAreCandidates(lib, user, profile);
    forall x | x in f.sections ensures NoDuplicates(x.items) {
      match x.slug
      case RecentlyPlayed => RecentlyPlayedSection(lib, user);
      case Favorites => FavoritesSection(lib, user);
      case RecommendedForYou => RecommendedForYouSection(lib, profile.favoriteArtists, recent);
      case RecommendedMood => RecommendedMoodSection(lib, recent);
      case Trending => TrendingSection(lib);
      case NewReleases => NewReleasesSection(lib);
      case PopularLanguage => PopularLanguageSection(lib, profile.language);
    }
  }

  // ---------------------------------------------------------------------
  // The normalized track map

  lemma NatToStringInjectiveAll()
    ensures forall a: nat, b: nat :: NatToString(a) == NatToString(b) ==> a == b
  {
    forall a: nat, b: nat ensures NatToString(a) == NatToString(b) ==> a == b {
      NatToStringInjective(a, b);
    }
  }

  /**
   * `music_map`: one normalized projection per gathered id that names a
   * track in the catalogue, keyed by the id written in decimal.
   */
  function MusicMap(lib: Library, ids: set<nat>, languages: seq<string>, request: Option<Requester>)
    : map<string, NormalizedTrack>
  {
    KeyedByDecimal(FoundEntries(lib, ids, languages, request))
  }

  /** The projection of each gathered id that names a catalogue track. */
  function FoundEntries(lib: Library, ids: set<nat>, languages: seq<string>, request: Option<Requester>)
    : map<nat, NormalizedTrack>
  {
    map id | id in ids && FindTrack(lib.tracks, id).Some? ::
      Normalize(lib, languages, request, FindTrack(lib.tracks, id).value)
  }

  /** A map keyed by numbers, rekeyed by those numbers written in decimal. */
  function KeyedByDecimal<V>(m: map<nat, V>): (r: map<string, V>)
    ensures r.Keys == set id | id in m :: NatToString(id)
    ensures forall id :: id in m ==> r[NatToString(id)] == m[id]
  {
    NatToStringInjectiveAll();
    map id | id in m :: NatToString(id) := m[id]
  }

  /** Every key of the map is a gathered catalogue id written in decimal, and its entry is that track's projection. */
  lemma MusicMapReadBack(lib: Library, ids: set<nat>, languages: seq<string>, request: Option<Requester>)
    ensures var m := MusicMap(lib, ids, languages, request);
            forall k :: k in m ==>
              AllDigits(k) && ParseDigits(k) in ids && FindTrack(lib.tracks, ParseDigits(k)).Some?
              && m[k].id == ParseDigits(k)
              && m[k] == Normalize(lib, languages, request, FindTrack(lib.tracks, ParseDigits(k)).value)
  {
    var e := FoundEntries(lib, ids, languages, request);
    var m := MusicMap(lib, ids, languages, request);
    forall k | k in m
      ensures AllDigits(k) && ParseDigits(k) in ids && FindTrack(lib.tracks, ParseDigits(k)).Some?
              && m[k].id == ParseDigits(k)
              && m[k] == Normalize(lib, languages, request, FindTrack(lib.tracks, ParseDigits(k)).value)
    {
      var id :| id in e && NatToString(id) == k;
      ParseNatToString(id);
      assert m[k] == e[id];
    }
  }

  /** Every gathered id that names a catalogue track has an entry in the map. */
  lemma MusicMapCoversIds(lib: Library, ids: set<nat>, languages: seq<string>, request: Option<Requester>)
    ensures forall id :: id in ids && (exists t :: t in lib.tracks && t.id == id) ==>
              NatToString(id) in MusicMap(lib, ids, languages, request)
  {
    forall id | id in ids && (exists t :: t in lib.tracks && t.id == id)
      ensures NatToString(id) in MusicMap(lib, ids, languages, request)
    {
      var t :| t in lib.tracks && t.id == id;
      var i :| 0 <= i < |lib.tracks| && lib.tracks[i] == t;
      assert FindTrack(lib.tracks, id).Some?;
      assert id in FoundEntries(lib, ids, languages, request);
    }
  }
}

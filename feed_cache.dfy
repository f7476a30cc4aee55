/**
 * `HomeViewSet.list`: the home feed is served from a cache keyed by user
 * and language; a miss builds the feed and its normalized track map and
 * stores both for five minutes.
 */
module FeedCache {

  import opened Wrappers
  import opened Text
  import opened Accounts
  import opened Catalog
  import opened Envelope
  import opened MusicSerializers
  import opened HomeFeed

  /** Seconds a stored feed stays valid. */
  const FeedTtl: nat := 300

  const HomeLoadedMessage: string := "Home feed loaded successfully"

  /** What the feed response carries: the sections and the id-keyed track map. */
  datatype FeedData = FeedData(sections: seq<Section>, musicMap: map<string, NormalizedTrack>)

  /** A stored value and the instant from which it counts as expired. */
  datatype Entry = Entry(data: FeedData, expiresAt: int)

  /** A cache read: the stored value while `now` is before its expiry. */
  function Lookup(entries: map<string, Entry>, key: string, now: int): (r: Option<FeedData>)
    ensures r.Some? <==> key in entries && now < entries[key].expiresAt
    ensures r.Some? ==> r.value == entries[key].data
  {
    if key in entries && now < entries[key].expiresAt then Some(entries[key].data) else None
  }

  /** The process-wide cache, reduced to the entries it holds. */
  class HomeCache {
    var entries: map<string, Entry>

    constructor()
      ensures entries == map[]
    {
      entries := map[];
    }

    /** `cache.get(key)`. */
    method Get(key: string, now: int) returns (r: Option<FeedData>)
      ensures r == Lookup(entries, key, now)
    {
      if key in entries && now < entries[key].expiresAt {
        r := Some(entries[key].data);
      } else {
        r := None;
      }
    }

    /** `cache.set(key, data, ttl)`. */
    method Set(key: string, data: FeedData, ttl: nat, now: int)
      modifies this
      ensures entries == old(entries)[key := Entry(data, now + ttl)]
    {
      entries := entries[key := Entry(data, now + ttl)];
    }
  }

  /** A stored feed is served until its time to live has passed, and then no more. */
  lemma StoredFeedServed(entries: map<string, Entry>, key: string, data: FeedData, stored: int, now: int)
    ensures var after := entries[key := Entry(data, stored + FeedTtl)];
            (stored <= now < stored + FeedTtl ==> Lookup(after, key, now) == Some(data))
            && (now >= stored + FeedTtl ==> Lookup(after, key, now) == None)
            && (forall k :: k != key ==> Lookup(after, k, now) == Lookup(entries, k, now))
  {
  }

  /** The language of the key: the profile's, or 'en' when the user has no profile. */
  function FeedLanguageCode(profile: Option<UserProfile>): (r: string)
    ensures r == "en" || r == "ar"
    ensures profile.None? ==> r == "en"
    ensures profile.Some? ==> ParseProfileLanguage(r) == Some(profile.value.language)
  {
    if profile.Some? then
      ProfileLanguageRoundTrip(profile.value.language);
      ProfileLanguageCode(profile.value.language)
    else "en"
  }

  /** `f"home_feed_{user.id}_{lang}"`. */
  function CacheKey(userId: nat, lang: string): string {
    "home_feed_" + NatToString(userId) + "_" + lang
  }

  lemma DigitsThenUnderscore(d1: string, r1: string, d2: string, r2: string)
    requires AllDigits(d1) && AllDigits(d2)
    requires d1 + "_" + r1 == d2 + "_" + r2
    ensures d1 == d2 && r1 == r2
  {
    var s := d1 + "_" + r1;
    assert s == d2 + "_" + r2;
    assert !IsDigit(s[|d1|]);
    assert !IsDigit(s[|d2|]);
    assert forall i :: 0 <= i < |d2| ==> s[i] == d2[i];
    assert forall i :: 0 <= i < |d1| ==> s[i] == d1[i];
    assert |d1| == |d2|;
    assert d1 == s[..|d1|] == d2;
    assert r1 == s[|d1| + 1..] == r2;
  }

  /** Distinct users, or distinct languages, never share a cache entry. */
  lemma CacheKeyInjective(u1: nat, l1: string, u2: nat, l2: string)
    ensures CacheKey(u1, l1) == CacheKey(u2, l2) ==> u1 == u2 && l1 == l2
  {
    var prefix := "home_feed_";
    if CacheKey(u1, l1) == CacheKey(u2, l2) {
      var rest1 := NatToString(u1) + "_" + l1;
      var rest2 := NatToString(u2) + "_" + l2;
      assert CacheKey(u1, l1) == prefix + rest1;
      assert CacheKey(u2, l2) == prefix + rest2;
      assert rest1 == CacheKey(u1, l1)[|prefix|..];
      assert rest2 == CacheKey(u2, l2)[|prefix|..];
      DigitsThenUnderscore(NatToString(u1), l1, NatToString(u2), l2);
      NatToStringInjective(u1, u2);
    }
  }

  /** What a miss builds for a user with a profile. */
  function FreshFeed(lib: Library, user: User, profile: UserProfile, languages: seq<string>): FeedData {
    var f := HomeSections(lib, user.id, Some(profile)).value;
    FeedData(f.sections, MusicMap(lib, f.ids, languages, Some(SignedIn(user))))
  }

  /**
   * `HomeViewSet.list`. A stored feed that has not expired is returned as
   * is; otherwise the feed is built (failing when the user has no profile),
   * its track map added, and the pair stored for `FeedTtl` seconds. The
   * stored value is a non-empty dictionary, so any stored value counts as a
   * hit.
   */
  method ListHome(cache: HomeCache, lib: Library, user: User, profile: Option<UserProfile>,
                  languages: seq<string>, now: int)
    returns (r: Result<Reply<FeedData>, FeedError>)
    modifies cache
    ensures var key := CacheKey(user.id, FeedLanguageCode(profile));
            var hit := Lookup(old(cache.entries), key, now);
            if hit.Some? then
              r == Ok(Success(Status200, DefaultSuccessMessage, hit)) && cache.entries == old(cache.entries)
            else if profile.None? then
              r == Err(ProfileMissing) && cache.entries == old(cache.entries)
            else
              var data := FreshFeed(lib, user, profile.value, languages);
              r == Ok(Success(Status200, HomeLoadedMessage, Some(data)))
              && cache.entries == old(cache.entries)[key := Entry(data, now + FeedTtl)]
  {
    var lang := FeedLanguageCode(profile);
    var key := CacheKey(user.id, lang);
    var cached := cache.Get(key, now);
    if cached.Some? {
      return Ok(Success(Status200, DefaultSuccessMessage, cached));
    }
    var built := BuildHomeSections(lib, user.id, profile);
    if built.Err? {
      return Err(built.error);
    }
    var musicMap := MusicMap(lib, built.value.ids, languages, Some(SignedIn(user)));
    var data := FeedData(built.value.sections, musicMap);
    cache.Set(key, data, FeedTtl, now);
    r := Ok(Success(Status200, HomeLoadedMessage, Some(data)));
  }
}

/**
 * Advertisements: the ad record with its impression and click counters,
 * the active-ads query with its date window and priority order, serving by
 * placement, impression and click tracking, and the analytics listing.
 */
module Ads {

  import opened Wrappers
  import opened Accounts
  import opened Envelope
  import Ranking
  import Text

  datatype AdType = Banner | Video | Audio | Interstitial

  datatype Placement = HomeTop | HomeMiddle | Player | SearchPage | PlaylistPage

  function PlacementCode(p: Placement): string {
    match p
    case HomeTop => "HOME_TOP"
    case HomeMiddle => "HOME_MIDDLE"
    case Player => "PLAYER"
    case SearchPage => "SEARCH"
    case PlaylistPage => "PLAYLIST"
  }

  const ServeCap: nat := 5
  const PlacementRequiredMessage: string := "placement parameter is required"
  const ImpressionMessage: string := "Impression tracked"
  const ClickMessage: string := "Click tracked"
  const SessionIdMaxLength: nat := 100

  /** A click-through rate in percent, as the fraction `num / den`. */
  datatype Rate = Rate(num: nat, den: nat)

  /**
   * `Advertisement`. The fields the views filter and order on never change
   * after creation; the two counters are bumped in place.
   */
  class Advertisement {
    const id: nat
    const title: string
    const adType: AdType
    const placement: Placement
    const clickUrl: string
    const isActive: bool
    const priority: nat
    const startDate: Option<int>
    const endDate: Option<int>
    const createdAt: int
    var impressionCount: nat
    var clickCount: nat

    /** A new ad: active, no counts, the given type, placement, priority and window. */
    constructor (id: nat, title: string, adType: AdType, placement: Placement, clickUrl: string,
                 isActive: bool, priority: nat, startDate: Option<int>, endDate: Option<int>, createdAt: int)
      ensures this.id == id && this.title == title && this.adType == adType && this.placement == placement
      ensures this.clickUrl == clickUrl && this.isActive == isActive && this.priority == priority
      ensures this.startDate == startDate && this.endDate == endDate && this.createdAt == createdAt
      ensures impressionCount == 0 && clickCount == 0
    {
      this.id := id;
      this.title := title;
      this.adType := adType;
      this.placement := placement;
      this.clickUrl := clickUrl;
      this.isActive := isActive;
      this.priority := priority;
      this.startDate := startDate;
      this.endDate := endDate;
      this.createdAt := createdAt;
      impressionCount := 0;
      clickCount := 0;
    }

    /** An ad created with the model's defaults: a banner at the top of home, active, priority 0, no window. */
    constructor Default(id: nat, title: string, clickUrl: string, createdAt: int)
      ensures this.id == id && this.title == title && this.clickUrl == clickUrl && this.createdAt == createdAt
      ensures adType == Banner && placement == HomeTop && isActive && priority == 0
      ensures startDate == None && endDate == None
      ensures impressionCount == 0 && clickCount == 0
    {
      this.id := id;
      this.title := title;
      this.adType := Banner;
      this.placement := HomeTop;
      this.clickUrl := clickUrl;
      this.isActive := true;
      this.priority := 0;
      this.startDate := None;
      this.endDate := None;
      this.createdAt := createdAt;
      impressionCount := 0;
      clickCount := 0;
    }

    /** `increment_impression`. */
    method IncrementImpression()
      modifies this
      ensures impressionCount == old(impressionCount) + 1
      ensures clickCount == old(clickCount)
    {
      impressionCount := impressionCount + 1;
    }

    /** `increment_click`. */
    method IncrementClick()
      modifies this
      ensures clickCount == old(clickCount) + 1
      ensures impressionCount == old(impressionCount)
    {
      clickCount := clickCount + 1;
    }

    /**
     * `click_through_rate`: zero without impressions, otherwise one hundred
     * times the clicks over the impressions.
     */
    function ClickThroughRate(): (r: Rate)
      reads this
      ensures r.den > 0
      ensures impressionCount == 0 ==> r.num == 0
      ensures impressionCount > 0 ==> r.num * impressionCount == 100 * clickCount * r.den
    {
      if impressionCount == 0 then Rate(0, 1) else Rate(100 * clickCount, impressionCount)
    }
  }

  /** The key of `order_by('-priority', '-created_at')`. */
  function AdKey(a: Advertisement): Ranking.Rank {
    Ranking.Rank(a.priority, a.createdAt)
  }

  /** The ad's date window holds `now`; a missing bound is open. */
  predicate InWindow(a: Advertisement, now: int) {
    (a.startDate.None? || a.startDate.value <= now) && (a.endDate.None? || a.endDate.value >= now)
  }

  /** Active, in its window, and at the requested placement when one is given (an empty one is none). */
  predicate Eligible(a: Advertisement, placement: Option<string>, now: int) {
    a.isActive
    && (placement.Some? && placement.value != [] ==> PlacementCode(a.placement) == placement.value)
    && InWindow(a, now)
  }

  function EligibleFilter(placement: Option<string>, now: int): Advertisement -> bool {
    (a: Advertisement) => Eligible(a, placement, now)
  }

  /** `get_queryset`: the eligible ads, highest priority first, newest first among equals. */
  function ActiveAds(ads: seq<Advertisement>, placement: Option<string>, now: int): seq<Advertisement> {
    Ranking.SortDesc(Ranking.Filter(ads, EligibleFilter(placement, now)), AdKey)
  }

  /**
   * The query holds exactly the active ads whose window contains `now`, at
   * the placement when one is given, each once, by priority and then
   * creation time, both descending.
   */
  lemma ActiveAdsProperties(ads: seq<Advertisement>, placement: Option<string>, now: int)
    ensures var r := ActiveAds(ads, placement, now);
            (forall a :: a in r <==> a in ads && Eligible(a, placement, now))
            && Ranking.NonIncreasing(r, AdKey)
            && (forall i, j :: 0 <= i < j < |r| ==>
                  r[i].priority > r[j].priority || (r[i].priority == r[j].priority && r[i].createdAt >= r[j].createdAt))
            && (forall a :: a in r ==> a.isActive && InWindow(a, now))
  {
    var f := Ranking.Filter(ads, EligibleFilter(placement, now));
    Ranking.SortedFilterMembers(ads, EligibleFilter(placement, now), AdKey);
    Ranking.SortDescOrdered(f, AdKey);
    forall a | a in ActiveAds(ads, placement, now) ensures a.isActive && InWindow(a, now) {
      assert Eligible(a, placement, now);
    }
  }

  function AtPlacement(placement: string): Advertisement -> bool {
    (a: Advertisement) => PlacementCode(a.placement) == placement
  }

  /**
   * `by_placement`: a placement is required; the query (already narrowed to
   * that placement) is filtered by it once more and capped at five.
   */
  function ByPlacement(ads: seq<Advertisement>, placement: Option<string>, now: int)
    : (r: Result<seq<Advertisement>, string>)
    ensures r.Err? <==> placement.None? || placement.value == []
    ensures r.Err? ==> r.error == PlacementRequiredMessage
  {
    if placement.None? || placement.value == [] then Err(PlacementRequiredMessage)
    else Ok(Ranking.Cap(Ranking.Filter(ActiveAds(ads, placement, now), AtPlacement(placement.value)), ServeCap))
  }

  /**
   * The second placement filter changes nothing: a served request gives the
   * first five ads of the active query for that placement.
   */
  lemma ByPlacementServesTopFive(ads: seq<Advertisement>, placement: string, now: int)
    requires placement != []
    ensures var r := ByPlacement(ads, Some(placement), now).value;
            r == Ranking.Cap(ActiveAds(ads, Some(placement), now), ServeCap)
            && |r| <= ServeCap
            && (forall a :: a in r ==> a in ads && a.isActive && InWindow(a, now) && PlacementCode(a.placement) == placement)
  {
    var active := ActiveAds(ads, Some(placement), now);
    assert Ranking.Filter(active, AtPlacement(placement)) == active by {
      ActiveAdsProperties(ads, Some(placement), now);
      assert forall i :: 0 <= i < |active| ==> AtPlacement(placement)(active[i]) by {
        forall i | 0 <= i < |active| ensures AtPlacement(placement)(active[i]) {
          assert active[i] in active;
          assert Eligible(active[i], Some(placement), now);
        }
      }
      Ranking.FilterAll(active, AtPlacement(placement));
    }
    var r := Ranking.Cap(active, ServeCap);
    assert forall a :: a in r ==> a in active by {
      forall a | a in r ensures a in active {
        var i :| 0 <= i < |r| && r[i] == a;
        assert active[i] == a;
      }
    }
    ActiveAdsProperties(ads, Some(placement), now);
  }

  /** An impression or click row; the user is `None` for an anonymous visitor. */
  datatype AdEvent = AdEvent(user: Option<nat>, ad: nat, sessionId: string, createdAt: int)

  /** `request.user if request.user.is_authenticated else None`. */
  function EventUser(req: Requester): (u: Option<nat>)
    ensures u.Some? <==> req.SignedIn?
    ensures req.SignedIn? ==> u == Some(req.user.id)
  {
    if req.SignedIn? then Some(req.user.id) else None
  }

  /**
   * `session_id` as a `CharField(max_length=100)` cleans it: the value is
   * stripped of surrounding whitespace; a missing value, a blank one, one
   * longer than 100 characters once stripped, or one holding a NUL character
   * is refused; otherwise the stripped value is kept.
   */
  function CleanSessionId(s: Option<string>): Option<string> {
    if s.None? then None
    else
      var v := Text.Strip(s.value);
      if v == [] || |v| > SessionIdMaxLength || '\0' in v then None else Some(v)
  }

  /**
   * A session id is accepted iff its stripped value is non-blank, at most 100
   * characters and free of NUL; what is kept is such a value, no longer than
   * the one sent, with no whitespace at either end.
   */
  lemma CleanSessionIdProperties(s: Option<string>)
    ensures CleanSessionId(s).Some? <==>
              s.Some? && Text.Strip(s.value) != [] && |Text.Strip(s.value)| <= SessionIdMaxLength
              && '\0' !in Text.Strip(s.value)
    ensures CleanSessionId(s).Some? ==>
              var v := CleanSessionId(s).value;
              0 < |v| <= SessionIdMaxLength && |v| <= |s.value| && '\0' !in v
              && !Text.IsSpace(v[0]) && !Text.IsSpace(v[|v| - 1])
  {
  }

  /** A value that is already clean is kept unchanged. */
  lemma CleanSessionIdKeepsClean(v: string)
    requires 0 < |v| <= SessionIdMaxLength && '\0' !in v
    requires !Text.IsSpace(v[0]) && !Text.IsSpace(v[|v| - 1])
    ensures CleanSessionId(Some(v)) == Some(v)
  {
    Text.StripIdempotent(v);
  }

  /** A cleaned session id passes the field again unchanged. */
  lemma CleanSessionIdStable(s: Option<string>)
    requires CleanSessionId(s).Some?
    ensures CleanSessionId(CleanSessionId(s)) == CleanSessionId(s)
  {
    CleanSessionIdProperties(s);
    CleanSessionIdKeepsClean(CleanSessionId(s).value);
  }

  /** Why tracking is refused: no such eligible ad (404), or a missing `ad_id` or an invalid `session_id` (400). */
  datatype TrackError = AdNotFound | InvalidTrackData

  function AdWithId(pk: nat): Advertisement -> bool {
    (a: Advertisement) => a.id == pk
  }

  /** The ad and event tables. */
  class AdStore {
    var ads: seq<Advertisement>
    var impressions: seq<AdEvent>
    var clicks: seq<AdEvent>

    ghost predicate Valid()
      reads this
    {
      forall i, j :: 0 <= i < j < |ads| ==> ads[i].id != ads[j].id
    }

    constructor ()
      ensures Valid() && ads == [] && impressions == [] && clicks == []
    {
      ads := [];
      impressions := [];
      clicks := [];
    }

    /** `get_object`: the ad with the given id among those the query serves. */
    function Lookup(pk: nat, placement: Option<string>, now: int): (r: Option<Advertisement>)
      reads this
      ensures r.Some? ==> r.value in ads && r.value.id == pk && Eligible(r.value, placement, now)
      ensures r.None? ==> forall a :: a in ads && a.id == pk ==> !Eligible(a, placement, now)
    {
      var active := ActiveAds(ads, placement, now);
      ActiveAdsProperties(ads, placement, now);
      match Ranking.IndexWhere(active, AdWithId(pk))
      case Some(k) => assert active[k] in active; Some(active[k])
      case None =>
        assert forall a :: a in active ==> a.id != pk;
        None
    }

    /** The found-ad branch of `track_impression`: the data is checked, then one impression is recorded on `ad`. */
    method ImpressAd(ad: Advertisement, req: Requester, adId: Option<int>, sessionId: Option<string>, now: int)
      returns (r: Result<Reply<string>, TrackError>)
      requires Valid()
      modifies this, ad
      ensures Valid() && ads == old(ads) && clicks == old(clicks)
      ensures r.Ok? <==> adId.Some? && CleanSessionId(sessionId).Some?
      ensures r.Err? ==> r == Err(InvalidTrackData) && impressions == old(impressions)
                         && ad.impressionCount == old(ad.impressionCount) && ad.clickCount == old(ad.clickCount)
      ensures r.Ok? ==> r.value == Success(Status200, ImpressionMessage, None)
                        && impressions == old(impressions) + [AdEvent(EventUser(req), ad.id, CleanSessionId(sessionId).value, now)]
                        && ad.impressionCount == old(ad.impressionCount) + 1 && ad.clickCount == old(ad.clickCount)
    {
      var session := CleanSessionId(sessionId);
      if adId.None? || session.None? {
        return Err(InvalidTrackData);
      }
      impressions := impressions + [AdEvent(EventUser(req), ad.id, session.value, now)];
      ad.IncrementImpression();
      r := Ok(Success(Status200, ImpressionMessage, None));
    }

    /** The found-ad branch of `track_click`: the data is checked, then one click is recorded on `ad`. */
    method ClickAd(ad: Advertisement, req: Requester, adId: Option<int>, sessionId: Option<string>, now: int)
      returns (r: Result<Reply<string>, TrackError>)
      requires Valid()
      modifies this, ad
      ensures Valid() && ads == old(ads) && impressions == old(impressions)
      ensures r.Ok? <==> adId.Some? && CleanSessionId(sessionId).Some?
      ensures r.Err? ==> r == Err(InvalidTrackData) && clicks == old(clicks)
                         && ad.impressionCount == old(ad.impressionCount) && ad.clickCount == old(ad.clickCount)
      ensures r.Ok? ==> r.value == Success(Status200, ClickMessage, Some(ad.clickUrl))
                        && DataOf(r.value) == Some(ad.clickUrl)
                        && clicks == old(clicks) + [AdEvent(EventUser(req), ad.id, CleanSessionId(sessionId).value, now)]
                        && ad.clickCount == old(ad.clickCount) + 1 && ad.impressionCount == old(ad.impressionCount)
    {
      var session := CleanSessionId(sessionId);
      if adId.None? || session.None? {
        return Err(InvalidTrackData);
      }
      clicks := clicks + [AdEvent(EventUser(req), ad.id, session.value, now)];
      ad.IncrementClick();
      SuccessRoundTrip(ClickMessage, Some(ad.clickUrl));
      r := Ok(Success(Status200, ClickMessage, Some(ad.clickUrl)));
    }

    /**
     * `track_impression`: the ad must be served by the query and the data
     * must carry `ad_id` and a valid `session_id`; then one impression
     * row is recorded and the ad's impression count goes up by one.
     */
    method TrackImpression(pk: nat, placement: Option<string>, req: Requester, adId: Option<int>,
                           sessionId: Option<string>, now: int) returns (r: Result<Reply<string>, TrackError>)
      requires Valid()
      modifies this, ads
      ensures Valid() && ads == old(ads) && clicks == old(clicks)
      ensures old(Lookup(pk, placement, now)).None? ==> r == Err(AdNotFound) && impressions == old(impressions)
      ensures old(Lookup(pk, placement, now)).Some? && (adId.None? || CleanSessionId(sessionId).None?) ==>
                r == Err(InvalidTrackData) && impressions == old(impressions)
      ensures r.Ok? ==>
                var ad := old(Lookup(pk, placement, now)).value;
                r.value == Success(Status200, ImpressionMessage, None)
                && impressions == old(impressions) + [AdEvent(EventUser(req), ad.id, CleanSessionId(sessionId).value, now)]
                && ad.impressionCount == old(ad.impressionCount) + 1
                && ad.clickCount == old(ad.clickCount)
      ensures forall a :: a in ads && (r.Err? || a.id != pk) ==>
                a.impressionCount == old(a.impressionCount) && a.clickCount == old(a.clickCount)
      ensures (old(Lookup(pk, placement, now)).Some? && adId.Some? && CleanSessionId(sessionId).Some?) <==> r.Ok?
    {
      var found := Lookup(pk, placement, now);
      if found.None? {
        return Err(AdNotFound);
      }
      r := ImpressAd(found.value, req, adId, sessionId, now);
    }

    /**
     * `track_click`: as for impressions, with a click row and the click
     * count; the reply carries the ad's click URL as `redirect_url`.
     */
    method TrackClick(pk: nat, placement: Option<string>, req: Requester, adId: Option<int>,
                      sessionId: Option<string>, now: int) returns (r: Result<Reply<string>, TrackError>)
      requires Valid()
      modifies this, ads
      ensures Valid() && ads == old(ads) && impressions == old(impressions)
      ensures old(Lookup(pk, placement, now)).None? ==> r == Err(AdNotFound) && clicks == old(clicks)
      ensures old(Lookup(pk, placement, now)).Some? && (adId.None? || CleanSessionId(sessionId).None?) ==>
                r == Err(InvalidTrackData) && clicks == old(clicks)
      ensures r.Ok? ==>
                var ad := old(Lookup(pk, placement, now)).value;
                r.value == Success(Status200, ClickMessage, Some(ad.clickUrl))
                && DataOf(r.value) == Some(ad.clickUrl)
                && clicks == old(clicks) + [AdEvent(EventUser(req), ad.id, CleanSessionId(sessionId).value, now)]
                && ad.clickCount == old(ad.clickCount) + 1
                && ad.impressionCount == old(ad.impressionCount)
      ensures forall a :: a in ads && (r.Err? || a.id != pk) ==>
                a.impressionCount == old(a.impressionCount) && a.clickCount == old(a.clickCount)
      ensures (old(Lookup(pk, placement, now)).Some? && adId.Some? && CleanSessionId(sessionId).Some?) <==> r.Ok?
    {
      var found := Lookup(pk, placement, now);
      if found.None? {
        return Err(AdNotFound);
      }
      var ad := found.value;
      r := ClickAd(ad, req, adId, sessionId, now);
      assert r.Ok? ==> DataOf(r.value) == Some(ad.clickUrl);
    }

    /**
     * `analytics`: one row per ad, in the table's default order (priority,
     * then creation time, both descending), with its current counters and
     * click-through rate.
     */
    method Analytics() returns (rows: seq<AdRow>)
      ensures var ordered := Ranking.SortDesc(ads, AdKey);
              |rows| == |ordered|
              && forall i :: 0 <= i < |rows| ==> rows[i] == RowOf(ordered[i])
      ensures |rows| == |ads|
      ensures forall a :: a in ads ==> RowOf(a) in rows
    {
      var ordered := Ranking.SortDesc(ads, AdKey);
      rows := [];
      var i := 0;
      while i < |ordered|
        invariant 0 <= i <= |ordered|
        invariant |rows| == i
        invariant forall k :: 0 <= k < i ==> rows[k] == RowOf(ordered[k])
      {
        rows := rows + [RowOf(ordered[i])];
        i := i + 1;
      }
      Ranking.SortDescMembers(ads, AdKey);
      forall a | a in ads ensures RowOf(a) in rows {
        assert a in ordered;
        var k :| 0 <= k < |ordered| && ordered[k] == a;
        assert rows[k] == RowOf(a);
      }
    }
  }

  /** One analytics entry. */
  datatype AdRow = AdRow(id: nat, title: string, adType: AdType, placement: Placement,
                         impressions: nat, clicks: nat, ctr: Rate, isActive: bool)

  function RowOf(a: Advertisement): AdRow
    reads a
  {
    AdRow(a.id, a.title, a.adType, a.placement, a.impressionCount, a.clickCount, a.ClickThroughRate(), a.isActive)
  }
}

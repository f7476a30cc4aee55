/**
 * `MusicViewSet`: the catalogue listing with its query-parameter filters,
 * upload, streaming with its counters, and the trending, discover and
 * search actions.
 */
module MusicViews {

  import opened Wrappers
  import opened Text
  import opened Catalog
  import opened Accounts
  import opened Envelope
  import MusicSerializers
  import Ranking

  const TrendingCap: nat := 20
  const DiscoverCap: nat := 50
  const StreamMessage: string := "Music streaming started"
  const CreatedMessage: string := "Created successfully"
  const TagRequiredMessage: string := "Tag parameter is required"
  const TagNotFoundMessage: string := "Tag not found"
  const QueryRequiredMessage: string := "Search query is required"

  // ----- Listing filters -----

  /**
   * The listing's query parameters, `None` when absent or empty (both are
   * falsy, so neither filters); the id parameters are taken as numbers.
   */
  datatype MusicParams = MusicParams(
    language: Option<string>,
    tags: Option<string>,
    artistId: Option<nat>,
    albumId: Option<nat>)

  /** `[t.strip() for t in tags.split(',')]`. */
  function TagNames(tags: string): (r: seq<string>)
    ensures |r| == |Split(tags, ',')|
    ensures forall i :: 0 <= i < |r| ==> r[i] == Strip(Split(tags, ',')[i])
  {
    var pieces := Split(tags, ',');
    seq(|pieces|, i requires 0 <= i < |pieces| => Strip(pieces[i]))
  }

  /** Comma-joined names that carry no comma and no outer whitespace are read back one by one. */
  lemma TagNamesOfJoin(names: seq<string>)
    requires |names| >= 1
    requires forall k :: 0 <= k < |names| ==> ',' !in names[k] && Strip(names[k]) == names[k]
    ensures TagNames(Join(names, ',')) == names
  {
    SplitJoin(names, ',');
  }

  /** `tags__name__in=names`: some tag of the track has one of the names. */
  predicate TaggedWithName(lib: Library, t: Track, names: seq<string>) {
    exists g :: g in lib.tags && g.id in t.tags && g.name in names
  }

  predicate LanguageMatches(t: Track, language: Option<string>) {
    language.Some? ==> LanguageCode(t.language) == language.value
  }

  predicate TagsMatch(lib: Library, t: Track, tags: Option<string>) {
    tags.Some? ==> TaggedWithName(lib, t, TagNames(tags.value))
  }

  /** Every filter whose parameter is given holds of the track. */
  predicate MatchesParams(lib: Library, t: Track, params: MusicParams) {
    LanguageMatches(t, params.language)
    && TagsMatch(lib, t, params.tags)
    && (params.artistId.Some? ==> params.artistId.value in t.artists)
    && (params.albumId.Some? ==> t.album == params.albumId)
  }

  function ParamsFilter(lib: Library, params: MusicParams): Track -> bool {
    (t: Track) => MatchesParams(lib, t, params)
  }

  /** `get_queryset`: the filtered catalogue, each track once, newest first. */
  function MusicQueryset(lib: Library, params: MusicParams): seq<Track> {
    Ranking.SortDesc(Ranking.Filter(lib.tracks, ParamsFilter(lib, params)), CreatedAtKey)
  }

  /**
   * A track is listed iff it passes every filter whose parameter is given;
   * without parameters the whole catalogue is listed. The listing is newest
   * first and never repeats a catalogue row.
   */
  lemma MusicQuerysetProperties(lib: Library, params: MusicParams)
    ensures var r := MusicQueryset(lib, params);
            (forall t :: t in r <==> t in lib.tracks && MatchesParams(lib, t, params))
            && Ranking.NonIncreasing(r, CreatedAtKey)
  {
    var f := Ranking.Filter(lib.tracks, ParamsFilter(lib, params));
    Ranking.SortedFilterMembers(lib.tracks, ParamsFilter(lib, params), CreatedAtKey);
    Ranking.SortDescOrdered(f, CreatedAtKey);
  }

  /** The listing never repeats a catalogue row, and without parameters it holds the whole catalogue. */
  lemma MusicQuerysetRows(lib: Library, params: MusicParams)
    ensures var r := MusicQueryset(lib, params);
            (UniqueTrackIds(lib.tracks) ==> UniqueTrackIds(r))
            && (params == MusicParams(None, None, None, None) ==> multiset(r) == multiset(lib.tracks))
  {
    var f := Ranking.Filter(lib.tracks, ParamsFilter(lib, params));
    if UniqueTrackIds(lib.tracks) {
      assert Ranking.DistinctBy(lib.tracks, TrackId);
      Ranking.FilterKeepsDistinct(lib.tracks, ParamsFilter(lib, params), TrackId);
      Ranking.SortDescKeepsDistinct(f, CreatedAtKey, TrackId);
    }
    if params == MusicParams(None, None, None, None) {
      Ranking.FilterAll(lib.tracks, ParamsFilter(lib, params));
    }
  }

  function ListedAt(lib: Library, params: MusicParams, pk: nat): Track -> bool {
    (t: Track) => t.id == pk && MatchesParams(lib, t, params)
  }

  /**
   * `get_object` for a detail action: the track with the key among those
   * that pass the query-parameter filters, so the parameters can hide it.
   */
  function FindListed(lib: Library, params: MusicParams, pk: nat): Option<Track> {
    match Ranking.IndexWhere(lib.tracks, ListedAt(lib, params, pk))
    case Some(k) => Some(lib.tracks[k])
    case None => None
  }

  /** A found track is a catalogue row with the key that passes every filter; none is found iff no such row exists. */
  lemma FindListedProperties(lib: Library, params: MusicParams, pk: nat)
    ensures var r := FindListed(lib, params, pk);
            (r.Some? ==> r.value in lib.tracks && r.value.id == pk && MatchesParams(lib, r.value, params))
            && (r.None? <==> forall t :: t in lib.tracks && t.id == pk ==> !MatchesParams(lib, t, params))
  {
    if FindListed(lib, params, pk).None? {
      assert forall t :: t in lib.tracks ==> !ListedAt(lib, params, pk)(t);
    }
  }

  /** The detail lookup finds a track exactly when the listing holds one with the key, and then a listed one. */
  lemma FindListedInQueryset(lib: Library, params: MusicParams, pk: nat)
    ensures FindListed(lib, params, pk).Some? ==> FindListed(lib, params, pk).value in MusicQueryset(lib, params)
    ensures FindListed(lib, params, pk).None? <==> forall t :: t in MusicQueryset(lib, params) ==> t.id != pk
  {
    FindListedProperties(lib, params, pk);
    MusicQuerysetProperties(lib, params);
  }

  // ----- Trending and discover -----

  /** `trending`: the 20 most played tracks. */
  function Trending(tracks: seq<Track>): seq<Track> {
    Ranking.TopBy(tracks, PlayCountKey, TrendingCap)
  }

  /** At most 20 catalogue tracks, most played first, none left out played more than one listed. */
  lemma TrendingProperties(tracks: seq<Track>)
    ensures var r := Trending(tracks);
            |r| == (if |tracks| <= TrendingCap then |tracks| else TrendingCap)
            && Ranking.NonIncreasing(r, PlayCountKey)
            && (forall t :: t in r ==> t in tracks)
            && (forall t, u :: t in tracks && t !in r && u in r ==> u.playCount >= t.playCount)
  {
    var r := Trending(tracks);
    Ranking.TopByProperties(tracks, PlayCountKey, TrendingCap);
    forall t, u | t in tracks && t !in r && u in r ensures u.playCount >= t.playCount {
      assert Ranking.AtLeast(PlayCountKey(u), PlayCountKey(t));
    }
  }

  datatype DiscoverError = TagRequired | TagNotFound | MultipleTags

  /** The replies to a refused discover request; several tags matching is an unhandled server error. */
  function DiscoverErrorReply<T>(e: DiscoverError): (r: Reply<T>)
    ensures !Succeeded(r)
    ensures r.status == (if e.TagRequired? then Status400 else if e.TagNotFound? then Status404 else Status500)
  {
    match e
    case TagRequired => Failure(Status400, TagRequiredMessage)
    case TagNotFound => Failure(Status404, TagNotFoundMessage)
    case MultipleTags => Failure(Status500, DefaultErrorMessage)
  }

  function NameMatches(name: string): Tag -> bool {
    (g: Tag) => EqualsIgnoreCase(g.name, name)
  }

  function CarriesTag(id: nat): Track -> bool {
    (t: Track) => id in t.tags
  }

  /** The tags `name__iexact` finds. */
  function MatchingTags(lib: Library, name: string): (r: seq<Tag>)
    ensures forall g :: g in r <==> g in lib.tags && EqualsIgnoreCase(g.name, name)
  {
    Ranking.FilterMembers(lib.tags, NameMatches(name));
    Ranking.Filter(lib.tags, NameMatches(name))
  }

  /** `Music.objects.filter(tags=tag).order_by('-play_count')[:50]`. */
  function TaggedTop(lib: Library, id: nat): seq<Track> {
    Ranking.TopBy(Ranking.Filter(lib.tracks, CarriesTag(id)), PlayCountKey, DiscoverCap)
  }

  /**
   * `discover`: the tag parameter is required; `Tag.objects.get(name__iexact=...)`
   * must find exactly one tag; then the 50 most played tracks carrying it.
   */
  function Discover(lib: Library, tag: Option<string>): (r: Result<seq<Track>, DiscoverError>)
    ensures r == Err(TagRequired) <==> tag.None? || tag.value == []
    ensures r == Err(TagNotFound) <==>
              tag.Some? && tag.value != [] && forall g :: g in lib.tags ==> !EqualsIgnoreCase(g.name, tag.value)
    ensures r == Err(MultipleTags) <==> tag.Some? && tag.value != [] && |MatchingTags(lib, tag.value)| > 1
    ensures r.Ok? <==> tag.Some? && tag.value != [] && |MatchingTags(lib, tag.value)| == 1
    ensures r.Ok? ==> exists g :: g in lib.tags && EqualsIgnoreCase(g.name, tag.value) && r.value == TaggedTop(lib, g.id)
    ensures r.Ok? ==> forall g :: g in lib.tags && EqualsIgnoreCase(g.name, tag.value) ==> r.value == TaggedTop(lib, g.id)
  {
    if tag.None? || tag.value == [] then Err(TagRequired)
    else
      var matches := MatchingTags(lib, tag.value);
      if |matches| == 0 then Err(TagNotFound)
      else
        assert matches[0] in matches;
        if |matches| > 1 then Err(MultipleTags)
        else
          assert forall g :: g in matches ==> g == matches[0];
          Ok(TaggedTop(lib, matches[0].id))
  }

  /** At most 50 tracks carrying the tag, most played first, none left out played more than one listed. */
  lemma TaggedTopProperties(lib: Library, id: nat)
    ensures var r := TaggedTop(lib, id);
            |r| <= DiscoverCap
            && Ranking.NonIncreasing(r, PlayCountKey)
            && (forall t :: t in r ==> t in lib.tracks && id in t.tags)
            && (forall t, u :: t in lib.tracks && id in t.tags && t !in r && u in r ==> u.playCount >= t.playCount)
  {
    var r := TaggedTop(lib, id);
    assert |r| <= DiscoverCap && Ranking.NonIncreasing(r, PlayCountKey) by {
      Ranking.TopByProperties(Ranking.Filter(lib.tracks, CarriesTag(id)), PlayCountKey, DiscoverCap);
    }
    assert forall t :: t in r ==> t in lib.tracks && id in t.tags by {
      Ranking.TopOfFilterMembers(lib.tracks, CarriesTag(id), PlayCountKey, DiscoverCap);
    }
    forall t, u | t in lib.tracks && id in t.tags && t !in r && u in r ensures u.playCount >= t.playCount {
      Ranking.TopOfFilterMaximal(lib.tracks, CarriesTag(id), PlayCountKey, DiscoverCap);
      assert Ranking.AtLeast(PlayCountKey(u), PlayCountKey(t));
    }
  }

  /** Only a name matching exactly one tag is served, and several matches fail. */
  lemma DiscoverNeedsOneTag(lib: Library, tag: string, g1: Tag, g2: Tag)
    requires g1 in lib.tags && g2 in lib.tags && g1 != g2
    requires EqualsIgnoreCase(g1.name, tag) && EqualsIgnoreCase(g2.name, tag)
    requires tag != []
    ensures Discover(lib, Some(tag)) == Err(MultipleTags)
  {
    var matches := MatchingTags(lib, tag);
    assert g1 in matches && g2 in matches;
    var i :| 0 <= i < |matches| && matches[i] == g1;
    var j :| 0 <= j < |matches| && matches[j] == g2;
    assert i != j;
  }

  // ----- Search -----

  /** `title__icontains | artist__name__icontains | album__title__icontains`. */
  predicate SearchHit(lib: Library, t: Track, q: string) {
    ContainsIgnoreCase(t.title, q)
    || (exists a :: a in lib.artists && a.id in t.artists && ContainsIgnoreCase(a.name, q))
    || (exists al :: al in lib.albums && t.album == Some(al.id) && ContainsIgnoreCase(al.title, q))
  }

  predicate Found(lib: Library, t: Track, q: string, language: Option<string>, tags: Option<string>) {
    SearchHit(lib, t, q) && LanguageMatches(t, language) && TagsMatch(lib, t, tags)
  }

  function FoundFilter(lib: Library, q: string, language: Option<string>, tags: Option<string>): Track -> bool {
    (t: Track) => Found(lib, t, q, language, tags)
  }

  /**
   * `search`: an empty query is refused; otherwise the distinct hits, then
   * narrowed by the language and tags parameters, newest first.
   */
  function Search(lib: Library, q: string, language: Option<string>, tags: Option<string>)
    : (r: Result<seq<Track>, string>)
    ensures r.Err? <==> q == []
    ensures r.Err? ==> r.error == QueryRequiredMessage
  {
    if q == [] then Err(QueryRequiredMessage)
    else Ok(Ranking.SortDesc(Ranking.Filter(lib.tracks, FoundFilter(lib, q, language, tags)), CreatedAtKey))
  }

  /** Every track equals itself ignoring case, so it contains its own title. */
  lemma ContainsItself(s: string)
    ensures ContainsIgnoreCase(s, s)
  {
    assert OccursAt(Lower(s), Lower(s), 0) by {
      assert Lower(s)[0..|Lower(s)|] == Lower(s);
    }
  }

  /**
   * A search lists exactly the tracks matching the query in title, an
   * artist's name or the album title (and the extra filters), each
   * catalogue row once, newest first.
   */
  lemma SearchProperties(lib: Library, q: string, language: Option<string>, tags: Option<string>)
    requires q != []
    ensures var r := Search(lib, q, language, tags).value;
            (forall t :: t in r <==> t in lib.tracks && Found(lib, t, q, language, tags))
            && Ranking.NonIncreasing(r, CreatedAtKey)
            && (UniqueTrackIds(lib.tracks) ==> UniqueTrackIds(r))
  {
    var p := FoundFilter(lib, q, language, tags);
    var f := Ranking.Filter(lib.tracks, p);
    Ranking.SortedFilterMembers(lib.tracks, p, CreatedAtKey);
    Ranking.SortDescOrdered(f, CreatedAtKey);
    if UniqueTrackIds(lib.tracks) {
      assert Ranking.DistinctBy(lib.tracks, TrackId);
      Ranking.FilterKeepsDistinct(lib.tracks, p, TrackId);
      Ranking.SortDescKeepsDistinct(f, CreatedAtKey, TrackId);
    }
  }

  /** A track is always found by its own full title. */
  lemma SearchFindsTitle(lib: Library, t: Track)
    requires t in lib.tracks && t.title != []
    ensures t in Search(lib, t.title, None, None).value
  {
    Ranking.SortedFilterMembers(lib.tracks, FoundFilter(lib, t.title, None, None), CreatedAtKey);
    ContainsItself(t.title);
    assert Found(lib, t, t.title, None, None);
  }

  // ----- Broadcaster counters -----

  datatype Counter = Uploads | Plays

  function CounterValue(b: BroadcasterProfile, c: Counter): nat {
    match c
    case Uploads => b.totalUploads
    case Plays => b.totalPlays
  }

  function Bumped(b: BroadcasterProfile, c: Counter): BroadcasterProfile {
    match c
    case Uploads => b.(totalUploads := b.totalUploads + 1)
    case Plays => b.(totalPlays := b.totalPlays + 1)
  }

  /** `total_uploads += 1` or `total_plays += 1` on the given user's profile, if they have one. */
  function BumpCounter(bs: seq<BroadcasterProfile>, userId: nat, c: Counter): (r: seq<BroadcasterProfile>)
    ensures |r| == |bs|
    ensures forall i :: 0 <= i < |bs| ==> r[i] == if bs[i].userId == userId then Bumped(bs[i], c) else bs[i]
  {
    seq(|bs|, i requires 0 <= i < |bs| => if bs[i].userId == userId then Bumped(bs[i], c) else bs[i])
  }

  /** Bumps the counter on the user's broadcaster profile in place; identifiers and owners stay as they were. */
  method Credit(accounts: AccountDb, userId: nat, c: Counter)
    requires accounts.Valid()
    modifies accounts
    ensures accounts.Valid()
    ensures accounts.broadcasters == BumpCounter(old(accounts.broadcasters), userId, c)
    ensures accounts.users == old(accounts.users)
    ensures accounts.nextUserId == old(accounts.nextUserId) && accounts.nextBroadcasterId == old(accounts.nextBroadcasterId)
  {
    accounts.broadcasters := BumpCounter(accounts.broadcasters, userId, c);
  }

  /** The counter summed over all profiles. */
  function Total(bs: seq<BroadcasterProfile>, c: Counter): nat {
    if bs == [] then 0 else CounterValue(bs[0], c) + Total(bs[1..], c)
  }

  predicate OneProfilePerUser(bs: seq<BroadcasterProfile>) {
    forall i, j :: 0 <= i < j < |bs| ==> bs[i].userId != bs[j].userId
  }

  /** The user's profile, if any, is the head or lies in the tail. */
  lemma BroadcasterOfTail(bs: seq<BroadcasterProfile>, userId: nat)
    requires bs != []
    ensures bs[0].userId != userId ==> (BroadcasterOf(bs, userId).Some? <==> BroadcasterOf(bs[1..], userId).Some?)
    ensures OneProfilePerUser(bs) && bs[0].userId == userId ==> BroadcasterOf(bs[1..], userId).None?
  {
    if BroadcasterOf(bs, userId).Some? && bs[0].userId != userId {
      var k :| 0 <= k < |bs| && bs[k] == BroadcasterOf(bs, userId).value;
      assert bs[1..][k - 1] == bs[k];
    }
    if BroadcasterOf(bs[1..], userId).Some? {
      var k :| 0 <= k < |bs[1..]| && bs[1..][k] == BroadcasterOf(bs[1..], userId).value;
      assert bs[k + 1].userId == userId;
    }
  }

  /**
   * With one profile per user, bumping moves the total by exactly one when
   * the user has a profile and not at all otherwise; the other counter is
   * untouched.
   */
  lemma {:induction false} BumpCounterTotal(bs: seq<BroadcasterProfile>, userId: nat, c: Counter, other: Counter)
    requires OneProfilePerUser(bs)
    requires other != c
    ensures Total(BumpCounter(bs, userId, c), c) == Total(bs, c) + (if BroadcasterOf(bs, userId).Some? then 1 else 0)
    ensures Total(BumpCounter(bs, userId, c), other) == Total(bs, other)
  {
    if bs != [] {
      var r := BumpCounter(bs, userId, c);
      assert OneProfilePerUser(bs[1..]);
      BumpCounterTotal(bs[1..], userId, c, other);
      assert r[1..] == BumpCounter(bs[1..], userId, c);
      BroadcasterOfTail(bs, userId);
      assert Total(r, c) == CounterValue(r[0], c) + Total(r[1..], c);
      assert Total(r, other) == CounterValue(r[0], other) + Total(r[1..], other);
    }
  }

  /** The user whose broadcaster counter a stream bumps: the uploader, for a signed-in listener. */
  function PlayCredit(t: Track, req: Requester): Option<nat> {
    if req.SignedIn? then t.uploadedBy else None
  }

  /** The found-track branch of `stream`, on the row at `i`. */
  method PlayAt(db: MusicDb, accounts: AccountDb, i: nat, req: Requester, now: int) returns (played: Track)
    requires db.Valid() && accounts.Valid() && i < |db.tracks|
    modifies db, accounts
    ensures db.Valid() && accounts.Valid()
    ensures var t := old(db.tracks)[i];
            played == t.(playCount := t.playCount + 1)
            && db.tracks == old(db.tracks)[i := played]
            && db.plays == (if req.SignedIn? then UpsertPlay(old(db.plays), req.user.id, t.id, now, old(db.nextPlayId))
                            else old(db.plays))
            && accounts.broadcasters == (match PlayCredit(t, req)
                                         case None => old(accounts.broadcasters)
                                         case Some(u) => BumpCounter(old(accounts.broadcasters), u, Plays))
    ensures db.favorites == old(db.favorites) && db.playlists == old(db.playlists)
    ensures db.artists == old(db.artists) && db.albums == old(db.albums) && db.tags == old(db.tags)
    ensures accounts.users == old(accounts.users)
  {
    var t := db.tracks[i];
    played := t.(playCount := t.playCount + 1);
    db.IncrementPlayCount(i);
    if req.SignedIn? {
      db.RecordPlay(req.user.id, t.id, now);
      if t.uploadedBy.Some? {
        Credit(accounts, t.uploadedBy.value, Plays);
      }
    }
  }

  /**
   * `stream`: one more play on the track; for a signed-in listener the
   * recently-played row for the pair is upserted and the uploader's
   * broadcaster profile, if any, gets one more play. A track that is
   * unknown, or that the query parameters filter out, is a 404.
   */
  method Stream(db: MusicDb, accounts: AccountDb, params: MusicParams, pk: nat, req: Requester, now: int)
    returns (r: Reply<Track>)
    requires db.Valid() && accounts.Valid()
    modifies db, accounts
    ensures db.Valid() && accounts.Valid()
    ensures FindListed(old(db.Snapshot()), params, pk).None? ==>
              r.status == Status404 && !Succeeded(r)
              && db.tracks == old(db.tracks) && db.plays == old(db.plays)
              && accounts.broadcasters == old(accounts.broadcasters)
    ensures FindListed(old(db.Snapshot()), params, pk).Some? ==>
              var t := FindListed(old(db.Snapshot()), params, pk).value;
              var played := t.(playCount := t.playCount + 1);
              r == Success(Status200, StreamMessage, Some(played))
              && (exists i :: 0 <= i < |old(db.tracks)| && old(db.tracks)[i] == t && db.tracks == old(db.tracks)[i := played])
              && db.plays == (if req.SignedIn? then UpsertPlay(old(db.plays), req.user.id, pk, now, old(db.nextPlayId))
                              else old(db.plays))
              && accounts.broadcasters == (match PlayCredit(t, req)
                                           case None => old(accounts.broadcasters)
                                           case Some(u) => BumpCounter(old(accounts.broadcasters), u, Plays))
    ensures db.favorites == old(db.favorites) && db.playlists == old(db.playlists)
    ensures db.artists == old(db.artists) && db.albums == old(db.albums) && db.tags == old(db.tags)
    ensures accounts.users == old(accounts.users)
  {
    ghost var lib := db.Snapshot();
    var found := Ranking.IndexWhere(db.tracks, ListedAt(db.Snapshot(), params, pk));
    if found.None? {
      assert FindListed(lib, params, pk).None?;
      r := Failure(Status404, DefaultErrorMessage);
      return;
    }
    var i := found.value;
    ghost var t := db.tracks[i];
    assert FindListed(lib, params, pk) == Some(t);
    var played := PlayAt(db, accounts, i, req, now);
    assert old(db.tracks)[i] == t && db.tracks == old(db.tracks)[i := played];
    r := Success(Status200, StreamMessage, Some(played));
  }

  /**
   * `create`: the upload is validated (either an audio file or an audio URL),
   * stored as a new track owned by the requester with the model's defaults,
   * and the requester's broadcaster profile, if any, gets one more upload.
   */
  method Create(db: MusicDb, accounts: AccountDb, user: User, data: MusicSerializers.UploadData, now: int)
    returns (r: Reply<Track>)
    requires db.Valid() && accounts.Valid()
    modifies db, accounts
    ensures db.Valid() && accounts.Valid()
    ensures MusicSerializers.ValidateUpload(data).Err? ==>
              r == Failure(Status400, MusicSerializers.AudioMessage)
              && db.tracks == old(db.tracks) && accounts.broadcasters == old(accounts.broadcasters)
    ensures MusicSerializers.ValidateUpload(data).Ok? ==>
              var t := NewTrack(old(db.nextTrackId), data.upload, user.id, now);
              r == Success(Status201, CreatedMessage, Some(t))
              && db.tracks == old(db.tracks) + [t]
              && accounts.broadcasters == BumpCounter(old(accounts.broadcasters), user.id, Uploads)
    ensures db.plays == old(db.plays) && db.favorites == old(db.favorites) && db.playlists == old(db.playlists)
    ensures db.artists == old(db.artists) && db.albums == old(db.albums) && db.tags == old(db.tags)
    ensures accounts.users == old(accounts.users)
  {
    if MusicSerializers.ValidateUpload(data).Err? {
      r := Failure(Status400, MusicSerializers.AudioMessage);
      return;
    }
    var t := NewTrack(db.nextTrackId, data.upload, user.id, now);
    db.tracks := db.tracks + [t];
    db.nextTrackId := db.nextTrackId + 1;
    Credit(accounts, user.id, Uploads);
    r := Success(Status201, CreatedMessage, Some(t));
  }
}

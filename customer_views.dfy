/**
 * The listener-facing views beside the home feed: adding and removing
 * favourites, adding and removing playlist tracks, and the listings of a
 * user's playlists and recent plays.
 */
module CustomerViews {

  import opened Wrappers
  import opened Catalog
  import opened Envelope
  import HomeFeed
  import Ranking

  const MusicIdRequiredMessage: string := "music_id is required"
  const MusicNotFoundMessage: string := "Music not found"
  const AlreadyFavoritedMessage: string := "Music already in favorites"
  const NotFavoritedMessage: string := "Music not in favorites"
  const PermissionDeniedMessage: string := "You do not have permission to perform this action"
  const AddedMessage: string := "Added successfully"
  const RemovedMessage: string := "Removed successfully"

  /** How far back `RecentlyPlayedViewSet.list` looks. */
  const RecentListCap: nat := 50

  // ----- Favourites -----

  datatype FavoriteError = MusicIdRequired | MusicNotFound | AlreadyFavorited | NotFavorited

  /** The reply each refusal gets. */
  function FavoriteErrorReply<T>(e: FavoriteError): (r: Reply<T>)
    ensures !Succeeded(r)
    ensures r.status == (if e.MusicNotFound? || e.NotFavorited? then Status404 else Status400)
  {
    match e
    case MusicIdRequired => Failure(Status400, MusicIdRequiredMessage)
    case MusicNotFound => Failure(Status404, MusicNotFoundMessage)
    case AlreadyFavorited => Failure(Status400, AlreadyFavoritedMessage)
    case NotFavorited => Failure(Status404, NotFavoritedMessage)
  }

  /** `music_id` is falsy: missing, or zero. */
  predicate Missing(musicId: Option<nat>) {
    musicId.None? || musicId.value == 0
  }

  predicate HasFavorite(favs: seq<FavoriteRec>, user: nat, music: nat) {
    exists k :: 0 <= k < |favs| && favs[k].user == user && favs[k].music == music
  }

  /** The number of favourite rows for one (user, track) pair. */
  function PairCount(favs: seq<FavoriteRec>, user: nat, music: nat): nat {
    |Ranking.Filter(favs, (f: FavoriteRec) => f.user == user && f.music == music)|
  }

  /**
   * `FavoriteViewSet.create`: a falsy `music_id` is refused, then an unknown
   * track, then a pair already favourited; otherwise one row is appended.
   */
  function AddFavorite(tracks: seq<Track>, favs: seq<FavoriteRec>, user: nat, musicId: Option<nat>,
                       newId: nat, now: int): (r: Result<seq<FavoriteRec>, FavoriteError>)
    ensures r == Err(MusicIdRequired) <==> Missing(musicId)
    ensures r == Err(MusicNotFound) <==> !Missing(musicId) && FindTrack(tracks, musicId.value).None?
    ensures r == Err(AlreadyFavorited) <==>
              !Missing(musicId) && FindTrack(tracks, musicId.value).Some? && HasFavorite(favs, user, musicId.value)
    ensures r.Ok? ==> r.value == favs + [FavoriteRec(newId, user, musicId.value, now)]
  {
    if Missing(musicId) then Err(MusicIdRequired)
    else if FindTrack(tracks, musicId.value).None? then Err(MusicNotFound)
    else if HasFavorite(favs, user, musicId.value) then Err(AlreadyFavorited)
    else Ok(favs + [FavoriteRec(newId, user, musicId.value, now)])
  }

  function OtherPair(user: nat, music: nat): FavoriteRec -> bool {
    (f: FavoriteRec) => !(f.user == user && f.music == music)
  }

  /**
   * `FavoriteViewSet.remove`: a falsy `music_id` is refused, then a pair
   * that is not a favourite; otherwise the pair's row is deleted.
   */
  function RemoveFavorite(favs: seq<FavoriteRec>, user: nat, musicId: Option<nat>)
    : (r: Result<seq<FavoriteRec>, FavoriteError>)
    ensures r == Err(MusicIdRequired) <==> Missing(musicId)
    ensures r == Err(NotFavorited) <==> !Missing(musicId) && !HasFavorite(favs, user, musicId.value)
    ensures r.Ok? ==> forall f :: f in r.value <==> f in favs && !(f.user == user && f.music == musicId.value)
  {
    if Missing(musicId) then Err(MusicIdRequired)
    else if !HasFavorite(favs, user, musicId.value) then Err(NotFavorited)
    else
      var kept := Ranking.Filter(favs, OtherPair(user, musicId.value));
      Ranking.FilterMembers(favs, OtherPair(user, musicId.value));
      Ok(kept)
  }

  /** The pair's rows are the new row alone when the old rows had none. */
  lemma {:induction false} PairCountAbsent(favs: seq<FavoriteRec>, user: nat, music: nat)
    requires !HasFavorite(favs, user, music)
    ensures PairCount(favs, user, music) == 0
  {
    Ranking.FilterNone(favs, (f: FavoriteRec) => f.user == user && f.music == music);
  }

  /**
   * After a successful add the pair is a favourite with exactly one row,
   * the table still has one row per pair, and a second add of the same
   * track is refused as a duplicate.
   */
  lemma AddFavoriteOnce(tracks: seq<Track>, favs: seq<FavoriteRec>, user: nat, music: nat,
                        newId: nat, now: int, laterId: nat, later: int)
    requires UniqueFavorites(favs)
    requires AddFavorite(tracks, favs, user, Some(music), newId, now).Ok?
    ensures var after := AddFavorite(tracks, favs, user, Some(music), newId, now).value;
            UniqueFavorites(after)
            && HasFavorite(after, user, music)
            && PairCount(after, user, music) == 1
            && AddFavorite(tracks, after, user, Some(music), laterId, later) == Err(AlreadyFavorited)
  {
    var rec := FavoriteRec(newId, user, music, now);
    var after := favs + [rec];
    assert after[|favs|] == rec;
    PairCountAbsent(favs, user, music);
    Ranking.FilterAppend(favs, [rec], (f: FavoriteRec) => f.user == user && f.music == music);
  }

  /** Removing a favourite just added gives back the table as it was. */
  lemma RemoveUndoesAdd(tracks: seq<Track>, favs: seq<FavoriteRec>, user: nat, music: nat, newId: nat, now: int)
    requires AddFavorite(tracks, favs, user, Some(music), newId, now).Ok?
    ensures RemoveFavorite(AddFavorite(tracks, favs, user, Some(music), newId, now).value, user, Some(music))
            == Ok(favs)
  {
    var rec := FavoriteRec(newId, user, music, now);
    var after := favs + [rec];
    assert HasFavorite(after, user, music) by {
      assert after[|favs|] == rec;
    }
    assert Ranking.Filter(after, OtherPair(user, music)) == favs by {
      assert forall i :: 0 <= i < |favs| ==> OtherPair(user, music)(favs[i]);
      Ranking.FilterAll(favs, OtherPair(user, music));
      Ranking.FilterAppend(favs, [rec], OtherPair(user, music));
      assert Ranking.Filter([rec], OtherPair(user, music)) == [];
    }
  }

  /** Under one row per pair, a successful removal deletes exactly one row and leaves the pair unfavourited. */
  lemma RemoveFavoriteOne(favs: seq<FavoriteRec>, user: nat, music: nat)
    requires UniqueFavorites(favs)
    requires RemoveFavorite(favs, user, Some(music)).Ok?
    ensures var after := RemoveFavorite(favs, user, Some(music)).value;
            !HasFavorite(after, user, music) && |after| == |favs| - 1
  {
    var after := RemoveFavorite(favs, user, Some(music)).value;
    var k :| 0 <= k < |favs| && favs[k].user == user && favs[k].music == music;
    assert forall i :: 0 <= i < |favs| && i != k ==> OtherPair(user, music)(favs[i]);
    Ranking.FilterDropsOne(favs, k, OtherPair(user, music));
  }

  /** `create` against the favourite table. */
  method CreateFavorite(db: MusicDb, user: nat, musicId: Option<nat>, now: int) returns (r: Reply<FavoriteRec>)
    requires db.Valid()
    modifies db
    ensures db.Valid()
    ensures var outcome := AddFavorite(old(db.tracks), old(db.favorites), user, musicId, old(db.nextFavoriteId), now);
            match outcome
            case Err(e) =>
              r == FavoriteErrorReply(e) && db.favorites == old(db.favorites) && db.nextFavoriteId == old(db.nextFavoriteId)
            case Ok(favs) =>
              r == Success(Status201, AddedMessage, Some(favs[|favs| - 1]))
              && db.favorites == favs && db.nextFavoriteId == old(db.nextFavoriteId) + 1
    ensures db.tracks == old(db.tracks) && db.plays == old(db.plays) && db.playlists == old(db.playlists)
    ensures db.artists == old(db.artists) && db.albums == old(db.albums) && db.tags == old(db.tags)
    ensures db.nextTrackId == old(db.nextTrackId) && db.nextPlayId == old(db.nextPlayId)
  {
    var outcome := AddFavorite(db.tracks, db.favorites, user, musicId, db.nextFavoriteId, now);
    match outcome {
      case Err(e) =>
        r := FavoriteErrorReply(e);
      case Ok(favs) =>
        var rec := FavoriteRec(db.nextFavoriteId, user, musicId.value, now);
        assert UniqueFavorites(favs) by {
          assert favs == db.favorites + [rec];
          assert favs[|db.favorites|] == rec;
        }
        db.favorites := favs;
        db.nextFavoriteId := db.nextFavoriteId + 1;
        r := Success(Status201, AddedMessage, Some(rec));
    }
  }

  /** The new table keeps one row per pair when rows are only removed. */
  lemma FilterKeepsUniqueFavorites(favs: seq<FavoriteRec>, p: FavoriteRec -> bool)
    requires UniqueFavorites(favs)
    ensures UniqueFavorites(Ranking.Filter(favs, p))
  {
    var pair := (f: FavoriteRec) => (f.user, f.music);
    assert Ranking.DistinctBy(favs, pair);
    Ranking.FilterKeepsDistinct(favs, p, pair);
  }

  /** `remove` against the favourite table. */
  method DestroyFavorite(db: MusicDb, user: nat, musicId: Option<nat>) returns (r: Reply<FavoriteRec>)
    requires db.Valid()
    modifies db
    ensures db.Valid()
    ensures match RemoveFavorite(old(db.favorites), user, musicId)
            case Err(e) => r == FavoriteErrorReply(e) && db.favorites == old(db.favorites)
            case Ok(favs) => r == Success(Status200, RemovedMessage, None) && db.favorites == favs
    ensures db.tracks == old(db.tracks) && db.plays == old(db.plays) && db.playlists == old(db.playlists)
    ensures db.artists == old(db.artists) && db.albums == old(db.albums) && db.tags == old(db.tags)
    ensures db.nextTrackId == old(db.nextTrackId) && db.nextPlayId == old(db.nextPlayId)
    ensures db.nextFavoriteId == old(db.nextFavoriteId)
  {
    match RemoveFavorite(db.favorites, user, musicId) {
      case Err(e) =>
        r := FavoriteErrorReply(e);
      case Ok(favs) =>
        FilterKeepsUniqueFavorites(db.favorites, OtherPair(user, musicId.value));
        db.favorites := favs;
        r := Success(Status200, RemovedMessage, None);
    }
  }

  // ----- Playlists -----

  /** Why a track edit on a playlist is refused, with the status it answers. */
  datatype PlaylistError = PlaylistNotFound | NotOwner | InvalidMusic

  function PlaylistErrorStatus(e: PlaylistError): nat {
    match e
    case PlaylistNotFound => Status404
    case NotOwner => Status403
    case InvalidMusic => Status400
  }

  /** `get_queryset`: the requester's own playlists and every public one. */
  predicate Visible(p: Playlist, user: nat) {
    p.owner == user || p.isPublic
  }

  function PlaylistQueryset(playlists: seq<Playlist>, user: nat): (r: seq<Playlist>)
    ensures forall p :: p in r <==> p in playlists && Visible(p, user)
  {
    Ranking.FilterMembers(playlists, (p: Playlist) => Visible(p, user));
    Ranking.Filter(playlists, (p: Playlist) => Visible(p, user))
  }

  /** `my_playlists`: the requester's own playlists, public or not. */
  function MyPlaylists(playlists: seq<Playlist>, user: nat): (r: seq<Playlist>)
    ensures forall p :: p in r <==> p in playlists && p.owner == user
  {
    Ranking.FilterMembers(playlists, (p: Playlist) => p.owner == user);
    Ranking.Filter(playlists, (p: Playlist) => p.owner == user)
  }

  function SelectPlaylist(pk: nat, user: nat): Playlist -> bool {
    (p: Playlist) => p.id == pk && Visible(p, user)
  }

  /**
   * `add_track` (`add` true) and `remove_track`: `get_object` looks the
   * playlist up among those visible to the requester, a non-owner is refused,
   * `music_id` must name a track, and the track is added to or removed from
   * the playlist's track set.
   */
  function EditTracks(playlists: seq<Playlist>, pk: nat, user: nat, tracks: seq<Track>,
                      musicId: Option<nat>, add: bool): (r: Result<seq<Playlist>, PlaylistError>)
  {
    match Ranking.IndexWhere(playlists, SelectPlaylist(pk, user))
    case None => Err(PlaylistNotFound)
    case Some(k) =>
      if playlists[k].owner != user then Err(NotOwner)
      else if musicId.None? || FindTrack(tracks, musicId.value).None? then Err(InvalidMusic)
      else
        var m := musicId.value;
        var edited := if add then playlists[k].tracks + {m} else playlists[k].tracks - {m};
        Ok(playlists[k := playlists[k].(tracks := edited)])
  }

  /**
   * The refusals come in the order of the view: an invisible playlist is
   * not found, someone else's public playlist is forbidden, and only then is
   * the track checked. An accepted edit changes the one playlist's track set,
   * by exactly the given track, and nothing else.
   */
  lemma EditTracksProperties(playlists: seq<Playlist>, pk: nat, user: nat, tracks: seq<Track>,
                             musicId: Option<nat>, add: bool)
    ensures var r := EditTracks(playlists, pk, user, tracks, musicId, add);
            (r == Err(PlaylistNotFound) <==> forall p :: p in playlists && p.id == pk ==> !Visible(p, user))
            && (r == Err(NotOwner) ==> exists p :: p in playlists && p.id == pk && p.isPublic && p.owner != user)
            && (r.Ok? ==>
                  musicId.Some? && FindTrack(tracks, musicId.value).Some?
                  && |r.value| == |playlists|
                  && exists k :: 0 <= k < |playlists| && playlists[k].id == pk && playlists[k].owner == user
                       && r.value[k] == playlists[k].(tracks := if add then playlists[k].tracks + {musicId.value}
                                                                else playlists[k].tracks - {musicId.value})
                       && (forall j :: 0 <= j < |playlists| && j != k ==> r.value[j] == playlists[j]))
  {
    var r := EditTracks(playlists, pk, user, tracks, musicId, add);
    match Ranking.IndexWhere(playlists, SelectPlaylist(pk, user))
    case None =>
      forall p | p in playlists && p.id == pk ensures !Visible(p, user) {
        var i :| 0 <= i < |playlists| && playlists[i] == p;
        assert !SelectPlaylist(pk, user)(playlists[i]);
      }
    case Some(k) =>
      assert SelectPlaylist(pk, user)(playlists[k]);
      assert playlists[k] in playlists;
  }

  /** `get_object`'s pick: row `k` is the first with that key the requester may see. */
  predicate FirstVisible(playlists: seq<Playlist>, pk: nat, user: nat, k: nat) {
    k < |playlists| && playlists[k].id == pk && Visible(playlists[k], user)
    && forall j :: 0 <= j < k ==> !(playlists[j].id == pk && Visible(playlists[j], user))
  }

  /**
   * Once the playlist is found, the outcome follows from it alone: anyone
   * but its owner is forbidden; for the owner the edit is refused exactly
   * when the track is missing or unknown, and otherwise its track set is
   * edited in place.
   */
  lemma EditTracksOnFound(playlists: seq<Playlist>, pk: nat, user: nat, tracks: seq<Track>,
                          musicId: Option<nat>, add: bool, k: nat)
    requires FirstVisible(playlists, pk, user, k)
    ensures var r := EditTracks(playlists, pk, user, tracks, musicId, add);
            (playlists[k].owner != user ==> r == Err(NotOwner))
            && (playlists[k].owner == user ==>
                  (r == Err(InvalidMusic) <==> musicId.None? || FindTrack(tracks, musicId.value).None?))
            && (playlists[k].owner == user && musicId.Some? && FindTrack(tracks, musicId.value).Some? ==>
                  r == Ok(playlists[k := playlists[k].(tracks := if add then playlists[k].tracks + {musicId.value}
                                                              else playlists[k].tracks - {musicId.value})]))
  {
    assert SelectPlaylist(pk, user)(playlists[k]);
    assert Ranking.IndexWhere(playlists, SelectPlaylist(pk, user)) == Some(k);
  }

  /** Adding a track then removing it restores a playlist that did not hold it. */
  lemma RemoveUndoesAddTrack(playlists: seq<Playlist>, pk: nat, user: nat, tracks: seq<Track>, music: nat)
    requires EditTracks(playlists, pk, user, tracks, Some(music), true).Ok?
    requires forall p :: p in playlists && p.id == pk ==> music !in p.tracks
    ensures EditTracks(EditTracks(playlists, pk, user, tracks, Some(music), true).value, pk, user, tracks, Some(music), false)
            == Ok(playlists)
  {
    var k := Ranking.IndexWhere(playlists, SelectPlaylist(pk, user)).value;
    var added := EditTracks(playlists, pk, user, tracks, Some(music), true).value;
    assert playlists[k] in playlists;
    assert added[k].tracks - {music} == playlists[k].tracks;
    var k2 := Ranking.IndexWhere(added, SelectPlaylist(pk, user));
    assert SelectPlaylist(pk, user)(added[k]);
    assert forall j :: 0 <= j < k ==> added[j] == playlists[j];
    assert k2 == Some(k);
    assert added[k := added[k].(tracks := added[k].tracks - {music})] == playlists;
  }

  /** `track_count` moves by one exactly when the edit changes the set. */
  lemma TrackCountAfterEdit(p: Playlist, m: nat)
    ensures TrackCount(p.(tracks := p.tracks + {m})) == TrackCount(p) + (if m in p.tracks then 0 else 1)
    ensures TrackCount(p.(tracks := p.tracks - {m})) == TrackCount(p) - (if m in p.tracks then 1 else 0)
  {
    if m in p.tracks {
      assert p.tracks + {m} == p.tracks;
      assert p.tracks == (p.tracks - {m}) + {m};
    } else {
      assert p.tracks - {m} == p.tracks;
    }
  }

  /** The playlist edit actions against the playlist table. */
  method EditPlaylistTracks(db: MusicDb, pk: nat, user: nat, musicId: Option<nat>, add: bool)
    returns (r: Result<Reply<Playlist>, PlaylistError>)
    requires db.Valid()
    modifies db
    ensures db.Valid()
    ensures match EditTracks(old(db.playlists), pk, user, old(db.tracks), musicId, add)
            case Err(e) => r == Err(e) && db.playlists == old(db.playlists)
            case Ok(ps) => db.playlists == ps && r.Ok? && r.value.status == Status200 && Succeeded(r.value)
    ensures forall k: nat :: FirstVisible(old(db.playlists), pk, user, k) && old(db.playlists)[k].owner != user ==>
              r == Err(NotOwner) && db.playlists == old(db.playlists)
    ensures forall k: nat :: (FirstVisible(old(db.playlists), pk, user, k) && old(db.playlists)[k].owner == user
                              && musicId.Some? && FindTrack(old(db.tracks), musicId.value).Some?) ==>
              r.Ok? && Succeeded(r.value)
              && db.playlists == old(db.playlists)[k := old(db.playlists)[k].(tracks :=
                   if add then old(db.playlists)[k].tracks + {musicId.value} else old(db.playlists)[k].tracks - {musicId.value})]
    ensures db.tracks == old(db.tracks) && db.plays == old(db.plays) && db.favorites == old(db.favorites)
    ensures db.artists == old(db.artists) && db.albums == old(db.albums) && db.tags == old(db.tags)
    ensures db.nextTrackId == old(db.nextTrackId) && db.nextPlayId == old(db.nextPlayId)
    ensures db.nextFavoriteId == old(db.nextFavoriteId)
  {
    forall k: nat | FirstVisible(db.playlists, pk, user, k) {
      EditTracksOnFound(db.playlists, pk, user, db.tracks, musicId, add, k);
    }
    match EditTracks(db.playlists, pk, user, db.tracks, musicId, add) {
      case Err(e) =>
        r := Err(e);
      case Ok(ps) =>
        var k := Ranking.IndexWhere(db.playlists, SelectPlaylist(pk, user)).value;
        db.playlists := ps;
        r := Ok(Success(Status200, if add then AddedMessage else RemovedMessage, Some(ps[k])));
    }
  }

  // ----- Recently played -----

  /** `RecentlyPlayedViewSet.list`: the user's 50 latest plays, latest first. */
  function RecentlyPlayedList(plays: seq<Play>, user: nat): seq<Play> {
    Ranking.TopBy(Ranking.Filter(plays, HomeFeed.PlayedBy(user)), HomeFeed.PlayedAtKey, RecentListCap)
  }

  /**
   * The listing holds at most 50 of the user's own plays, latest first, and
   * no play of theirs left out is later than one listed.
   */
  lemma RecentlyPlayedListProperties(plays: seq<Play>, user: nat)
    ensures var r := RecentlyPlayedList(plays, user);
            |r| <= RecentListCap
            && Ranking.NonIncreasing(r, HomeFeed.PlayedAtKey)
            && (forall p :: p in r ==> p in plays && p.user == user)
            && (forall p, q :: p in plays && p.user == user && p !in r && q in r ==> q.playedAt >= p.playedAt)
  {
    var r := RecentlyPlayedList(plays, user);
    assert |r| <= RecentListCap && Ranking.NonIncreasing(r, HomeFeed.PlayedAtKey) by {
      Ranking.TopByProperties(Ranking.Filter(plays, HomeFeed.PlayedBy(user)), HomeFeed.PlayedAtKey, RecentListCap);
    }
    assert forall p :: p in r ==> p in plays && p.user == user by {
      Ranking.TopOfFilterMembers(plays, HomeFeed.PlayedBy(user), HomeFeed.PlayedAtKey, RecentListCap);
    }
    forall p, q | p in plays && p.user == user && p !in r && q in r ensures q.playedAt >= p.playedAt {
      Ranking.TopOfFilterMaximal(plays, HomeFeed.PlayedBy(user), HomeFeed.PlayedAtKey, RecentListCap);
      assert Ranking.AtLeast(HomeFeed.PlayedAtKey(q), HomeFeed.PlayedAtKey(p));
    }
  }
}

/**
 * The account view sets: which profiles and broadcaster profiles a user
 * sees, and the broadcaster create / verify / reject / me actions over the
 * account tables. The permission lists in front of these actions are in
 * module Permissions; the methods here run once those have let the request
 * through.
 */
module AccountViews {

  import opened Wrappers
  import opened Accounts
  import opened Envelope
  import Ranking

  /** `UserProfileViewSet.get_queryset`: an admin sees every profile, anyone else only their own. */
  function ProfileQueryset(profiles: seq<UserProfile>, user: User): (r: seq<UserProfile>)
    ensures IsAdmin(user) ==> r == profiles
    ensures !IsAdmin(user) ==> forall i :: 0 <= i < |r| ==> r[i].userId == user.id
    ensures !IsAdmin(user) ==> forall i :: 0 <= i < |profiles| && profiles[i].userId == user.id ==> profiles[i] in r
    ensures multiset(r) <= multiset(profiles)
  {
    if IsAdmin(user) then profiles
    else
      var own := (p: UserProfile) => p.userId == user.id;
      Ranking.FilterSubMultiset(profiles, own);
      Ranking.Filter(profiles, own)
  }

  /**
   * `BroadcasterViewSet.get_queryset`: an admin sees every broadcaster
   * profile, a broadcaster only their own, a customer none.
   */
  function BroadcasterQueryset(bs: seq<BroadcasterProfile>, user: User): (r: seq<BroadcasterProfile>)
    ensures IsAdmin(user) ==> r == bs
    ensures IsBroadcaster(user) ==> forall i :: 0 <= i < |r| ==> r[i].userId == user.id
    ensures IsBroadcaster(user) ==> forall i :: 0 <= i < |bs| && bs[i].userId == user.id ==> bs[i] in r
    ensures IsCustomer(user) ==> r == []
    ensures multiset(r) <= multiset(bs)
  {
    if IsAdmin(user) then bs
    else if IsBroadcaster(user) then
      var own := (b: BroadcasterProfile) => b.userId == user.id;
      Ranking.FilterSubMultiset(bs, own);
      Ranking.Filter(bs, own)
    else []
  }

  /** The user table after the user with id `userId` has been given the broadcaster role. */
  function PromoteToBroadcaster(users: seq<User>, userId: nat): (r: seq<User>)
    ensures |r| == |users|
    ensures forall k :: 0 <= k < |r| ==> r[k].id == users[k].id && r[k].email == users[k].email
    ensures forall k :: 0 <= k < |r| && users[k].id == userId ==> r[k] == users[k].(role := Broadcaster)
    ensures forall k :: 0 <= k < |r| && users[k].id != userId ==> r[k] == users[k]
  {
    seq(|users|, k requires 0 <= k < |users| =>
      if users[k].id == userId then users[k].(role := Broadcaster) else users[k])
  }

  /** The broadcaster table after the profile with id `pk` has been given `status`. */
  function WithStatus(bs: seq<BroadcasterProfile>, pk: nat, status: VerificationStatus): (r: seq<BroadcasterProfile>)
    ensures |r| == |bs|
    ensures forall k :: 0 <= k < |r| ==> r[k].id == bs[k].id && r[k].userId == bs[k].userId
    ensures forall k :: 0 <= k < |r| && bs[k].id == pk ==> r[k] == bs[k].(status := status)
    ensures forall k :: 0 <= k < |r| && bs[k].id != pk ==> r[k] == bs[k]
  {
    seq(|bs|, k requires 0 <= k < |bs| =>
      if bs[k].id == pk then bs[k].(status := status) else bs[k])
  }

  const ProfileExistsMessage: string := "Broadcaster profile already exists"
  const ProfileCreatedMessage: string := "Broadcaster profile created successfully"
  const VerifiedMessage: string := "Broadcaster verified successfully"
  const RejectedMessage: string := "Broadcaster rejected"
  const ProfileNotFoundMessage: string := "Broadcaster profile not found"
  const NoBroadcasterMessage: string := "No Broadcaster matches the given query."

  /**
   * `BroadcasterViewSet.create` with `BroadcasterCreateSerializer.create`: a
   * user who already has a broadcaster profile gets 400 and nothing changes;
   * otherwise the user becomes a broadcaster and gets a new pending profile.
   */
  method CreateBroadcaster(db: AccountDb, user: User, bio: string) returns (reply: Reply<BroadcasterProfile>)
    requires db.Valid()
    requires exists k :: 0 <= k < |db.users| && db.users[k].id == user.id
    modifies db
    ensures db.Valid()
    ensures BroadcasterOf(old(db.broadcasters), user.id).Some? ==>
              reply == Failure(Status400, ProfileExistsMessage)
              && db.users == old(db.users) && db.broadcasters == old(db.broadcasters)
              && db.nextBroadcasterId == old(db.nextBroadcasterId)
    ensures BroadcasterOf(old(db.broadcasters), user.id).None? ==>
              var created := NewBroadcaster(old(db.nextBroadcasterId), user.id, bio);
              reply == Success(Status201, ProfileCreatedMessage, Some(created))
              && db.broadcasters == old(db.broadcasters) + [created]
              && db.users == PromoteToBroadcaster(old(db.users), user.id)
              && BroadcasterOf(db.broadcasters, user.id) == Some(created)
              && db.nextBroadcasterId == old(db.nextBroadcasterId) + 1
    ensures db.nextUserId == old(db.nextUserId)
  {
    if BroadcasterOf(db.broadcasters, user.id).Some? {
      return Failure(Status400, ProfileExistsMessage);
    }
    var created := NewBroadcaster(db.nextBroadcasterId, user.id, bio);
    ghost var before := db.broadcasters;
    db.users := PromoteToBroadcaster(db.users, user.id);
    db.broadcasters := db.broadcasters + [created];
    db.nextBroadcasterId := db.nextBroadcasterId + 1;
    var found := BroadcasterOf(db.broadcasters, user.id);
    assert db.broadcasters[|before|] == created;
    assert found == Some(created) by {
      if found.Some? {
        var k :| 0 <= k < |db.broadcasters| && db.broadcasters[k] == found.value;
        assert k == |before|;
      }
    }
    reply := Success(Status201, ProfileCreatedMessage, Some(created));
  }

  /**
   * The shared step of `verify` and `reject`: look the profile up by its
   * primary key (404 when there is none) and set its status, whatever it was.
   */
  method SetVerificationStatus(db: AccountDb, pk: nat, status: VerificationStatus, message: string)
    returns (reply: Reply<BroadcasterProfile>)
    requires db.Valid()
    modifies db
    ensures db.Valid()
    ensures db.users == old(db.users) && db.nextUserId == old(db.nextUserId)
    ensures db.nextBroadcasterId == old(db.nextBroadcasterId)
    ensures db.broadcasters == WithStatus(old(db.broadcasters), pk, status)
    ensures (exists k :: 0 <= k < |old(db.broadcasters)| && old(db.broadcasters)[k].id == pk) <==> reply.status == Status200
    ensures reply.status == Status200 ==>
              exists k :: 0 <= k < |db.broadcasters| && db.broadcasters[k].id == pk
                          && db.broadcasters[k].status == status
                          && reply == Success(Status200, message, Some(db.broadcasters[k]))
    ensures reply.status != Status200 ==> reply == Failure(Status404, NoBroadcasterMessage) && db.broadcasters == old(db.broadcasters)
  {
    var index := Ranking.IndexWhere(db.broadcasters, (b: BroadcasterProfile) => b.id == pk);
    if index.None? {
      assert WithStatus(db.broadcasters, pk, status) == db.broadcasters;
      return Failure(Status404, NoBroadcasterMessage);
    }
    var k := index.value;
    db.broadcasters := WithStatus(db.broadcasters, pk, status);
    reply := Success(Status200, message, Some(db.broadcasters[k]));
  }

  /** `BroadcasterViewSet.verify`: the profile becomes verified from any prior status. */
  method VerifyBroadcaster(db: AccountDb, pk: nat) returns (reply: Reply<BroadcasterProfile>)
    requires db.Valid()
    modifies db
    ensures db.Valid() && db.users == old(db.users)
    ensures db.broadcasters == WithStatus(old(db.broadcasters), pk, Verified)
    ensures reply.status == Status200 ==>
              Succeeded(reply) && DataOf(reply).Some? && DataOf(reply).value.id == pk && IsVerified(DataOf(reply).value)
    ensures reply.status != Status200 ==> reply.status == Status404 && db.broadcasters == old(db.broadcasters)
  {
    reply := SetVerificationStatus(db, pk, Verified, VerifiedMessage);
  }

  /** `BroadcasterViewSet.reject`: the profile becomes rejected from any prior status. */
  method RejectBroadcaster(db: AccountDb, pk: nat) returns (reply: Reply<BroadcasterProfile>)
    requires db.Valid()
    modifies db
    ensures db.Valid() && db.users == old(db.users)
    ensures db.broadcasters == WithStatus(old(db.broadcasters), pk, Rejected)
    ensures reply.status == Status200 ==>
              Succeeded(reply) && DataOf(reply).Some? && DataOf(reply).value.id == pk && DataOf(reply).value.status == Rejected
    ensures reply.status != Status200 ==> reply.status == Status404 && db.broadcasters == old(db.broadcasters)
  {
    reply := SetVerificationStatus(db, pk, Rejected, RejectedMessage);
  }

  /** After `verify`, the profile's owner passes the verified-broadcaster check if they are a broadcaster. */
  lemma VerifiedAfterVerify(bs: seq<BroadcasterProfile>, pk: nat, k: nat)
    requires k < |bs| && bs[k].id == pk
    ensures IsVerified(WithStatus(bs, pk, Verified)[k])
    ensures !IsVerified(WithStatus(bs, pk, Rejected)[k])
  {
  }

  /** `BroadcasterViewSet.me`: 404 without a broadcaster profile, the profile otherwise. */
  function BroadcasterMe(bs: seq<BroadcasterProfile>, user: User): (reply: Reply<BroadcasterProfile>)
    ensures BroadcasterOf(bs, user.id).None? <==> reply.status == Status404
    ensures reply.status == Status404 ==> reply == Failure(Status404, ProfileNotFoundMessage)
    ensures reply.status != Status404 ==>
              reply.status == Status200 && Succeeded(reply)
              && DataOf(reply).Some? && DataOf(reply).value in bs && DataOf(reply).value.userId == user.id
  {
    match BroadcasterOf(bs, user.id)
    case None => Failure(Status404, ProfileNotFoundMessage)
    case Some(b) => Success(Status200, DefaultSuccessMessage, Some(b))
  }
}

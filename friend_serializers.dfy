/** The friend serializers (friends/serializers.py): the friend-detail
    derivation of FriendListSerializer, the friend-party lookups of
    FriendDetailSerializer, the self-request check and creation of
    SendFriendRequestSerializer, and the role masks and dispatch of
    RespondToFriendRequestSerializer. The acting user, which the source
    reads from the request context, is an explicit parameter. */
module FriendSerializers {
  import opened Users
  import opened Wrappers
  import opened FriendModels

  // ---------------------------------------------------------------------
  // The party of a request that is not the current user

  /** The user that get_friend_profile_id and get_friend_username report:
      the sender when the current user is the receiver, else the receiver. */
  function OtherParty(req: FriendRequest, user: User): (other: User)
    ensures Involves(req, user) ==> Between(req, user, other)
    ensures !Involves(req, user) ==> other == req.receiver
    ensures user != other || req.sender == req.receiver || !Involves(req, user)
  {
    if req.receiver == user then req.sender else req.receiver
  }

  /** get_friend_profile_id (the friend's user id): the sender's id for the
      receiver, the receiver's id for the sender. */
  function FriendProfileId(req: FriendRequest, user: User): (id: nat)
    ensures user == req.receiver ==> id == req.sender.id
    ensures user == req.sender && user != req.receiver ==> id == req.receiver.id
  {
    OtherParty(req, user).id
  }

  /** FriendDetailSerializer.get_friend_username: the sender's name for the
      receiver, the receiver's name for the sender. */
  function FriendUsername(req: FriendRequest, user: User): (name: string)
    ensures user == req.receiver ==> name == req.sender.username
    ensures user == req.sender && user != req.receiver ==> name == req.receiver.username
  {
    OtherParty(req, user).username
  }

  // ---------------------------------------------------------------------
  // FriendListSerializer.get_friend_details

  /** One entry of `friend_details`; `friendId` is the id of the request
      that records the friendship. The image URL is not modelled. */
  datatype FriendDetail = FriendDetail(username: string, id: nat, friendId: nat)

  /** A request that records a friendship between `owner` and `friend`:
      inactive, in either direction. */
  predicate RecordsFriendship(req: FriendRequest, owner: User, friend: User) {
    !req.isActive && Between(req, owner, friend)
  }

  predicate HasFriendshipRecord(requests: seq<FriendRequest>, owner: User, friend: User) {
    exists i :: 0 <= i < |requests| && RecordsFriendship(requests[i], owner, friend)
  }

  /** For each friend of `owner`, look up any inactive request between the
      two (the source takes `.first()` in database order; any one is
      allowed here) and emit an entry only when there is one. `listed` is
      the friend each entry stands for. */
  method GetFriendDetails(requests: seq<FriendRequest>, owner: User, friends: set<User>, viewer: User)
    returns (details: seq<FriendDetail>, ghost listed: seq<User>)
    ensures |details| <= |friends|
    ensures forall k :: 0 <= k < |details| ==>
      details[k].friendId < |requests| && !requests[details[k].friendId].isActive &&
      Involves(requests[details[k].friendId], owner) &&
      details[k].id == FriendProfileId(requests[details[k].friendId], viewer)
    ensures forall j, k :: 0 <= j < k < |details| ==> details[j].friendId != details[k].friendId
    ensures |details| == |listed|
    ensures forall j, k :: 0 <= j < k < |listed| ==> listed[j] != listed[k]
    ensures forall k :: 0 <= k < |listed| ==>
      listed[k] in friends && details[k].username == listed[k].username &&
      details[k].friendId < |requests| &&
      RecordsFriendship(requests[details[k].friendId], owner, listed[k]) &&
      details[k].id == FriendProfileId(requests[details[k].friendId], viewer)
    ensures forall f :: f in friends ==> (f in listed <==> HasFriendshipRecord(requests, owner, f))
    ensures viewer == owner ==> forall k :: 0 <= k < |listed| ==> details[k].id == listed[k].id
  {
    details, listed := [], [];
    var remaining := friends;
    while remaining != {}
      invariant remaining <= friends
      invariant |details| == |listed| && |listed| + |remaining| <= |friends|
      invariant forall j, k :: 0 <= j < k < |listed| ==> listed[j] != listed[k]
      invariant forall k :: 0 <= k < |listed| ==>
        listed[k] in friends - remaining && details[k].username == listed[k].username &&
        details[k].friendId < |requests| &&
        RecordsFriendship(requests[details[k].friendId], owner, listed[k]) &&
        details[k].id == FriendProfileId(requests[details[k].friendId], viewer)
      invariant forall f :: f in friends - remaining ==> (f in listed <==> HasFriendshipRecord(requests, owner, f))
      decreases remaining
    {
      var friend :| friend in remaining;
      if HasFriendshipRecord(requests, owner, friend) {
        var i :| 0 <= i < |requests| && RecordsFriendship(requests[i], owner, friend);
        details := details + [FriendDetail(friend.username, FriendProfileId(requests[i], viewer), i)];
        listed := listed + [friend];
      }
      remaining := remaining - {friend};
    }
    forall j, k | 0 <= j < k < |details|
      ensures details[j].friendId != details[k].friendId
    {
      assert listed[j] != listed[k];
    }
  }

  // ---------------------------------------------------------------------
  // FriendDetailSerializer.update

  /** FriendDetailSerializer.update: a truthy `unfriend` flag calls
      `instance.unfriend()`, a method FriendRequest does not define, so the
      call fails (None); otherwise the instance is returned unchanged. */
  function DetailUpdate(instance: FriendRequest, unfriend: bool): (r: Option<FriendRequest>)
    ensures r.None? <==> unfriend
    ensures r.Some? ==> r.value == instance
  {
    if unfriend then None else Some(instance)
  }

  // ---------------------------------------------------------------------
  // SendFriendRequestSerializer

  /** The validated input of a send: the sender is the authenticated
      user (a hidden field), the receiver comes from the request body. */
  datatype SendData = SendData(sender: User, receiver: User)

  /** SendFriendRequestSerializer.validate. */
  function ValidateSendData(data: SendData): (r: Result<SendData, string>)
    ensures r.Failure? <==> data.sender == data.receiver
    ensures r.Success? ==> r.value == data
  {
    if data.sender == data.receiver then Failure("Cannot send a friend request to yourself.")
    else Success(data)
  }

  /** SendFriendRequestSerializer.create: the sender recorded is the
      request's user whatever the validated data says. */
  method CreateSendRequest(store: FriendStore, requestUser: User, validated: SendData) returns (id: nat)
    modifies store
    ensures id == |old(store.requests)|
    ensures store.requests == old(store.requests) + [FriendRequest(requestUser, validated.receiver, true)]
    ensures store.lists == old(store.lists)
  {
    id := store.CreateFriendRequest(requestUser, validated.receiver);
  }

  // ---------------------------------------------------------------------
  // RespondToFriendRequestSerializer

  /** The truthiness of the `cancel`, `accept` and `decline` fields of the
      validated data; an absent field reads as false. */
  datatype RespondFlags = RespondFlags(cancel: bool, accept: bool, decline: bool)

  /** __init__: when an instance is given, its sender gets `accept` and
      `decline` as read-only fields and (otherwise) its receiver gets
      `cancel`; a read-only field never reaches the validated data. */
  function WritableFlags(user: User, instance: Option<FriendRequest>, input: RespondFlags): (r: RespondFlags)
    ensures r.cancel ==> input.cancel
    ensures r.accept ==> input.accept
    ensures r.decline ==> input.decline
    ensures instance.Some? && user == instance.value.sender ==> !r.accept && !r.decline && r.cancel == input.cancel
    ensures instance.Some? && user != instance.value.sender && user == instance.value.receiver ==>
      !r.cancel && r.accept == input.accept && r.decline == input.decline
    ensures instance.None? || !Involves(instance.value, user) ==> r == input
  {
    if instance.None? then input
    else if user == instance.value.sender then input.(accept := false, decline := false)
    else if user == instance.value.receiver then input.(cancel := false)
    else input
  }

  datatype Transition = CancelRequest | AcceptRequest | DeclineRequest | LeaveUnchanged

  /** The branch `update` takes: cancel before accept before decline. */
  function ChosenTransition(flags: RespondFlags): (t: Transition)
    ensures t == CancelRequest <==> flags.cancel
    ensures t == AcceptRequest <==> !flags.cancel && flags.accept
    ensures t == DeclineRequest <==> !flags.cancel && !flags.accept && flags.decline
    ensures t == LeaveUnchanged <==> !flags.cancel && !flags.accept && !flags.decline
  {
    if flags.cancel then CancelRequest
    else if flags.accept then AcceptRequest
    else if flags.decline then DeclineRequest
    else LeaveUnchanged
  }

  /** The tables after RespondToFriendRequestSerializer.update on request
      `id`: at most one transition, and only accept touches a friend list. */
  function Updated(s: State, id: nat, flags: RespondFlags): (r: Effect<State>)
    requires id < |s.requests|
    ensures ChosenTransition(flags) == LeaveUnchanged ==> r == Effect(s, false)
    ensures ChosenTransition(flags) in {CancelRequest, DeclineRequest} ==>
      r == Effect(State(s.lists, Deactivated(s.requests, id)), false)
    ensures ChosenTransition(flags) == AcceptRequest ==> r == Accepted(s, id)
    ensures r.after.lists != s.lists ==> ChosenTransition(flags) == AcceptRequest
  {
    match ChosenTransition(flags)
    case CancelRequest => Effect(State(s.lists, Deactivated(s.requests, id)), false)
    case AcceptRequest => Accepted(s, id)
    case DeclineRequest => Effect(State(s.lists, Deactivated(s.requests, id)), false)
    case LeaveUnchanged => Effect(s, false)
  }

  method RespondUpdate(store: FriendStore, id: nat, flags: RespondFlags) returns (raised: bool)
    requires id < |store.requests|
    modifies store
    ensures Effect(store.Snapshot(), raised) == Updated(old(store.Snapshot()), id, flags)
  {
    raised := false;
    if flags.cancel {
      store.Cancel(id);
    } else if flags.accept {
      raised := store.Accept(id);
    } else if flags.decline {
      store.Decline(id);
    }
  }

  /** With the masks applied, the sender of a request can only cancel it. */
  lemma SenderCanOnlyCancel(req: FriendRequest, input: RespondFlags)
    ensures ChosenTransition(WritableFlags(req.sender, Some(req), input)) in {CancelRequest, LeaveUnchanged}
  {
  }

  /** With the masks applied, the receiver of a request cannot cancel it. */
  lemma ReceiverCannotCancel(req: FriendRequest, input: RespondFlags)
    requires req.receiver != req.sender
    ensures ChosenTransition(WritableFlags(req.receiver, Some(req), input)) != CancelRequest
  {
  }
}

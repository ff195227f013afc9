/** The friend views (friends/views.py): the guard chain of
    SendFriendRequestView, the request lookup shared by FriendDetailView and
    RespondToFriendRequestView, RespondToFriendRequestView.perform_update,
    and the listing of FriendRequestListView. HTTP responses become result
    values; the authenticated user is an explicit parameter. */
module FriendViews {
  import opened Users
  import opened Wrappers
  import opened FriendModels
  import opened FriendSerializers

  // ---------------------------------------------------------------------
  // SendFriendRequestView

  /** The outcome of a send: the created request's id, or the reason it was
      refused (each a 400 response in the source). */
  datatype SendResult =
    | Sent(id: nat)
    | CannotSendToSelf
    | RequestAlreadyExists
    | AlreadyInFriendList
    | ReceiverAlreadySent

  /** An active request from `sender` to `receiver` exists. */
  predicate HasActiveRequest(requests: seq<FriendRequest>, sender: User, receiver: User) {
    exists i :: 0 <= i < |requests| &&
      requests[i].sender == sender && requests[i].receiver == receiver && requests[i].isActive
  }

  /** `sender.friends.filter(pk=receiver.pk)`: among the lists that name the
      sender as a friend, the one whose id is the receiver's id. Taking a
      list's id to be its owner's id, that is the receiver's own list. */
  predicate AlreadyFriends(lists: FriendLists, sender: User, receiver: User) {
    receiver in lists && sender in lists[receiver]
  }

  /** SendFriendRequestView.create: the serializer's self-request check,
      then the duplicate, already-friends and reciprocal guards in that
      order, then perform_create. */
  function Send(s: State, user: User, receiver: User): (r: (State, SendResult))
    ensures r.1.Sent? <==>
      user != receiver && !HasActiveRequest(s.requests, user, receiver) &&
      !AlreadyFriends(s.lists, user, receiver) && !HasActiveRequest(s.requests, receiver, user)
    ensures r.1.Sent? ==>
      r.1.id == |s.requests| && r.0 == State(s.lists, s.requests + [FriendRequest(user, receiver, true)])
    ensures !r.1.Sent? ==> r.0 == s
  {
    if ValidateSendData(SendData(user, receiver)).Failure? then (s, CannotSendToSelf)
    else if HasActiveRequest(s.requests, user, receiver) then (s, RequestAlreadyExists)
    else if AlreadyFriends(s.lists, user, receiver) then (s, AlreadyInFriendList)
    else if HasActiveRequest(s.requests, receiver, user) then (s, ReceiverAlreadySent)
    else (State(s.lists, s.requests + [FriendRequest(user, receiver, true)]), Sent(|s.requests|))
  }

  /** The first failing guard decides the error. */
  lemma SendGuardOrder(s: State, user: User, receiver: User)
    ensures user == receiver ==> Send(s, user, receiver).1 == CannotSendToSelf
    ensures user != receiver && HasActiveRequest(s.requests, user, receiver) ==>
      Send(s, user, receiver).1 == RequestAlreadyExists
    ensures (user != receiver && !HasActiveRequest(s.requests, user, receiver) &&
             AlreadyFriends(s.lists, user, receiver))
      ==> Send(s, user, receiver).1 == AlreadyInFriendList
    ensures (user != receiver && !HasActiveRequest(s.requests, user, receiver) &&
             !AlreadyFriends(s.lists, user, receiver) && HasActiveRequest(s.requests, receiver, user))
      ==> Send(s, user, receiver).1 == ReceiverAlreadySent
  {
  }

  method SendFriendRequest(store: FriendStore, user: User, receiver: User) returns (r: SendResult)
    modifies store
    ensures (store.Snapshot(), r) == Send(old(store.Snapshot()), user, receiver)
  {
    var validated := ValidateSendData(SendData(user, receiver));
    if validated.Failure? {
      return CannotSendToSelf;
    }
    var sender := user;
    if HasActiveRequest(store.requests, sender, receiver) {
      return RequestAlreadyExists;
    }
    if AlreadyFriends(store.lists, sender, receiver) {
      return AlreadyInFriendList;
    }
    if HasActiveRequest(store.requests, receiver, sender) {
      return ReceiverAlreadySent;
    }
    var id := CreateSendRequest(store, user, validated.value);
    r := Sent(id);
  }

  // ---------------------------------------------------------------------
  // get_object of FriendDetailView and RespondToFriendRequestView

  /** The request with id `id`, found only among the requests the user sent
      or received; anything else is a 404. */
  function GetRequestFor(requests: seq<FriendRequest>, user: User, id: nat): (r: Option<FriendRequest>)
    ensures r.Some? <==> id < |requests| && Involves(requests[id], user)
    ensures r.Some? ==> r.value == requests[id]
  {
    if id < |requests| && (requests[id].sender == user || requests[id].receiver == user)
    then Some(requests[id]) else None
  }

  // ---------------------------------------------------------------------
  // FriendRequestListView.get_queryset

  /** The ids of the active requests the user sent or received, in id
      order. */
  function ActiveRequests(requests: seq<FriendRequest>, user: User): (ids: seq<nat>)
    ensures forall k :: 0 <= k < |ids| ==>
      ids[k] < |requests| && requests[ids[k]].isActive && Involves(requests[ids[k]], user)
    ensures forall i :: 0 <= i < |requests| && requests[i].isActive && Involves(requests[i], user) ==> i in ids
    ensures forall j, k :: 0 <= j < k < |ids| ==> ids[j] < ids[k]
    decreases |requests|
  {
    if requests == [] then []
    else
      var last := |requests| - 1;
      var earlier := ActiveRequests(requests[..last], user);
      if requests[last].isActive && (requests[last].receiver == user || requests[last].sender == user)
      then earlier + [last] else earlier
  }

  /** The duplicate guard of the send view and the listing agree: an active
      request from `sender` to `receiver` exists exactly when one is among
      the requests listed for the sender. */
  lemma PendingRequestIsListed(requests: seq<FriendRequest>, sender: User, receiver: User)
    ensures HasActiveRequest(requests, sender, receiver) <==>
      exists i :: 0 <= i < |requests| && i in ActiveRequests(requests, sender) &&
        requests[i].sender == sender && requests[i].receiver == receiver
  {
  }

  // ---------------------------------------------------------------------
  // RespondToFriendRequestView

  datatype RespondResult = Responded | NotFound | ServerError

  /** perform_update as written: serializer.save() runs `update`, then a
      still-active instance is accepted and an inactive one is declined
      again. */
  function PerformUpdateAsWritten(s: State, id: nat, flags: RespondFlags): (r: Effect<State>)
    requires id < |s.requests|
    ensures r.after.lists.Keys == s.lists.Keys && |r.after.requests| == |s.requests|
    ensures !r.raised ==> !r.after.requests[id].isActive
    ensures s.requests[id].sender in s.lists && s.requests[id].receiver in s.lists ==> !r.raised
    ensures var saved := Updated(s, id, flags);
      saved.raised ==> r == saved
    ensures var saved := Updated(s, id, flags);
      !saved.raised && saved.after.requests[id].isActive ==> r == Accepted(saved.after, id)
    ensures var saved := Updated(s, id, flags);
      !saved.raised && !saved.after.requests[id].isActive ==> r == saved
  {
    var saved := Updated(s, id, flags);
    if saved.raised then saved
    else if saved.after.requests[id].isActive then Accepted(saved.after, id)
    else Effect(State(saved.after.lists, Deactivated(saved.after.requests, id)), false)
  }

  method PerformUpdate(store: FriendStore, id: nat, flags: RespondFlags) returns (raised: bool)
    requires id < |store.requests|
    modifies store
    ensures Effect(store.Snapshot(), raised) == PerformUpdateAsWritten(old(store.Snapshot()), id, flags)
  {
    raised := RespondUpdate(store, id, flags);
    if raised {
      return;
    }
    if store.requests[id].isActive {
      raised := store.Accept(id);
    } else {
      store.Decline(id);
    }
  }

  /** RespondToFriendRequestView as written: look the request up among the
      user's own, then perform the update. The generic update hands the
      instance to the serializer positionally, so `kwargs.get('instance')`
      in `__init__` is None and no role mask is set: the flags reach
      `update` as sent. */
  function RespondAsWritten(s: State, user: User, id: nat, input: RespondFlags): (r: (State, RespondResult))
    ensures r.1 == NotFound <==> GetRequestFor(s.requests, user, id).None?
    ensures r.1 == NotFound ==> r.0 == s
    ensures r.1 == Responded ==> id < |r.0.requests| && !r.0.requests[id].isActive
    ensures GetRequestFor(s.requests, user, id).Some? ==>
      r.0 == PerformUpdateAsWritten(s, id, input).after &&
      (r.1 == ServerError <==> PerformUpdateAsWritten(s, id, input).raised)
  {
    match GetRequestFor(s.requests, user, id)
    case None => (s, NotFound)
    case Some(instance) =>
      var e := PerformUpdateAsWritten(s, id, WritableFlags(user, None, input));
      (e.after, if e.raised then ServerError else Responded)
  }

  method RespondToFriendRequest(store: FriendStore, user: User, id: nat, input: RespondFlags)
    returns (r: RespondResult)
    modifies store
    ensures (store.Snapshot(), r) == RespondAsWritten(old(store.Snapshot()), user, id, input)
  {
    var instance := GetRequestFor(store.requests, user, id);
    if instance.None? {
      return NotFound;
    }
    var flags := WritableFlags(user, None, input);
    var raised := PerformUpdate(store, id, flags);
    r := if raised then ServerError else Responded;
  }

  /** The respond view as intended: the serializer receives the instance
      by keyword, so the role masks of `__init__` apply, and perform_update
      is reduced to serializer.save(), so only the transition the masked
      flags choose is applied. */
  function Respond(s: State, user: User, id: nat, input: RespondFlags): (r: (State, RespondResult))
    ensures r.1 == NotFound <==> GetRequestFor(s.requests, user, id).None?
    ensures r.1 == NotFound ==> r.0 == s
    ensures r.0.lists != s.lists ==>
      id < |s.requests| && user == s.requests[id].receiver && user != s.requests[id].sender
    ensures !input.cancel && !input.accept && !input.decline ==> r.0 == s
  {
    match GetRequestFor(s.requests, user, id)
    case None => (s, NotFound)
    case Some(instance) =>
      var e := Updated(s, id, WritableFlags(user, Some(instance), input));
      (e.after, if e.raised then ServerError else Responded)
  }

  /** As written, the sender of a request can make the two users friends:
      no mask is set, so the sender's `accept` flag reaches `update`, which
      accepts the request. */
  lemma SenderAcceptsOwnRequest()
    ensures exists s: State, id: nat ::
      id < |s.requests| && Consistent(s) &&
      var after := RespondAsWritten(s, s.requests[id].sender, id, RespondFlags(false, true, false)).0;
      s.requests[id].sender in after.lists[s.requests[id].receiver]
  {
    var a, b := User(1, "a"), User(2, "b");
    var s := State(map[a := {}, b := {}], [FriendRequest(a, b, true)]);
    assert ChosenTransition(RespondFlags(false, true, false)) == AcceptRequest;
    var after := RespondAsWritten(s, a, 0, RespondFlags(false, true, false)).0;
    assert after == Accepted(s, 0).after;
    assert a in after.lists[b];
  }

  /** As written, the receiver's `cancel` flag is not masked either: it
      reaches `update`, which cancels, and the second transition declines
      the now inactive request again; no friend list changes. */
  lemma ReceiverCancelCancels(s: State, id: nat)
    requires id < |s.requests|
    ensures RespondAsWritten(s, s.requests[id].receiver, id, RespondFlags(true, false, false)) ==
      (State(s.lists, Deactivated(s.requests, id)), Responded)
  {
    var saved := Updated(s, id, RespondFlags(true, false, false));
    assert saved == Effect(State(s.lists, Deactivated(s.requests, id)), false);
  }

  /** As written, a receiver who sends no flag at all accepts the request. */
  lemma EmptyResponseAccepts(s: State, id: nat)
    requires id < |s.requests| && s.requests[id].isActive
    requires s.requests[id].sender in s.lists && s.requests[id].receiver in s.lists
    ensures RespondAsWritten(s, s.requests[id].receiver, id, RespondFlags(false, false, false)).0
      == Accepted(s, id).after
  {
    assert ChosenTransition(RespondFlags(false, false, false)) == LeaveUnchanged;
  }
}

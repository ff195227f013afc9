/** Properties of the friendship subsystem as a whole: every operation keeps
    the tables consistent (friendship symmetric, nobody their own friend, no
    self-request, at most one active request between two users, every party
    owning a list), and the request lifecycle behaves as the views promise. */
module FriendProperties {
  import opened Users
  import opened Wrappers
  import opened FriendModels
  import opened FriendSerializers
  import opened FriendViews
  import opened Permissions

  /** Deactivating a request keeps the tables consistent. */
  lemma DeactivatePreservesConsistency(s: State, id: nat)
    requires id < |s.requests| && Consistent(s)
    ensures Consistent(State(s.lists, Deactivated(s.requests, id)))
  {
    var rs := Deactivated(s.requests, id);
    forall i, j | 0 <= i < j < |rs| && rs[i].isActive && rs[j].isActive
      ensures !Between(rs[j], rs[i].sender, rs[i].receiver)
    {
      assert rs[i] == s.requests[i] && rs[j] == s.requests[j];
    }
  }

  /** Accepting a request keeps the tables consistent. */
  lemma AcceptPreservesConsistency(s: State, id: nat)
    requires id < |s.requests| && Consistent(s)
    ensures Consistent(Accepted(s, id).after)
  {
    var req := s.requests[id];
    AcceptPreservesSymmetry(s, id);
    DeactivatePreservesConsistency(s, id);
    var r := Accepted(s, id).after;
    assert req.sender != req.receiver;
    forall a | a in r.lists
      ensures a !in r.lists[a]
    {
      assert !Between(req, a, a);
    }
  }

  /** serializer.update keeps the tables consistent. */
  lemma UpdatePreservesConsistency(s: State, id: nat, flags: RespondFlags)
    requires id < |s.requests| && Consistent(s)
    ensures Consistent(Updated(s, id, flags).after)
  {
    match ChosenTransition(flags)
    case CancelRequest => DeactivatePreservesConsistency(s, id);
    case DeclineRequest => DeactivatePreservesConsistency(s, id);
    case AcceptRequest => AcceptPreservesConsistency(s, id);
    case LeaveUnchanged =>
  }

  /** perform_update, as written, keeps the tables consistent. */
  lemma PerformUpdatePreservesConsistency(s: State, id: nat, flags: RespondFlags)
    requires id < |s.requests| && Consistent(s)
    ensures Consistent(PerformUpdateAsWritten(s, id, flags).after)
  {
    UpdatePreservesConsistency(s, id, flags);
    var saved := Updated(s, id, flags).after;
    if saved.requests[id].isActive {
      AcceptPreservesConsistency(saved, id);
    } else {
      DeactivatePreservesConsistency(saved, id);
    }
  }

  /** Both versions of the respond view keep the tables consistent. */
  lemma RespondPreservesConsistency(s: State, user: User, id: nat, input: RespondFlags)
    requires Consistent(s)
    ensures Consistent(RespondAsWritten(s, user, id, input).0)
    ensures Consistent(Respond(s, user, id, input).0)
  {
    if GetRequestFor(s.requests, user, id).Some? {
      PerformUpdatePreservesConsistency(s, id, WritableFlags(user, None, input));
      UpdatePreservesConsistency(s, id, WritableFlags(user, GetRequestFor(s.requests, user, id), input));
    }
  }

  /** A send between two users who own friend lists keeps the tables
      consistent: the guards are exactly what the at-most-one-active
      invariant needs. */
  lemma SendPreservesConsistency(s: State, user: User, receiver: User)
    requires Consistent(s) && user in s.lists && receiver in s.lists
    ensures Consistent(Send(s, user, receiver).0)
  {
    var (after, result) := Send(s, user, receiver);
    if result.Sent? {
      var rs := after.requests;
      var n := |s.requests|;
      forall i, j | 0 <= i < j < |rs| && rs[i].isActive && rs[j].isActive
        ensures !Between(rs[j], rs[i].sender, rs[i].receiver)
      {
        if j == n {
          assert rs[i] == s.requests[i];
          assert !(rs[i].sender == user && rs[i].receiver == receiver);
          assert !(rs[i].sender == receiver && rs[i].receiver == user);
        } else {
          assert rs[i] == s.requests[i] && rs[j] == s.requests[j];
        }
      }
      forall i | 0 <= i < |rs|
        ensures rs[i].sender != rs[i].receiver
        ensures rs[i].sender in after.lists && rs[i].receiver in after.lists
      {
        if i < n {
          assert rs[i] == s.requests[i];
        }
      }
    }
  }

  /** unfriend keeps the tables consistent. */
  lemma UnfriendPreservesConsistency(s: State, owner: User, removee: User)
    requires Consistent(s) && owner in s.lists
    ensures Consistent(State(Unfriended(s.lists, owner, removee).after, s.requests))
  {
    UnfriendPreservesSymmetry(s.lists, owner, removee);
  }

  /** The request a view looks up always passes IsSenderOrReceiver, so that
      object permission adds nothing to the lookup. */
  lemma LookupImpliesPermission(requests: seq<FriendRequest>, user: User, id: nat)
    ensures GetRequestFor(requests, user, id).Some? <==>
      id < |requests| && IsSenderOrReceiver(user, requests[id])
  {
  }

  /** One user sends, the other accepts: both lists name each other, the
      request is inactive, and a repeated send in either direction is
      refused. */
  lemma {:induction false} SendThenAccept(s: State, a: User, b: User)
    requires Consistent(s) && a in s.lists && b in s.lists
    requires Send(s, a, b).1.Sent?
    ensures var s1 := Send(s, a, b).0;
      var id := Send(s, a, b).1.id;
      var (s2, result) := RespondAsWritten(s1, b, id, RespondFlags(false, true, false));
      && result == Responded
      && b in s2.lists[a] && a in s2.lists[b]
      && !s2.requests[id].isActive
      && Send(s2, a, b).1 == AlreadyInFriendList
      && Send(s2, b, a).1 == AlreadyInFriendList
      && s2 == Respond(s1, b, id, RespondFlags(false, true, false)).0
  {
    var s1 := Send(s, a, b).0;
    var id := |s.requests|;
    assert s1.requests[id] == FriendRequest(a, b, true);
    var flags := WritableFlags(b, Some(s1.requests[id]), RespondFlags(false, true, false));
    assert flags == RespondFlags(false, true, false);
    var s2 := Accepted(s1, id).after;
    assert RespondAsWritten(s1, b, id, RespondFlags(false, true, false)).0 == s2;
    SendPreservesConsistency(s, a, b);
    AcceptPreservesConsistency(s1, id);
    assert !HasActiveRequest(s2.requests, a, b) && !HasActiveRequest(s2.requests, b, a) by {
      forall i | 0 <= i < |s2.requests| && s2.requests[i].isActive
        ensures !Between(s2.requests[i], a, b)
      {
        assert i < id;
        assert s1.requests[i].isActive && s1.requests[i] == s2.requests[i];
        assert !Between(s1.requests[id], s1.requests[i].sender, s1.requests[i].receiver);
      }
    }
  }

  /** A pending request cannot be duplicated: while it is active, a second
      send in the same direction, or one in the other direction, is refused. */
  lemma {:induction false} PendingRequestBlocksSends(s: State, a: User, b: User)
    requires Symmetric(s.lists) && Send(s, a, b).1.Sent?
    ensures var s1 := Send(s, a, b).0;
      Send(s1, a, b).1 == RequestAlreadyExists && Send(s1, b, a).1 == ReceiverAlreadySent
  {
    var s1 := Send(s, a, b).0;
    var n := |s.requests|;
    assert s1.requests[n] == FriendRequest(a, b, true);
    assert HasActiveRequest(s1.requests, a, b);
    assert a != b;
    assert !AlreadyFriends(s1.lists, b, a) by {
      assert !AlreadyFriends(s.lists, a, b);
    }
  }

  /** Unfriending after an acceptance removes the edge on both sides and
      leaves the request table, and so the accepted request, as it was. */
  lemma {:induction false} UnfriendRoundTrip(s: State, id: nat)
    requires Consistent(s) && id < |s.requests|
    ensures var req := s.requests[id];
      var accepted := Accepted(s, id).after;
      var after := Unfriended(accepted.lists, req.sender, req.receiver);
      && !after.raised
      && req.receiver !in after.after[req.sender]
      && req.sender !in after.after[req.receiver]
      && Symmetric(after.after)
      && !accepted.requests[id].isActive
  {
    var req := s.requests[id];
    AcceptPreservesConsistency(s, id);
    var accepted := Accepted(s, id).after;
    UnfriendPreservesSymmetry(accepted.lists, req.sender, req.receiver);
  }
}

/** The FriendList and FriendRequest models (friends/models.py).

    The database holds two tables: the FriendList table, one set of friends
    per owner, and the FriendRequest table. `State` is their value; the class
    `FriendStore` holds the same two tables as fields and updates them in
    place the way the model methods do, each method tied to the function on
    `State` that says what it does. */
module FriendModels {
  import opened Users
  import opened Wrappers

  /** One FriendRequest row. Its id is its position in the request table;
      `isActive` is the model's only status field (default True). */
  datatype FriendRequest = FriendRequest(sender: User, receiver: User, isActive: bool)

  /** The FriendList table: each owner's set of friends. The owner field is
      one-to-one, so a map keyed by owner holds at most one list per user. */
  type FriendLists = map<User, set<User>>

  /** The two tables. */
  datatype State = State(lists: FriendLists, requests: seq<FriendRequest>)

  /** True when `req` connects `a` and `b`, in either direction. */
  predicate Between(req: FriendRequest, a: User, b: User) {
    (req.sender == a && req.receiver == b) || (req.sender == b && req.receiver == a)
  }

  /** True when `user` is the sender or the receiver of `req`. */
  predicate Involves(req: FriendRequest, user: User) {
    req.sender == user || req.receiver == user
  }

  // ---------------------------------------------------------------------
  // FriendList

  /** FriendList.is_mutual_friend: looks at the owner's own list only. A
      user is reported a friend exactly when add_friend would have nothing
      left to do. */
  function IsMutualFriend(lists: FriendLists, owner: User, friend: User): (b: bool)
    requires owner in lists
    ensures b <==> AddedFriend(lists, owner, friend) == lists
    ensures b ==> RemovedFriend(lists, owner, friend) != lists
  {
    friend in lists[owner]
  }

  /** The lists after `add_friend(account)` on the owner's list: the account
      is added if it is absent; every other list is untouched. */
  function AddedFriend(lists: FriendLists, owner: User, account: User): (r: FriendLists)
    requires owner in lists
    ensures r.Keys == lists.Keys
    ensures account in r[owner] && r[owner] - {account} == lists[owner] - {account}
    ensures forall u :: u in lists && u != owner ==> r[u] == lists[u]
  {
    if account in lists[owner] then lists else lists[owner := lists[owner] + {account}]
  }

  /** The lists after `remove_friend(account)` on the owner's list. */
  function RemovedFriend(lists: FriendLists, owner: User, account: User): (r: FriendLists)
    requires owner in lists
    ensures r.Keys == lists.Keys
    ensures account !in r[owner] && r[owner] + {account} == lists[owner] + {account}
    ensures forall u :: u in lists && u != owner ==> r[u] == lists[u]
  {
    if account in lists[owner] then lists[owner := lists[owner] - {account}] else lists
  }

  /** `unfriend(removee)` on the owner's list: the removee leaves the owner's
      list first; then the removee's own list is fetched, which raises
      DoesNotExist when the removee has none, leaving the first half done. */
  function Unfriended(lists: FriendLists, owner: User, removee: User): (r: Effect<FriendLists>)
    requires owner in lists
    ensures r.raised <==> removee !in lists
    ensures r.after.Keys == lists.Keys
    ensures removee !in r.after[owner]
    ensures !r.raised ==> owner !in r.after[removee]
    ensures owner != removee ==> r.after[owner] == lists[owner] - {removee}
    ensures owner != removee && !r.raised ==> r.after[removee] == lists[removee] - {owner}
    ensures owner == removee ==> r.after[owner] == lists[owner] - {owner}
    ensures forall u :: u in lists && u != owner && u != removee ==> r.after[u] == lists[u]
  {
    var removed := RemovedFriend(lists, owner, removee);
    if removee !in removed then Effect(removed, true)
    else Effect(RemovedFriend(removed, removee, owner), false)
  }

  // ---------------------------------------------------------------------
  // FriendRequest

  /** The request table after `decline`, `cancel` or the last step of
      `accept` on request `id`: only its `isActive` flag changes. */
  function Deactivated(requests: seq<FriendRequest>, id: nat): (r: seq<FriendRequest>)
    requires id < |requests|
    ensures |r| == |requests|
    ensures !r[id].isActive
    ensures r[id].sender == requests[id].sender && r[id].receiver == requests[id].receiver
    ensures forall i :: 0 <= i < |r| && i != id ==> r[i] == requests[i]
    ensures !requests[id].isActive ==> r == requests
  {
    requests[id := requests[id].(isActive := false)]
  }

  /** FriendRequest.accept on request `id`. The receiver's list is fetched
      and updated before the sender's list is fetched, so a missing sender
      list raises with the receiver's half already written; the request is
      deactivated only when both halves are done. The current value of
      `isActive` is not consulted. */
  function Accepted(s: State, id: nat): (r: Effect<State>)
    requires id < |s.requests|
    ensures r.raised <==> s.requests[id].receiver !in s.lists || s.requests[id].sender !in s.lists
    ensures s.requests[id].receiver !in s.lists ==> r.after == s
    ensures r.after.lists.Keys == s.lists.Keys
    ensures r.after.requests == if r.raised then s.requests else Deactivated(s.requests, id)
    ensures s.requests[id].receiver in s.lists ==>
      s.requests[id].sender in r.after.lists[s.requests[id].receiver]
    ensures !r.raised ==> s.requests[id].receiver in r.after.lists[s.requests[id].sender]
    ensures forall u :: u in s.lists ==> s.lists[u] <= r.after.lists[u]
    ensures forall u, v :: u in s.lists && v in r.after.lists[u] && v !in s.lists[u] ==>
      Between(s.requests[id], u, v)
  {
    var req := s.requests[id];
    if req.receiver !in s.lists then Effect(s, true)
    else
      var withSender := AddedFriend(s.lists, req.receiver, req.sender);
      if req.sender !in withSender then Effect(State(withSender, s.requests), true)
      else Effect(State(AddedFriend(withSender, req.sender, req.receiver), Deactivated(s.requests, id)), false)
  }

  // ---------------------------------------------------------------------
  // Invariants of the two tables

  /** Friendship is mutual: b is in a's list exactly when a is in b's, and
      every friend owns a list. */
  ghost predicate Symmetric(lists: FriendLists) {
    forall a, b :: a in lists && b in lists[a] ==> b in lists && a in lists[b]
  }

  /** Nobody is their own friend. */
  ghost predicate NoSelfFriends(lists: FriendLists) {
    forall a :: a in lists ==> a !in lists[a]
  }

  /** No request is addressed to its own sender. */
  ghost predicate NoSelfRequests(requests: seq<FriendRequest>) {
    forall i :: 0 <= i < |requests| ==> requests[i].sender != requests[i].receiver
  }

  /** Two users have at most one active request between them, in either
      direction. */
  ghost predicate AtMostOneActiveBetween(requests: seq<FriendRequest>) {
    forall i, j :: 0 <= i < j < |requests| && requests[i].isActive && requests[j].isActive ==>
      !Between(requests[j], requests[i].sender, requests[i].receiver)
  }

  /** Everyone named in a request owns a friend list (the user-creation hook
      gives every user one). */
  ghost predicate PartiesHaveLists(s: State) {
    forall i :: 0 <= i < |s.requests| ==>
      s.requests[i].sender in s.lists && s.requests[i].receiver in s.lists
  }

  ghost predicate Consistent(s: State) {
    && Symmetric(s.lists)
    && NoSelfFriends(s.lists)
    && NoSelfRequests(s.requests)
    && AtMostOneActiveBetween(s.requests)
    && PartiesHaveLists(s)
  }

  // ---------------------------------------------------------------------
  // Properties of the model methods

  /** add_friend is idempotent, and a no-op when the account is present. */
  lemma AddFriendIdempotent(lists: FriendLists, owner: User, account: User)
    requires owner in lists
    ensures AddedFriend(AddedFriend(lists, owner, account), owner, account) == AddedFriend(lists, owner, account)
    ensures account in lists[owner] ==> AddedFriend(lists, owner, account) == lists
  {
  }

  /** remove_friend is idempotent, and a no-op for a non-friend. */
  lemma RemoveFriendIdempotent(lists: FriendLists, owner: User, account: User)
    requires owner in lists
    ensures RemovedFriend(RemovedFriend(lists, owner, account), owner, account) == RemovedFriend(lists, owner, account)
    ensures account !in lists[owner] ==> RemovedFriend(lists, owner, account) == lists
  {
  }

  /** Under the symmetry invariant, asking either side gives the same answer. */
  lemma MutualFriendIsSymmetric(lists: FriendLists, a: User, b: User)
    requires Symmetric(lists) && a in lists && b in lists
    ensures IsMutualFriend(lists, a, b) == IsMutualFriend(lists, b, a)
  {
  }

  /** is_mutual_friend consults one side only: on lists that are not
      symmetric its two directions disagree. */
  lemma MutualFriendConsultsOneSide()
    ensures exists lists: FriendLists, a: User, b: User ::
      a in lists && b in lists && IsMutualFriend(lists, a, b) && !IsMutualFriend(lists, b, a)
  {
    var a, b := User(1, "a"), User(2, "b");
    var lists := map[a := {b}, b := {}];
    assert IsMutualFriend(lists, a, b) && !IsMutualFriend(lists, b, a);
  }

  /** unfriend keeps the graph symmetric, whichever way it ends. */
  lemma UnfriendPreservesSymmetry(lists: FriendLists, owner: User, removee: User)
    requires Symmetric(lists) && owner in lists
    ensures Symmetric(Unfriended(lists, owner, removee).after)
  {
    var r := Unfriended(lists, owner, removee).after;
    forall a, b | a in r && b in r[a]
      ensures b in r && a in r[b]
    {
      assert b in lists[a];
      if removee !in lists {
        assert r == lists;
      }
    }
  }

  /** With both lists present, accept keeps the graph symmetric. */
  lemma AcceptPreservesSymmetry(s: State, id: nat)
    requires id < |s.requests| && Symmetric(s.lists)
    requires s.requests[id].sender in s.lists && s.requests[id].receiver in s.lists
    ensures Symmetric(Accepted(s, id).after.lists)
  {
    var req := s.requests[id];
    var r := Accepted(s, id).after.lists;
    forall a, b | a in r && b in r[a]
      ensures b in r && a in r[b]
    {
      if b in s.lists[a] {
        assert a in s.lists[b];
      } else {
        assert Between(req, a, b);
      }
    }
  }

  /** Accepting an already accepted request changes nothing: accept does not
      look at `isActive`, and both of its set updates are idempotent. */
  lemma AcceptIdempotent(s: State, id: nat)
    requires id < |s.requests| && !Accepted(s, id).raised
    ensures Accepted(Accepted(s, id).after, id) == Accepted(s, id)
  {
    var req := s.requests[id];
    var once := Accepted(s, id).after;
    assert once.requests[id] == req.(isActive := false);
    var l1 := AddedFriend(s.lists, req.receiver, req.sender);
    var l2 := AddedFriend(l1, req.sender, req.receiver);
    assert once.lists == l2;
    assert AddedFriend(l2, req.receiver, req.sender) == l2;
    assert AddedFriend(l2, req.sender, req.receiver) == l2;
    assert Deactivated(once.requests, id) == once.requests;
  }

  /** accept is not atomic: when the sender has no friend list, the
      receiver's list is updated anyway and the graph is left one-sided. */
  lemma AcceptWithoutSenderListIsPartial()
    ensures exists s: State, id: nat ::
      id < |s.requests| && Symmetric(s.lists) &&
      Accepted(s, id).raised && !Symmetric(Accepted(s, id).after.lists)
  {
    var a, b := User(1, "a"), User(2, "b");
    var s := State(map[b := {}], [FriendRequest(a, b, true)]);
    var after := Accepted(s, 0).after.lists;
    assert a in after[b] && a !in after;
  }

  // ---------------------------------------------------------------------
  // The tables, updated in place

  class FriendStore {
    var lists: FriendLists
    var requests: seq<FriendRequest>

    /** The current contents of the two tables. */
    function Snapshot(): State
      reads this
    {
      State(lists, requests)
    }

    constructor ()
      ensures lists == map[] && requests == []
    {
      lists := map[];
      requests := [];
    }

    /** FriendList.objects.create(owner=...): the owner field is unique, so
        a second list for the same owner raises IntegrityError. */
    method CreateFriendList(owner: User) returns (raised: bool)
      modifies this
      ensures raised == (owner in old(lists))
      ensures lists == if raised then old(lists) else old(lists)[owner := {}]
      ensures requests == old(requests)
    {
      raised := owner in lists;
      if !raised {
        lists := lists[owner := {}];
      }
    }

    method AddFriend(owner: User, account: User)
      requires owner in lists
      modifies this
      ensures lists == AddedFriend(old(lists), owner, account)
      ensures requests == old(requests)
    {
      if account !in lists[owner] {
        lists := lists[owner := lists[owner] + {account}];
      }
    }

    method RemoveFriend(owner: User, account: User)
      requires owner in lists
      modifies this
      ensures lists == RemovedFriend(old(lists), owner, account)
      ensures requests == old(requests)
    {
      if account in lists[owner] {
        lists := lists[owner := lists[owner] - {account}];
      }
    }

    method Unfriend(owner: User, removee: User) returns (raised: bool)
      requires owner in lists
      modifies this
      ensures Effect(lists, raised) == Unfriended(old(lists), owner, removee)
      ensures requests == old(requests)
    {
      RemoveFriend(owner, removee);
      if removee !in lists {
        return true;
      }
      RemoveFriend(removee, owner);
      raised := false;
    }

    /** FriendRequest.objects.create(sender=..., receiver=...): a new row,
        active by default, with the next id. */
    method CreateFriendRequest(sender: User, receiver: User) returns (id: nat)
      modifies this
      ensures id == |old(requests)|
      ensures requests == old(requests) + [FriendRequest(sender, receiver, true)]
      ensures lists == old(lists)
    {
      id := |requests|;
      requests := requests + [FriendRequest(sender, receiver, true)];
    }

    method Accept(id: nat) returns (raised: bool)
      requires id < |requests|
      modifies this
      ensures Effect(Snapshot(), raised) == Accepted(old(Snapshot()), id)
    {
      var request := requests[id];
      if request.receiver !in lists {
        return true;
      }
      AddFriend(request.receiver, request.sender);
      if request.sender !in lists {
        return true;
      }
      AddFriend(request.sender, request.receiver);
      requests := requests[id := request.(isActive := false)];
      raised := false;
    }

    method Decline(id: nat)
      requires id < |requests|
      modifies this
      ensures requests == Deactivated(old(requests), id)
      ensures lists == old(lists)
    {
      requests := requests[id := requests[id].(isActive := false)];
    }

    method Cancel(id: nat)
      requires id < |requests|
      modifies this
      ensures requests == Deactivated(old(requests), id)
      ensures lists == old(lists)
    {
      requests := requests[id := requests[id].(isActive := false)];
    }
  }
}

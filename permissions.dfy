/** The object and view permissions (drf_api/permissions.py). Each is one
    boolean expression over the acting user, the HTTP method and the
    object's owner, collaborators, sender and receiver. */
module Permissions {
  import opened Users
  import opened FriendModels

  datatype HttpMethod = Get | Head | Options | Post | Put | Patch | Delete

  /** DRF's SAFE_METHODS: GET, HEAD and OPTIONS. */
  predicate IsSafe(m: HttpMethod) {
    m.Get? || m.Head? || m.Options?
  }

  /** IsOwnerOrReadOnly.has_object_permission. */
  function IsOwnerOrReadOnly(m: HttpMethod, user: User, owner: User): (allowed: bool)
    ensures IsSafe(m) ==> allowed
    ensures !IsSafe(m) ==> (allowed <==> user == owner)
  {
    IsSafe(m) || owner == user
  }

  /** IsSenderOrReceiver.has_object_permission. */
  function IsSenderOrReceiver(user: User, req: FriendRequest): (allowed: bool)
    ensures allowed <==> Involves(req, user)
  {
    user == req.sender || user == req.receiver
  }

  /** IsOwnerOrCollaborator.has_permission: reads are open to everyone,
      anything else needs an authenticated user. */
  function OwnerOrCollaboratorHasPermission(m: HttpMethod, authenticated: bool): (allowed: bool)
    ensures allowed <==> IsSafe(m) || authenticated
  {
    if IsSafe(m) then true else authenticated
  }

  /** IsOwnerOrCollaborator.has_object_permission: the owner or a
      collaborator, whatever the method. */
  function OwnerOrCollaboratorHasObjectPermission(user: User, owner: User, collaborators: seq<User>): (allowed: bool)
    ensures allowed <==> user == owner || user in collaborators
  {
    if user == owner then true
    else if user in collaborators then true
    else false
  }

  /** IsOwnerOrCollaboratorReadOnly.has_object_permission: collaborators may
      read; only the owner may do anything else. */
  function OwnerOrCollaboratorReadOnly(m: HttpMethod, user: User, owner: User, collaborators: seq<User>): (allowed: bool)
    ensures !IsSafe(m) ==> (allowed <==> user == owner)
    ensures IsSafe(m) ==> (allowed <==> user == owner || user in collaborators)
  {
    if IsSafe(m) && user in collaborators then true
    else owner == user
  }

  /** Whatever the read-only variant grants, the full variant grants too; on
      a safe method the two agree. */
  lemma ReadOnlyGrantsNoMore(m: HttpMethod, user: User, owner: User, collaborators: seq<User>)
    ensures OwnerOrCollaboratorReadOnly(m, user, owner, collaborators) ==>
      OwnerOrCollaboratorHasObjectPermission(user, owner, collaborators)
    ensures IsSafe(m) ==>
      OwnerOrCollaboratorReadOnly(m, user, owner, collaborators) ==
      OwnerOrCollaboratorHasObjectPermission(user, owner, collaborators)
  {
  }

  /** On a write, the read-only variant is exactly IsOwnerOrReadOnly. */
  lemma ReadOnlyWriteIsOwnerOnly(m: HttpMethod, user: User, owner: User, collaborators: seq<User>)
    requires !IsSafe(m)
    ensures OwnerOrCollaboratorReadOnly(m, user, owner, collaborators) == IsOwnerOrReadOnly(m, user, owner)
  {
  }
}

# Friendship subsystem of forget-me-not-drf, in Dafny

This project models the friendship core of a Django REST backend for
profiles, projects and tasks, and proves properties of that model.

- Each user owns one **FriendList**, a set of friends.
- Users send **FriendRequest**s. A request carries a sender, a receiver and
  one boolean `is_active`.
- `accept` writes the edge into both lists. `decline` and `cancel` only
  clear `is_active`.

Around that core the project also models:

- the permission predicates;
- the user-creation hook, which gives every user a Profile and an empty
  FriendList;
- the small validators and derived fields of the project and task
  serializers.

## Layout

| file | module | models |
|---|---|---|
| `wrappers.dfy` | `Wrappers` | `Option`, `Result`, and `Effect`: the state an operation left behind, plus whether an exception escaped part-way |
| `users.dfy` | `Users` | the auth `User` (id, username) and `collaborator_details` |
| `friend_models.dfy` | `FriendModels` | `FriendList` and `FriendRequest` (friends/models.py) |
| `friend_serializers.dfy` | `FriendSerializers` | friends/serializers.py |
| `friend_views.dfy` | `FriendViews` | friends/views.py |
| `friend_properties.dfy` | `FriendProperties` | invariants kept by every operation, and end-to-end scenarios |
| `permissions.dfy` | `Permissions` | drf_api/permissions.py |
| `profiles.dfy` | `Profiles` | profiles/models.py |
| `project_models.dfy` | `ProjectModels` | the Project and Task records and the Task table filters |
| `project_serializers.dfy` | `ProjectSerializers` | projects/serializers.py |
| `task_serializers.dfy` | `TaskSerializers` | tasks/serializers.py |

## How the model is built

The database is two tables.

- The FriendList table is `map<User, set<User>>`, keyed by the one-to-one
  owner field.
- The FriendRequest table is `seq<FriendRequest>`. A request's id is its
  position in the table.

The class `FriendStore` holds both tables as fields. Its methods update the
tables in place, as the model methods do. Each method's `ensures` ties the
new tables to a function of the old ones (`AddedFriend`, `RemovedFriend`,
`Unfriended`, `Accepted`, `Deactivated`). The views compose these into
`Send` and `RespondAsWritten`. Lemmas about these functions carry the
properties.

`Consistent` is the invariant of the two tables. It holds when:

- friendship is symmetric;
- nobody is their own friend;
- no request is addressed to its own sender;
- at most one active request exists between two users, in either
  direction;
- every party to a request owns a friend list.

The lemmas in `FriendProperties` prove:

- decline, cancel and accept keep it. From a consistent state both parties
  own a list, so accept cannot raise there; its raising paths break
  symmetry, as `AcceptWithoutSenderListIsPartial` shows;
- unfriend keeps it on both paths, including the one that raises part-way;
- the serializer update, both versions of the respond view, and the
  creation of a new user's empty list keep it too;
- a successful send keeps it when both parties own a friend list.

`add_friend` and `remove_friend` on their own change one side of an edge
only, so alone they break symmetry. They keep it only as the two halves of
`accept` and `unfriend`.

A few choices made in the model:

- **Missing friend lists.** When a FriendList is missing, the ORM raises
  `DoesNotExist`. The model does not forbid this case. It models the path:
  `accept` and `unfriend` return `Effect(after, raised)`, where `after` holds
  the half-done update that the code leaves behind, since nothing runs in a
  transaction.
- **The already-friends check.** `sender.friends.filter(pk=receiver.pk)`
  goes through the reverse relation and compares a FriendList id with a user
  id. The model assumes that a FriendList's id equals its owner's id. Under
  that assumption the check reads "the sender is in the receiver's list".
- **Flag masks.** The flag masks of `RespondToFriendRequestSerializer.__init__`
  are a function, `WritableFlags`. That constructor only computes which
  fields are read-only, once, and `update` then reads the flags that remain.
  A flag that is absent and a flag that is false behave the same (`if cancel:`),
  so each flag is a `bool`.
- **How the instance reaches `__init__`.** `__init__` reads the instance
  with `kwargs.get('instance')`. DRF's generic update view passes the
  instance positionally, so on the respond view's update path that lookup
  gives None and no mask is set. `RespondAsWritten` therefore passes `None`
  to `WritableFlags`, and the flags reach `update` as sent. Only the
  corrected `Respond` passes the instance, since applying the masks is part
  of what it corrects (see Findings).
- **Status.** The status is the single boolean the code has. Accepted,
  declined and cancelled requests are not distinguished. None of
  `accept`/`decline`/`cancel` checks the current state or who is acting.

## Model

| member | source | states |
|---|---|---|
| `Users.CollaboratorDetails` | projects/serializers.py:47-55 | one entry per collaborator, in order, carrying that collaborator's id and username (the same comprehension as tasks/serializers.py:38-46 and 123-131) |
| `FriendModels.AddedFriend` | friends/models.py:13-18 | after add_friend the account is in the owner's list; nothing else in that list changes; no other list changes |
| `FriendModels.FriendStore.AddFriend` | friends/models.py:13-18 | the in-place update yields exactly `AddedFriend` of the old lists; the request table is untouched |
| `FriendModels.AddFriendIdempotent` | friends/models.py:13-18 | adding twice is adding once; adding a present friend leaves the lists unchanged |
| `FriendModels.RemovedFriend` | friends/models.py:20-25 | after remove_friend the account is not in the owner's list; nothing else changes |
| `FriendModels.FriendStore.RemoveFriend` | friends/models.py:20-25 | the in-place update yields exactly `RemovedFriend` of the old lists |
| `FriendModels.RemoveFriendIdempotent` | friends/models.py:20-25 | removing twice is removing once; removing a non-friend leaves the lists unchanged |
| `FriendModels.Unfriended` | friends/models.py:27-34 | removes the removee from the owner's list and the owner from the removee's; raises exactly when the removee has no list, with the owner's half already done; no other list changes |
| `FriendModels.FriendStore.Unfriend` | friends/models.py:27-34 | the in-place update and the raised flag are exactly `Unfriended` of the old lists |
| `FriendModels.UnfriendPreservesSymmetry` | friends/models.py:27-34 | a symmetric graph stays symmetric after unfriend, however it ends |
| `FriendModels.MutualFriendIsSymmetric` | friends/models.py:36-42 | on a symmetric graph, is_mutual_friend gives the same answer from either side |
| `FriendModels.MutualFriendConsultsOneSide` | friends/models.py:36-42 | is_mutual_friend looks at one list only: on a one-sided graph its two directions disagree |
| `FriendModels.IsMutualFriend` | friends/models.py:36-42 | true exactly when add_friend on the owner's list would change nothing; when true, remove_friend would change the list |
| `FriendModels.Accepted` | friends/models.py:56-68 | adds the sender to the receiver's list and the receiver to the sender's list, and only those edges; a missing receiver list raises before any write and changes nothing; a missing sender list leaves the receiver's half done; clears is_active only when both lists exist; is_active is never consulted |
| `FriendModels.FriendStore.Accept` | friends/models.py:56-68 | the in-place update and the raised flag are exactly `Accepted` of the old tables |
| `FriendModels.AcceptPreservesSymmetry` | friends/models.py:56-68 | with both lists present, accept keeps the graph symmetric |
| `FriendModels.AcceptIdempotent` | friends/models.py:56-68 | accepting an accepted request again changes nothing |
| `FriendModels.AcceptWithoutSenderListIsPartial` | friends/models.py:61-66 | when the sender has no list, accept raises and leaves a symmetric graph one-sided |
| `FriendModels.Deactivated` | friends/models.py:70-84 | only the request's is_active changes, to false; its parties and every other request are unchanged; on an inactive request it changes nothing |
| `FriendModels.FriendStore.Decline` | friends/models.py:70-76 | decline clears is_active and leaves every friend list unchanged |
| `FriendModels.FriendStore.Cancel` | friends/models.py:78-84 | cancel clears is_active and leaves every friend list unchanged |
| `FriendModels.FriendStore.CreateFriendRequest` | friends/models.py:48-51 | a new row with the next id, the given parties and is_active true; nothing else changes |
| `FriendModels.FriendStore.CreateFriendList` | friends/models.py:7-8 | a new empty list for the owner; a second list for the same owner is refused (one-to-one owner) |
| `FriendSerializers.OtherParty` | friends/serializers.py:61-70 | for a party to the request, the other party (get_friend_profile_id and get_friend_username; also lines 38-41) |
| `FriendSerializers.FriendProfileId` | friends/serializers.py:61-64 | for the receiver, the sender's id; for the sender of a request to someone else, the receiver's id |
| `FriendSerializers.FriendUsername` | friends/serializers.py:66-70 | for the receiver, the sender's username; for the sender of a request to someone else, the receiver's username |
| `FriendSerializers.GetFriendDetails` | friends/serializers.py:16-36 | at most one entry per friend, so no more entries than friends; a friend gets an entry exactly when an inactive request connects them to the owner; each entry names that request and the other party's id |
| `FriendSerializers.DetailUpdate` | friends/serializers.py:72-79 | the unfriend path is taken exactly when the flag is truthy; otherwise the instance is returned unchanged |
| `FriendSerializers.ValidateSendData` | friends/serializers.py:96-103 | rejects exactly the requests whose sender is the receiver; passes the rest through unchanged |
| `FriendSerializers.CreateSendRequest` | friends/serializers.py:105-111 | the stored sender is the request user, whatever the validated data holds |
| `FriendSerializers.WritableFlags` | friends/serializers.py:184-196 | with an instance: for the sender, accept and decline are dropped; for any other receiver, cancel is dropped; without an instance nothing is dropped; masks never set a flag |
| `FriendSerializers.SenderCanOnlyCancel` | friends/serializers.py:184-196 | through the masks, a sender's update can only cancel or do nothing |
| `FriendSerializers.ReceiverCannotCancel` | friends/serializers.py:184-196 | through the masks, a receiver's update never cancels |
| `FriendSerializers.ChosenTransition` | friends/serializers.py:169-182 | cancel wins over accept, which wins over decline; no flag, no transition |
| `FriendSerializers.Updated` | friends/serializers.py:169-182 | at most one transition: none leaves the tables unchanged; cancel or decline only deactivates; only accept touches a friend list |
| `FriendSerializers.RespondUpdate` | friends/serializers.py:169-182 | the dispatch to the model methods yields exactly `Updated` of the old tables |
| `FriendViews.Send` | friends/views.py:56-99 | a request is stored exactly when no guard fails; it is one new active row with the authenticated user as sender; on any failure nothing changes |
| `FriendViews.SendGuardOrder` | friends/views.py:63-86 | self-request, then duplicate, then already-friends, then reciprocal: the first failing guard decides the error |
| `FriendViews.HasActiveRequest` | friends/views.py:64-66 | some active row has that sender and that receiver (the filter of lines 64-66, and of lines 80-82 with the roles swapped) |
| `FriendViews.AlreadyFriends` | friends/views.py:73 | the sender is in the receiver's list, taking a friend list's id to be its owner's id |
| `FriendViews.PendingRequestIsListed` | friends/views.py:64-66 | an active request from the sender to the receiver exists exactly when one is among the sender's active requests as listed at lines 137-141 |
| `FriendViews.SendFriendRequest` | friends/views.py:56-99 | the view's sequential guards and insert produce exactly `Send` of the old tables |
| `FriendViews.GetRequestFor` | friends/views.py:37-46 | finds the request with the id only when the user is its sender or receiver (same lookup as lines 111-120) |
| `FriendViews.ActiveRequests` | friends/views.py:137-141 | exactly the ids of the active requests the user sent or received, each once, in increasing order |
| `FriendViews.PerformUpdateAsWritten` | friends/views.py:122-127 | if `update` raised, that state stands; if the request is still active after `update`, the result is exactly accept on that state; otherwise the second decline changes nothing; with both lists present no exception escapes, and the request ends inactive |
| `FriendViews.PerformUpdate` | friends/views.py:122-127 | the save followed by the second transition yields exactly `PerformUpdateAsWritten` of the old tables |
| `FriendViews.RespondAsWritten` | friends/views.py:111-127 | not found exactly when the lookup fails, and then nothing changes; otherwise the new tables and the server-error outcome are exactly those of `PerformUpdateAsWritten` on the flags as sent, unmasked (the instance arrives positionally, friends/serializers.py:188); a completed response leaves the request inactive |
| `FriendViews.RespondToFriendRequest` | friends/views.py:111-127 | the view's lookup and update produce exactly `RespondAsWritten` of the old tables |
| `FriendViews.Respond` | friends/views.py:122-123 | the corrected view, with the instance passed by keyword so the masks apply, and a perform_update that only saves: a friend list changes only when the acting user is the request's receiver and not its sender; a response with no flag changes nothing |
| `FriendViews.SenderAcceptsOwnRequest` | friends/serializers.py:177-178 | as written, a sender who asks to accept their own active request makes the two users friends: no mask is set, and `update` accepts |
| `FriendViews.EmptyResponseAccepts` | friends/views.py:122-127 | as written, a receiver who sends no flag accepts the request |
| `FriendViews.ReceiverCancelCancels` | friends/views.py:122-127 | as written, a receiver's cancel reaches `update` unmasked: the request becomes inactive, the second transition changes nothing, and no friend list changes |
| `FriendProperties.DeactivatePreservesConsistency` | friends/models.py:70-84 | decline and cancel keep the tables consistent |
| `FriendProperties.AcceptPreservesConsistency` | friends/models.py:56-68 | accept keeps the tables consistent, including "nobody is their own friend" |
| `FriendProperties.UpdatePreservesConsistency` | friends/serializers.py:169-182 | the serializer update keeps the tables consistent |
| `FriendProperties.PerformUpdatePreservesConsistency` | friends/views.py:122-127 | perform_update as written keeps the tables consistent |
| `FriendProperties.RespondPreservesConsistency` | friends/views.py:111-127 | both versions of the respond view keep the tables consistent |
| `FriendProperties.SendPreservesConsistency` | friends/views.py:63-99 | a successful send keeps at most one active request between two users and no self-request |
| `FriendProperties.UnfriendPreservesConsistency` | friends/models.py:27-34 | unfriend keeps the tables consistent |
| `FriendProperties.LookupImpliesPermission` | drf_api/permissions.py:19-20 | the lookup succeeds exactly when IsSenderOrReceiver holds for the request with that id |
| `FriendProperties.SendThenAccept` | friends/views.py:56-127 | one user sends and the other accepts: both lists name each other, the request is inactive, a new send either way is refused as already friends, and both versions of the view agree |
| `FriendProperties.PendingRequestBlocksSends` | friends/views.py:63-86 | while a request is pending, a send in the same direction is a duplicate and one in the other direction is reciprocal |
| `FriendProperties.UnfriendRoundTrip` | friends/models.py:27-68 | after an accept, unfriend removes the edge on both sides without raising and leaves the accepted request inactive |
| `Permissions.IsOwnerOrReadOnly` | drf_api/permissions.py:8-11 | safe methods are always allowed; any other method is allowed exactly for the owner |
| `Permissions.IsSenderOrReceiver` | drf_api/permissions.py:19-20 | allowed exactly for the request's sender or receiver |
| `Permissions.OwnerOrCollaboratorHasPermission` | drf_api/permissions.py:28-31 | safe methods are allowed; any other method needs an authenticated user |
| `Permissions.OwnerOrCollaboratorHasObjectPermission` | drf_api/permissions.py:33-38 | allowed exactly for the owner or a collaborator, whatever the method |
| `Permissions.OwnerOrCollaboratorReadOnly` | drf_api/permissions.py:46-52 | a non-safe method is allowed only for the owner; a safe method for the owner or a collaborator |
| `Permissions.ReadOnlyGrantsNoMore` | drf_api/permissions.py:33-52 | whatever the read-only variant grants, the full variant grants; on safe methods they agree |
| `Permissions.ReadOnlyWriteIsOwnerOnly` | drf_api/permissions.py:4-52 | on a write, the read-only variant is IsOwnerOrReadOnly |
| `Profiles.NewProfile` | profiles/models.py:11-19 | a new profile is owned by the user, has empty name, bio and email, and the default image |
| `Profiles.ProfileStore.CreateProfileRow` | profiles/models.py:11 | a new profile for the owner; a second profile for the same owner is refused (one-to-one owner) |
| `Profiles.CreateProfile` | profiles/models.py:28-36 | when created, exactly one Profile and one empty FriendList for the new user; when not created, nothing changes; the request table never changes |
| `Profiles.NewFriendListKeepsInvariants` | profiles/models.py:36 | a new user's empty list keeps the tables consistent |
| `ProjectModels.TasksPartition` | projects/serializers.py:152-193 | the completed and uncompleted tasks of a project together are exactly its tasks, as multisets and by count |
| `ProjectModels.TasksOf` | projects/serializers.py:157 | the tasks of the project with the given completion state, each taken from the table, none missed, no more than the table holds (the filters of lines 80, 86 and 178 too) |
| `ProjectModels.ProjectTasks` | tasks/models.py:18 | the tasks whose project foreign key is the project (the reference the completion filters split), each taken from the table, none missed, no more than the table holds |
| `ProjectSerializers.ValidateImage` | projects/serializers.py:26-38 | rejects size over 2 MB, then width over 4096, then height over 4096, in that order; otherwise returns the value unchanged |
| `ProjectSerializers.ImageBoundsInclusive` | projects/serializers.py:30-38 | the exact bounds are accepted; one past each bound is rejected with that bound's error |
| `ProjectSerializers.IsOwner` | projects/serializers.py:40-45 | true exactly when the user is the project's owner |
| `ProjectSerializers.IsCollaborator` | projects/serializers.py:57-62 | true exactly when the user is among the project's collaborators |
| `ProjectSerializers.CompletedTaskCount` | projects/serializers.py:76-80 | zero exactly when no task of the project is complete; never more than the tasks in the table |
| `ProjectSerializers.UncompletedTaskCount` | projects/serializers.py:82-86 | zero exactly when every task of the project is complete; never more than the tasks in the table |
| `ProjectSerializers.ProjectFlagsMatchPermissions` | projects/serializers.py:40-62 | owner-or-collaborator is the object permission IsOwnerOrCollaborator; on writes, owner is IsOwnerOrReadOnly |
| `ProjectSerializers.TaskCountsAddUp` | projects/serializers.py:76-86 | the completed count plus the uncompleted count is the number of tasks in the project |
| `ProjectSerializers.TaskData` | projects/serializers.py:152-193 | one entry per task of the project with the given completion state, in order, with its id and title; is_owner exactly when the user owns the task; is_collaborator exactly when the user collaborates on it |
| `TaskSerializers.ValidateProject` | tasks/serializers.py:74-82 | rejects exactly the projects the user does not own; returns the rest unchanged |
| `TaskSerializers.IsOwner` | tasks/serializers.py:24-29 | true exactly when the user owns the task (same as lines 109-114) |
| `TaskSerializers.IsCollaborator` | tasks/serializers.py:31-36 | true exactly when the user is among the task's collaborators (same as lines 116-121) |
| `TaskSerializers.ProjectTitle` | tasks/serializers.py:48-52 | the title of the task's project |
| `TaskSerializers.TaskFlagsMatchPermissions` | tasks/serializers.py:24-36 | owner-or-collaborator is IsOwnerOrCollaborator; on writes, owner is IsOwnerOrCollaboratorReadOnly |

## Findings

| source | as written | input that shows it | evidently intended | confidence | as-written member | corrected member |
|---|---|---|---|---|---|---|
| friends/serializers.py:184-196 | The role masks are set only when `__init__` receives the instance by keyword. The generic update view passes it positionally, so on the respond path the masks are never set. | The sender PATCHes their own active request with `accept: true`. The flag reaches `update` (lines 177-178), which accepts, and the two users become friends without the receiver acting. | The sender can only cancel and the receiver can only accept or decline, so only the receiver can make the two friends. | medium; not executed | `FriendViews.RespondAsWritten` (shown by `FriendViews.SenderAcceptsOwnRequest`) | `FriendViews.Respond` |
| friends/views.py:122-127 | After `serializer.save()` has applied the flags, `perform_update` accepts any request that is still active. | The receiver PATCHes their request with no flag set. `update` changes nothing, and `perform_update` then accepts the request. | Only the transition the flags choose takes place, so a response with no flag leaves the request pending. | medium; not executed | `FriendViews.PerformUpdateAsWritten` (shown by `FriendViews.EmptyResponseAccepts`) | `FriendViews.Respond` |

## Left out

- I/O and the framework: HTTP status codes, Response objects, URL routing,
  serializer `Meta` and field declarations, and authentication are not
  modelled. The acting user and `is_authenticated` are parameters.
- The lookup of the receiver by primary key: a send takes the receiver as a
  user who exists. The validation error for an unknown id is not modelled.
- `created_at` and `updated_at`, `naturaltime` formatting, image URLs and
  file storage are not modelled. `friend_image` is not part of a friend
  detail entry. Image size, width and height are plain numbers.
- Database ordering is not modelled. `.first()` in get_friend_details may
  pick any matching inactive request. Listings come back in id order.
- The generic DELETE of RespondToFriendRequestView is not modelled. It is
  DRF's default destroy, with no code in this repository. Rows are never
  removed, so a request's id is its position in the table.
- Concurrency is not modelled. The code has no locking and no atomic
  blocks. Each operation is one sequential step.
- `FriendDetailSerializer.update` calls `instance.unfriend()`, and
  FriendRequest defines no such method. `DetailUpdate` only says which path
  the flag selects; the failure of that call is shown as `None`.
- `TaskListSerializer.get_completed_tasks` refers to an undefined
  `TaskSerializer`. It is dead code and is not modelled.
- FriendListView.get_object and the `*_username` getters of the request
  serializers only pass stored fields through. projects/views.py and
  tasks/views.py repeat the permission predicates modelled here.
  profiles/views.py, profiles/serializers.py and drf_api/serializers.py only
  pass fields through.
- Object permissions are not re-checked after the lookup. The overridden
  `get_object` does not call DRF's object-permission check, and
  `LookupImpliesPermission` shows that the check would add nothing.

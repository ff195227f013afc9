/** The Django auth user as the models see it, and the collaborator
    summaries that the project and task serializers build from users. */
module Users {

  /** A user: its primary key and its (unique) username. Two users are the
      same user exactly when these values are equal. */
  datatype User = User(id: nat, username: string)

  /** One entry of `collaborator_details`. */
  datatype CollaboratorDetail = CollaboratorDetail(id: nat, collaboratorUsername: string)

  /** The `collaborator_details` list comprehension: one entry per
      collaborator, in the order of the collaborator queryset. */
  function CollaboratorDetails(collaborators: seq<User>): (details: seq<CollaboratorDetail>)
    ensures |details| == |collaborators|
    ensures forall k :: 0 <= k < |details| ==>
      details[k].id == collaborators[k].id &&
      details[k].collaboratorUsername == collaborators[k].username
  {
    if collaborators == [] then []
    else [CollaboratorDetail(collaborators[0].id, collaborators[0].username)]
         + CollaboratorDetails(collaborators[1..])
  }
}

/** The task serializers (tasks/serializers.py): TaskListSerializer and
    TaskDetailSerializer. Both define the same get_is_owner,
    get_is_collaborator and get_collaborator_details; each is modelled once
    (the collaborator details are Users.CollaboratorDetails). */
module TaskSerializers {
  import opened Users
  import opened Wrappers
  import opened ProjectModels
  import opened Permissions

  /** validate_project: the chosen project must belong to the requesting
      user. */
  function ValidateProject(value: Project, user: User): (r: Result<Project, string>)
    ensures r.Failure? <==> value.owner != user
    ensures r.Success? ==> r.value == value
  {
    if value.owner != user then Failure("You can only set the project to one where you are the owner.")
    else Success(value)
  }

  /** get_is_owner. */
  function IsOwner(user: User, t: Task): (r: bool)
    ensures r <==> user == t.owner
  {
    user == t.owner
  }

  /** get_is_collaborator. */
  function IsCollaborator(user: User, t: Task): (r: bool)
    ensures r <==> exists k :: 0 <= k < |t.collaborators| && t.collaborators[k] == user
  {
    user in t.collaborators
  }

  /** get_project_title: the title of the project the task points to (the
      foreign key always resolves). */
  function ProjectTitle(projects: map<nat, Project>, t: Task): (title: string)
    requires t.project in projects
    ensures title == projects[t.project].title
  {
    projects[t.project].title
  }

  /** The flags a task reports agree with the object permissions the task
      views use. */
  lemma TaskFlagsMatchPermissions(m: HttpMethod, user: User, t: Task)
    ensures IsOwner(user, t) || IsCollaborator(user, t) <==>
      OwnerOrCollaboratorHasObjectPermission(user, t.owner, t.collaborators)
    ensures !IsSafe(m) ==> (IsOwner(user, t) <==> OwnerOrCollaboratorReadOnly(m, user, t.owner, t.collaborators))
  {
  }
}

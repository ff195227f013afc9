/** The project serializers (projects/serializers.py):
    ProjectListSerializer and ProjectDetailSerializer. Both define the same
    validate_image, get_is_owner, get_is_collaborator and
    get_collaborator_details; each is modelled once. The requesting user is
    an explicit parameter. */
module ProjectSerializers {
  import opened Users
  import opened Wrappers
  import opened ProjectModels
  import opened Permissions

  /** 2 MB and 4096 px. */
  const MaxImageSize: nat := 1024 * 1024 * 2
  const MaxImageDimension: nat := 4096

  /** The uploaded image as validate_image sees it. */
  datatype ImageFile = ImageFile(size: nat, width: nat, height: nat)

  datatype ImageError = TooLarge | TooWide | TooTall

  /** validate_image: size, then width, then height; the value comes back
      unchanged when all three are within bounds. */
  function ValidateImage(value: ImageFile): (r: Result<ImageFile, ImageError>)
    ensures r.Success? <==>
      value.size <= MaxImageSize && value.width <= MaxImageDimension && value.height <= MaxImageDimension
    ensures r.Success? ==> r.value == value
    ensures r == Failure(TooLarge) <==> value.size > MaxImageSize
    ensures r == Failure(TooWide) <==> value.size <= MaxImageSize && value.width > MaxImageDimension
    ensures r == Failure(TooTall) <==>
      value.size <= MaxImageSize && value.width <= MaxImageDimension && value.height > MaxImageDimension
  {
    if value.size > 1024 * 1024 * 2 then Failure(TooLarge)
    else if value.width > 4096 then Failure(TooWide)
    else if value.height > 4096 then Failure(TooTall)
    else Success(value)
  }

  /** The bounds themselves are accepted; one past any of them is not. */
  lemma ImageBoundsInclusive()
    ensures ValidateImage(ImageFile(2097152, 4096, 4096)) == Success(ImageFile(2097152, 4096, 4096))
    ensures ValidateImage(ImageFile(2097153, 4096, 4096)) == Failure(TooLarge)
    ensures ValidateImage(ImageFile(2097152, 4097, 4096)) == Failure(TooWide)
    ensures ValidateImage(ImageFile(2097152, 4096, 4097)) == Failure(TooTall)
  {
  }

  /** get_is_owner. */
  function IsOwner(user: User, p: Project): (r: bool)
    ensures r <==> user == p.owner
  {
    user == p.owner
  }

  /** get_is_collaborator. */
  function IsCollaborator(user: User, p: Project): (r: bool)
    ensures r <==> exists k :: 0 <= k < |p.collaborators| && p.collaborators[k] == user
  {
    user in p.collaborators
  }

  /** The two flags a project reports agree with the object permissions the
      project views use. */
  lemma ProjectFlagsMatchPermissions(m: HttpMethod, user: User, p: Project)
    ensures IsOwner(user, p) || IsCollaborator(user, p) <==>
      OwnerOrCollaboratorHasObjectPermission(user, p.owner, p.collaborators)
    ensures !IsSafe(m) ==> (IsOwner(user, p) <==> IsOwnerOrReadOnly(m, user, p.owner))
  {
  }

  /** get_completed_task_count: zero exactly when no task of the project is
      complete. */
  function CompletedTaskCount(tasks: seq<Task>, p: Project): (n: nat)
    ensures n <= |tasks|
    ensures n == 0 <==> forall t :: t in tasks && t.project == p.id ==> !t.complete
  {
    var matching := TasksOf(tasks, p.id, true);
    assert matching != [] ==> matching[0] in tasks && matching[0].project == p.id && matching[0].complete == true;
    |matching|
  }

  /** get_uncompleted_task_count: zero exactly when every task of the
      project is complete. */
  function UncompletedTaskCount(tasks: seq<Task>, p: Project): (n: nat)
    ensures n <= |tasks|
    ensures n == 0 <==> forall t :: t in tasks && t.project == p.id ==> t.complete
  {
    var matching := TasksOf(tasks, p.id, false);
    assert matching != [] ==> matching[0] in tasks && matching[0].project == p.id && matching[0].complete == false;
    |matching|
  }

  /** The two counts add up to the number of tasks in the project. */
  lemma TaskCountsAddUp(tasks: seq<Task>, p: Project)
    ensures CompletedTaskCount(tasks, p) + UncompletedTaskCount(tasks, p) == |ProjectTasks(tasks, p.id)|
  {
    TasksPartition(tasks, p.id);
  }

  /** One entry of `completed_tasks` / `uncompleted_tasks`. */
  datatype TaskEntry = TaskEntry(id: nat, name: string, isOwner: bool, isCollaborator: bool)

  /** get_completed_tasks (complete = true) and get_uncompleted_tasks
      (complete = false): one entry per task of the project with that
      completion state, in order, flagged for the requesting user. */
  method TaskData(tasks: seq<Task>, p: Project, user: User, complete: bool) returns (data: seq<TaskEntry>)
    ensures |data| == |TasksOf(tasks, p.id, complete)|
    ensures forall k :: 0 <= k < |data| ==>
      var t := TasksOf(tasks, p.id, complete)[k];
      data[k].id == t.id && data[k].name == t.title &&
      (data[k].isOwner <==> t.owner == user) && (data[k].isCollaborator <==> user in t.collaborators)
  {
    var selected := TasksOf(tasks, p.id, complete);
    data := [];
    for i := 0 to |selected|
      invariant |data| == i
      invariant forall k :: 0 <= k < i ==>
        data[k].id == selected[k].id && data[k].name == selected[k].title &&
        (data[k].isOwner <==> selected[k].owner == user) &&
        (data[k].isCollaborator <==> user in selected[k].collaborators)
    {
      var task := selected[i];
      var isOwner := task.owner == user;
      var isCollaborator := user in task.collaborators;
      data := data + [TaskEntry(task.id, task.title, isOwner, isCollaborator)];
    }
  }
}

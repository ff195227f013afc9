/** The Project and Task records (projects/models.py, tasks/models.py), with
    the Task table queries the serializers run. Only the fields the
    serializers read are kept. */
module ProjectModels {
  import opened Users

  datatype Project = Project(id: nat, owner: User, title: string, collaborators: seq<User>, complete: bool)

  /** A Task row; `project` is the id of the project it belongs to. */
  datatype Task = Task(id: nat, owner: User, project: nat, title: string, collaborators: seq<User>, complete: bool)

  /** Task.objects.filter(project=..., complete=...), in table order. */
  function TasksOf(tasks: seq<Task>, projectId: nat, complete: bool): (r: seq<Task>)
    ensures |r| <= |tasks|
    ensures forall k :: 0 <= k < |r| ==> r[k] in tasks && r[k].project == projectId && r[k].complete == complete
    ensures forall t :: t in tasks && t.project == projectId && t.complete == complete ==> t in r
  {
    if tasks == [] then []
    else
      var rest := TasksOf(tasks[1..], projectId, complete);
      if tasks[0].project == projectId && tasks[0].complete == complete then [tasks[0]] + rest else rest
  }

  /** Task.objects.filter(project=...), in table order. */
  function ProjectTasks(tasks: seq<Task>, projectId: nat): (r: seq<Task>)
    ensures |r| <= |tasks|
    ensures forall k :: 0 <= k < |r| ==> r[k] in tasks && r[k].project == projectId
    ensures forall t :: t in tasks && t.project == projectId ==> t in r
  {
    if tasks == [] then []
    else
      var rest := ProjectTasks(tasks[1..], projectId);
      if tasks[0].project == projectId then [tasks[0]] + rest else rest
  }

  /** The completed and the uncompleted tasks of a project split its tasks
      between them: together they hold each task exactly as often. */
  lemma {:induction false} TasksPartition(tasks: seq<Task>, projectId: nat)
    ensures multiset(TasksOf(tasks, projectId, true)) + multiset(TasksOf(tasks, projectId, false))
         == multiset(ProjectTasks(tasks, projectId))
    ensures |TasksOf(tasks, projectId, true)| + |TasksOf(tasks, projectId, false)|
         == |ProjectTasks(tasks, projectId)|
  {
    if tasks != [] {
      TasksPartition(tasks[1..], projectId);
      var done, open := TasksOf(tasks, projectId, true), TasksOf(tasks, projectId, false);
      assert |done| == |multiset(done)| && |open| == |multiset(open)|;
      assert |ProjectTasks(tasks, projectId)| == |multiset(ProjectTasks(tasks, projectId))|;
    }
  }
}

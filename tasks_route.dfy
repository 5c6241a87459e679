/** `GET /api/tasks`: the caller's tasks, most recently created first. */
module TasksRoute {
  import opened Js
  import opened Records
  import opened Sorting
  import opened Query
  import AnalyzeRoute

  /** The sort key of the task list. */
  function TaskCreatedAt(t: Task): int { t.createdAt }

  /** The tasks the user with local id `owner` owns, newest first. */
  function OwnedTasks(tasks: seq<Task>, owner: Id): seq<Task> {
    FindSorted(tasks, (t: Task) => t.user == owner, TaskCreatedAt)
  }

  /** The handler over a snapshot of the users and tasks collections. */
  function ListTasks(clerkId: Option<string>, users: map<string, User>, tasks: seq<Task>, fault: Fault)
    : (r: Response)
    ensures r.status == 200 <==> ResolveCaller(clerkId, users, fault).Ok? && fault != QueryThrows
    ensures ResolveCaller(clerkId, users, fault).Err? ==> r == ResolveCaller(clerkId, users, fault).error
    ensures ResolveCaller(clerkId, users, fault).Ok? && fault == QueryThrows ==> r == InternalError
    ensures r.status == 200 ==>
      && r.body.TaskList?
      && SortedDesc(r.body.tasks, TaskCreatedAt)
      && multiset(r.body.tasks) == multiset(Where(tasks, (t: Task) => t.user == users[clerkId.value].id))
  {
    var caller := ResolveCaller(clerkId, users, fault);
    if caller.Err? then caller.error
    else if fault == QueryThrows then InternalError
    else Response(200, TaskList(OwnedTasks(tasks, caller.value.id)))
  }

  /** A successful listing holds exactly the caller's tasks. */
  lemma ListTasksOwned(clerkId: Option<string>, users: map<string, User>, tasks: seq<Task>, fault: Fault)
    requires ListTasks(clerkId, users, tasks, fault).status == 200
    ensures var listed := ListTasks(clerkId, users, tasks, fault).body.tasks;
      forall t :: t in listed <==> t in tasks && t.user == users[clerkId.value].id
  {
    FindSortedMembers(tasks, (t: Task) => t.user == users[clerkId.value].id, TaskCreatedAt);
  }

  /** The tasks an analysis saves for the caller all appear in the caller's next
      task listing. */
  lemma AnalyzedTasksListed(clerkId: Option<string>, users: map<string, User>, olds: seq<Task>,
                            items: seq<AnalyzeRoute.TaskItem>, meetingId: Id, firstId: Id, now: int)
    requires Truthy(clerkId) && clerkId.value in users
    ensures var saved := AnalyzeRoute.NewTasks(items, meetingId, users[clerkId.value].id, firstId, now);
      && ListTasks(clerkId, users, olds + saved, NoFault).status == 200
      && forall t :: t in saved ==> t in ListTasks(clerkId, users, olds + saved, NoFault).body.tasks
  {
    var owner := users[clerkId.value].id;
    var saved := AnalyzeRoute.NewTasks(items, meetingId, owner, firstId, now);
    ListTasksOwned(clerkId, users, olds + saved, NoFault);
    forall t | t in saved ensures t.user == owner {
      var i :| 0 <= i < |saved| && saved[i] == t;
      AnalyzeRoute.NewTasksAt(items, meetingId, owner, firstId, now, i);
    }
  }
}

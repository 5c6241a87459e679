/** The dashboard home: four headline figures, the first high-priority tasks and
    the most recent meetings. It works on the dashboard's task vocabulary, whose
    statuses and priorities are lower-case (`completed`, `high`). */
module HomeView {
  import opened Query

  /** The task fields the home view reads. */
  datatype HomeTask = HomeTask(id: string, title: string, status: string, priority: string,
                               category: string, owner: string)

  datatype StatValue = Count(n: nat) | Text(text: string)
  datatype Stat = Stat(caption: string, value: StatValue)

  function Min(a: int, b: int): int { if a <= b then a else b }

  function NotCompleted(): HomeTask -> bool {
    (t: HomeTask) => t.status != "completed"
  }

  function IsCompleted(): HomeTask -> bool {
    (t: HomeTask) => t.status == "completed"
  }

  /** Every task is either pending or completed, so the pending figure never
      exceeds the task count and is what is left once the completed tasks are
      taken away. */
  lemma {:induction false} PendingSplit(tasks: seq<HomeTask>)
    ensures |Where(tasks, NotCompleted())| + |Where(tasks, IsCompleted())| == |tasks|
    ensures |Where(tasks, NotCompleted())| <= |tasks|
  {
    if tasks != [] {
      PendingSplit(tasks[1..]);
    }
  }

  /** The stat cards, in order. */
  function Stats<M>(meetings: seq<M>, tasks: seq<HomeTask>): (r: seq<Stat>)
    ensures |r| == 4
    ensures r[0] == Stat("Analysed", Count(|meetings|))
    ensures r[1] == Stat("Tasks", Count(|tasks|))
    ensures r[2].caption == "Pending" && r[2].value.Count?
    ensures r[2].value.n == |tasks| - |Where(tasks, IsCompleted())| && r[2].value.n <= |tasks|
    ensures r[3] == Stat("Resolution", Text("84%"))
  {
    PendingSplit(tasks);
    [Stat("Analysed", Count(|meetings|)), Stat("Tasks", Count(|tasks|)),
     Stat("Pending", Count(|Where(tasks, NotCompleted())|)), Stat("Resolution", Text("84%"))]
  }

  function IsHigh(): HomeTask -> bool {
    (t: HomeTask) => t.priority == "high"
  }

  /** `tasks.filter(t => t.priority === 'high').slice(0, 4)`. */
  function HighPriority(tasks: seq<HomeTask>): seq<HomeTask> {
    var high := Where(tasks, IsHigh());
    high[..Min(4, |high|)]
  }

  /** The panel shows at most four tasks, all of high priority, and they are the
      first high-priority tasks in list order: a prefix of all of them, and all
      of them when there are at most four. */
  lemma HighPriorityPanel(tasks: seq<HomeTask>)
    ensures var high := Where(tasks, IsHigh());
      && |HighPriority(tasks)| == Min(4, |high|)
      && HighPriority(tasks) <= high
      && (forall t :: t in HighPriority(tasks) ==> t in tasks && t.priority == "high")
      && (|high| <= 4 ==> HighPriority(tasks) == high)
  {
    var high := Where(tasks, IsHigh());
    WhereMembers(tasks, IsHigh());
    assert forall t :: t in HighPriority(tasks) ==> t in high;
  }

  /** `meetings.slice(0, 3)`. */
  function Recent<M>(meetings: seq<M>): (r: seq<M>)
    ensures |r| == Min(3, |meetings|)
    ensures r <= meetings
  {
    meetings[..Min(3, |meetings|)]
  }
}

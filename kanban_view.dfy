/** The task board: the list of the user's active tasks, kept in step with the
    server by create, update, delete and status-move handlers, shown through a
    search/priority filter as four status columns. */
module KanbanView {
  import opened Js
  import opened Query
  import opened KanbanColumn

  /** `t.suggested === false`: a task the user accepted (or made). */
  function IsActive(): BoardTask -> bool {
    (t: BoardTask) => t.suggested == Some(false)
  }

  /** `t.suggested === true`: a task still awaiting review on its meeting page. */
  function IsSuggested(): BoardTask -> bool {
    (t: BoardTask) => t.suggested == Some(true)
  }

  /** The board's list after a fetch. */
  function ActiveTasks(data: seq<BoardTask>): seq<BoardTask> {
    Where(data, IsActive())
  }

  /** The board holds exactly the fetched active tasks, and none of them is one of
      the suggested tasks a meeting page lists for review. */
  lemma ActiveTasksExact(data: seq<BoardTask>)
    ensures forall t :: t in ActiveTasks(data) <==> t in data && t.suggested == Some(false)
    ensures forall t :: t in ActiveTasks(data) ==> t !in Where(data, IsSuggested())
  {
    WhereMembers(data, IsActive());
    WhereMembers(data, IsSuggested());
  }

  /** `prev.map(t => t.id === u.id ? u : t)`. */
  function ReplaceById(ts: seq<BoardTask>, u: BoardTask): seq<BoardTask> {
    Replace(ts, (t: BoardTask) => t.id == u.id, u)
  }

  /** Replacing by id twice with the same task is replacing once. */
  lemma ReplaceByIdIdempotent(ts: seq<BoardTask>, u: BoardTask)
    ensures ReplaceById(ReplaceById(ts, u), u) == ReplaceById(ts, u)
  {
    var r := ReplaceById(ts, u);
    var rr := ReplaceById(r, u);
    forall i | 0 <= i < |ts| ensures rr[i] == r[i] {
    }
  }

  /** A list with no task of that id is left as it is. */
  lemma ReplaceByIdAbsent(ts: seq<BoardTask>, u: BoardTask)
    requires forall t :: t in ts ==> t.id != u.id
    ensures ReplaceById(ts, u) == ts
  {
    forall i | 0 <= i < |ts| ensures ReplaceById(ts, u)[i] == ts[i] {
      assert ts[i] in ts;
    }
  }

  /** `prev.filter(t => t.id !== id)`. */
  function RemoveById(ts: seq<BoardTask>, id: string): seq<BoardTask> {
    Where(ts, (t: BoardTask) => t.id != id)
  }

  /** Deleting keeps exactly the tasks with another id, and splits over
      concatenation, so the kept tasks stay in order. */
  lemma RemoveByIdProperties(ts: seq<BoardTask>, id: string)
    ensures forall t :: t in RemoveById(ts, id) <==> t in ts && t.id != id
    ensures forall a, b :: ts == a + b ==> RemoveById(ts, id) == RemoveById(a, id) + RemoveById(b, id)
  {
    WhereMembers(ts, (t: BoardTask) => t.id != id);
    forall a, b | ts == a + b ensures RemoveById(ts, id) == RemoveById(a, id) + RemoveById(b, id) {
      WhereAppend(a, b, (t: BoardTask) => t.id != id);
    }
  }

  /** Deleting an id no task has leaves the list unchanged. */
  lemma {:induction false} RemoveByIdAbsent(ts: seq<BoardTask>, id: string)
    requires forall t :: t in ts ==> t.id != id
    ensures RemoveById(ts, id) == ts
  {
    if ts != [] {
      assert ts[0] in ts;
      RemoveByIdAbsent(ts[1..], id);
    }
  }

  /** `prev.map(t => t.id === id ? { ...t, status } : t)`. */
  function SetStatus(ts: seq<BoardTask>, id: string, status: string): (r: seq<BoardTask>)
    ensures |r| == |ts|
  {
    if ts == [] then []
    else [if ts[0].id == id then ts[0].(status := status) else ts[0]] + SetStatus(ts[1..], id, status)
  }

  /** A move changes only the status of the tasks with that id, and moving twice
      to the same status is moving once. */
  lemma {:induction false} SetStatusProperties(ts: seq<BoardTask>, id: string, status: string)
    ensures forall i :: 0 <= i < |ts| ==>
      SetStatus(ts, id, status)[i] == if ts[i].id == id then ts[i].(status := status) else ts[i]
    ensures SetStatus(SetStatus(ts, id, status), id, status) == SetStatus(ts, id, status)
  {
    if ts != [] {
      SetStatusProperties(ts[1..], id, status);
    }
  }

  /** The search test: the lower-cased query occurs in the lower-cased title,
      description or some tag. */
  predicate MatchesSearch(t: BoardTask, query: string) {
    var q := Lower(query);
    || Includes(Lower(t.title), q)
    || Includes(Lower(t.description), q)
    || exists tag :: tag in t.tags && Includes(Lower(tag), q)
  }

  /** The priority test: `All` lets every task through; any other value asks for
      exactly that priority. */
  predicate MatchesPriority(t: BoardTask, filter: string) {
    filter == "All" || t.priority == filter
  }

  /** An empty query matches every task, and the query's letter case does not
      matter. */
  lemma SearchProperties(t: BoardTask, query: string)
    ensures MatchesSearch(t, "")
    ensures MatchesSearch(t, query) <==> MatchesSearch(t, Lower(query))
  {
    IncludesEmpty(Lower(t.title));
    LowerIdempotent(query);
  }

  function Shown(query: string, filter: string): BoardTask -> bool {
    (t: BoardTask) => MatchesSearch(t, query) && MatchesPriority(t, filter)
  }

  /** `filteredTasks`. */
  function Filtered(ts: seq<BoardTask>, query: string, filter: string): seq<BoardTask> {
    Where(ts, Shown(query, filter))
  }

  /** With an empty query and the `All` filter every task is shown. */
  lemma {:induction false} FilteredUnfiltered(ts: seq<BoardTask>)
    ensures Filtered(ts, "", "All") == ts
  {
    if ts != [] {
      SearchProperties(ts[0], "");
      FilteredUnfiltered(ts[1..]);
    }
  }

  function HasStatus(status: string): BoardTask -> bool {
    (t: BoardTask) => t.status == status
  }

  /** `filteredTasks.filter(t => t.status === col.title)`. */
  function Column(ts: seq<BoardTask>, title: string): seq<BoardTask> {
    Where(ts, HasStatus(title))
  }

  function InOrder(): BoardTask -> bool {
    (t: BoardTask) => t.status in Statuses
  }

  /** A task with one of the four statuses is in that status's column and in no
      other. */
  lemma ColumnsPartition(ts: seq<BoardTask>, t: BoardTask)
    requires t in ts && t.status in Statuses
    ensures forall i :: 0 <= i < |Statuses| ==> (t in Column(ts, Statuses[i]) <==> Statuses[i] == t.status)
  {
    forall i | 0 <= i < |Statuses| {
      WhereMembers(ts, HasStatus(Statuses[i]));
    }
  }

  /** The four columns together hold as many tasks as there are tasks with one of
      the four statuses. */
  lemma {:induction false} ColumnsCount(ts: seq<BoardTask>)
    ensures |Column(ts, "Backlog")| + |Column(ts, "In Progress")| + |Column(ts, "Review")| + |Column(ts, "Completed")|
            == |Where(ts, InOrder())|
  {
    if ts != [] {
      ColumnsCount(ts[1..]);
    }
  }

  /** What the board shows: a spinner while loading, the error message after a
      failed fetch, otherwise the columns. */
  datatype Screen = Loading | Failed(message: string) | Columns(columns: seq<ColumnView>)

  class Board {
    var tasks: seq<BoardTask>
    var isLoading: bool
    var error: Option<string>
    var searchQuery: string
    var priorityFilter: string
    var isModalOpen: bool
    var isEditing: bool
    var currentTask: Option<BoardTask>

    /** The initial state, before the first fetch completes. */
    constructor ()
      ensures tasks == [] && isLoading && error == None
      ensures searchQuery == "" && priorityFilter == "All"
      ensures !isModalOpen && !isEditing && currentTask == None
    {
      tasks := [];
      isLoading := true;
      error := None;
      searchQuery := "";
      priorityFilter := "All";
      isModalOpen := false;
      isEditing := false;
      currentTask := None;
    }

    /** `fetchTasks`; `data` is what the tasks endpoint returns, `None` when the
        request throws. */
    method FetchTasks(data: Option<seq<BoardTask>>)
      modifies this`tasks, this`error, this`isLoading
      ensures !isLoading
      ensures data.Some? ==> tasks == ActiveTasks(data.value) && error == old(error)
      ensures data.None? ==> tasks == old(tasks) && error == Some("Failed to load tasks")
    {
      isLoading := true;
      if data.Some? {
        tasks := ActiveTasks(data.value);
      } else {
        error := Some("Failed to load tasks");
      }
      isLoading := false;
    }

    /** `handleCreateTask`; `created` is the task the server returns, `None`
        when the request throws. */
    method CreateTask(created: Option<BoardTask>)
      modifies this`tasks, this`isModalOpen
      ensures created.Some? ==> tasks == [created.value] + old(tasks) && !isModalOpen
      ensures created.None? ==> tasks == old(tasks) && isModalOpen == old(isModalOpen)
    {
      if created.Some? {
        tasks := [created.value] + tasks;
        isModalOpen := false;
      }
    }

    /** `handleUpdateTask`; `updated` is the task the server returns. It returns
        the id the update is sent for, none when no task is being edited. */
    method UpdateTask(updated: Option<BoardTask>) returns (sentFor: Option<string>)
      modifies this`tasks, this`isModalOpen, this`currentTask, this`isEditing
      ensures old(currentTask).None? ==>
        sentFor == None && tasks == old(tasks) && currentTask == None
        && isModalOpen == old(isModalOpen) && isEditing == old(isEditing)
      ensures old(currentTask).Some? ==> sentFor == Some(old(currentTask).value.id)
      ensures old(currentTask).Some? && updated.Some? ==>
        tasks == ReplaceById(old(tasks), updated.value) && !isModalOpen && currentTask == None && !isEditing
      ensures old(currentTask).Some? && updated.None? ==>
        tasks == old(tasks) && currentTask == old(currentTask)
        && isModalOpen == old(isModalOpen) && isEditing == old(isEditing)
    {
      if currentTask.None? {
        return None;
      }
      sentFor := Some(currentTask.value.id);
      if updated.Some? {
        tasks := ReplaceById(tasks, updated.value);
        isModalOpen := false;
        currentTask := None;
        isEditing := false;
      }
    }

    /** `handleDeleteTask`; `deleted` says whether the server request succeeded. */
    method DeleteTask(id: string, deleted: bool)
      modifies this`tasks
      ensures tasks == if deleted then RemoveById(old(tasks), id) else old(tasks)
    {
      if deleted {
        tasks := RemoveById(tasks, id);
      }
    }

    /** `handleMoveStatus`: the optimistic local update, then the update request,
        which it returns. */
    method MoveStatus(id: string, status: string) returns (request: StatusUpdate)
      modifies this`tasks
      ensures tasks == SetStatus(old(tasks), id, status)
      ensures request == StatusUpdate(id, status)
    {
      tasks := SetStatus(tasks, id, status);
      request := StatusUpdate(id, status);
    }

    method OpenCreateModal()
      modifies this`isEditing, this`currentTask, this`isModalOpen
      ensures !isEditing && currentTask == None && isModalOpen
    {
      isEditing := false;
      currentTask := None;
      isModalOpen := true;
    }

    method OpenEditModal(task: BoardTask)
      modifies this`isEditing, this`currentTask, this`isModalOpen
      ensures isEditing && currentTask == Some(task) && isModalOpen
    {
      isEditing := true;
      currentTask := Some(task);
      isModalOpen := true;
    }

    /** The search box's `onChange`: the next `View` filters by `q`. */
    method SetSearchQuery(q: string)
      modifies this`searchQuery
      ensures searchQuery == q
    {
      searchQuery := q;
    }

    /** The priority select's `onChange`: the next `View` filters by `f`. */
    method SetPriorityFilter(f: string)
      modifies this`priorityFilter
      ensures priorityFilter == f
    {
      priorityFilter := f;
    }

    /** The rendered board. */
    function View(): (s: Screen)
      reads this
      ensures s.Columns? <==> !isLoading && !Truthy(error)
      ensures s.Columns? ==> |s.columns| == 4 && forall i :: 0 <= i < 4 ==>
        s.columns[i] == RenderColumn(Statuses[i], Column(Filtered(tasks, searchQuery, priorityFilter), Statuses[i]))
    {
      if isLoading then Loading
      else if Truthy(error) then Failed(error.value)
      else
        var shown := Filtered(tasks, searchQuery, priorityFilter);
        Columns(seq(4, i requires 0 <= i < 4 => RenderColumn(Statuses[i], Column(shown, Statuses[i]))))
    }
  }
}

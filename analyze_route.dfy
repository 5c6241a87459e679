/** `POST /api/meetings/analyze`: authenticate, check the transcript, have it
    analysed, save a Meeting in which the request's title, date and category win
    over the analysed ones, save one AI-suggested Task per extracted candidate, and
    write the saved task ids back onto the meeting. */
module AnalyzeRoute {
  import opened Js
  import opened Records
  import opened Db

  /** The JSON request body; a field absent from it is `None`. */
  datatype AnalyzeBody = AnalyzeBody(
    transcript: Option<string>, title: Option<string>, date: Option<string>, category: Option<string>)

  /** One task candidate extracted from the transcript. */
  datatype TaskItem = TaskItem(title: string, description: string, priority: Option<string>, tags: seq<string>)

  /** What the transcript analysis returns. */
  datatype Analysis = Analysis(
    title: string,
    summary: string,
    transcript: string,
    mom: seq<MomEntry>,
    tags: seq<string>,
    category: string,
    confidenceLevel: int,
    tasks: seq<TaskItem>)

  const TranscriptRequired := Response(400, ErrorBody("Transcript text is required"))

  /** The early returns before the analysis is requested: the caller guard, the
      request body, and the transcript check. */
  function Precheck(clerkId: Option<string>, users: map<string, User>, body: AnalyzeBody, fault: Fault): (r: Result<User>)
    ensures r.Ok? <==> ResolveCaller(clerkId, users, fault).Ok? && fault != BodyThrows && Truthy(body.transcript)
    ensures r.Ok? ==> r.value == users[clerkId.value]
    ensures ResolveCaller(clerkId, users, fault).Err? ==> r == ResolveCaller(clerkId, users, fault)
    ensures ResolveCaller(clerkId, users, fault).Ok? && fault == BodyThrows ==> r == Err(InternalError)
    ensures ResolveCaller(clerkId, users, fault).Ok? && fault != BodyThrows && !Truthy(body.transcript)
            ==> r == Err(TranscriptRequired)
  {
    var caller := ResolveCaller(clerkId, users, fault);
    if caller.Err? then caller
    else if fault == BodyThrows then Err(InternalError)
    else if !Truthy(body.transcript) then Err(TranscriptRequired)
    else caller
  }

  /** The meeting document built from the request and the analysis. */
  function NewMeeting(body: AnalyzeBody, a: Analysis, user: User, id: Id, now: int, parseDate: string -> int): Meeting {
    Meeting(
      id,
      OrElse(body.title, a.title),
      if Truthy(body.date) then parseDate(body.date.value) else now,
      Details(
        duration := Some("0m"),
        summary := Some(a.summary),
        transcript := Some(a.transcript),
        mom := a.mom,
        videoUrl := None,
        transcriptUrl := None,
        confidenceLevel := Some(a.confidenceLevel),
        tags := a.tags,
        category := Some(OrElse(body.category, a.category)),
        currentStatus := Some("Completed")),
      user.id,
      [])
  }

  /** The precedence rule: a truthy request field wins over the analysed one; the
      fixed placeholders and the owner are set whatever the analysis says. */
  lemma NewMeetingFields(body: AnalyzeBody, a: Analysis, user: User, id: Id, now: int, parseDate: string -> int)
    ensures var m := NewMeeting(body, a, user, id, now, parseDate);
      && m.id == id && m.user == user.id && m.tasks == []
      && (Truthy(body.title) ==> m.title == body.title.value)
      && (!Truthy(body.title) ==> m.title == a.title)
      && (Truthy(body.category) ==> m.details.category == body.category)
      && (!Truthy(body.category) ==> m.details.category == Some(a.category))
      && (Truthy(body.date) ==> m.date == parseDate(body.date.value))
      && (!Truthy(body.date) ==> m.date == now)
      && m.details.duration == Some("0m")
      && m.details.currentStatus == Some("Completed")
  {
  }

  /** The task document built from one candidate. */
  function NewTask(item: TaskItem, meetingId: Id, owner: Id, id: Id, now: int): Task {
    Task(id, item.title, item.description, OrElse(item.priority, "Medium"), item.tags,
         "Backlog", Some(meetingId), true, owner, now)
  }

  /** The task documents built from the candidates, with consecutive ids from `firstId`. */
  function NewTasks(items: seq<TaskItem>, meetingId: Id, owner: Id, firstId: Id, now: int): (r: seq<Task>)
    ensures |r| == |items|
  {
    if items == [] then []
    else [NewTask(items[0], meetingId, owner, firstId, now)] + NewTasks(items[1..], meetingId, owner, firstId + 1, now)
  }

  /** The i-th derived task is built from the i-th candidate and gets id `firstId + i`. */
  lemma {:induction false} NewTasksAt(items: seq<TaskItem>, meetingId: Id, owner: Id, firstId: Id, now: int, i: nat)
    requires i < |items|
    ensures NewTasks(items, meetingId, owner, firstId, now)[i] == NewTask(items[i], meetingId, owner, firstId + i, now)
  {
    if i > 0 {
      NewTasksAt(items[1..], meetingId, owner, firstId + 1, now, i - 1);
    }
  }

  /** Every derived task carries the analysed priority or `Medium`, the backlog
      status, the suggested flag, the saved meeting as its source and the caller as
      its owner, and the tasks come in the order of the candidates. */
  lemma NewTasksDefaults(items: seq<TaskItem>, meetingId: Id, owner: Id, firstId: Id, now: int, i: nat)
    requires i < |items|
    ensures var t := NewTasks(items, meetingId, owner, firstId, now)[i];
      && t.title == items[i].title && t.description == items[i].description && t.tags == items[i].tags
      && (Truthy(items[i].priority) ==> t.priority == items[i].priority.value)
      && (!Truthy(items[i].priority) ==> t.priority == "Medium")
      && t.status == "Backlog" && t.suggested
      && t.sourceMeeting == Some(meetingId) && t.user == owner
  {
    NewTasksAt(items, meetingId, owner, firstId, now, i);
  }

  /** The meeting's task list and the tasks that name it as their source agree:
      after the write-back, reading the tasks by their source meeting gives exactly
      the linked ids, in order. */
  lemma {:induction false} LinkRoundTrip(olds: seq<Task>, items: seq<TaskItem>, meetingId: Id, owner: Id, firstId: Id, now: int)
    requires forall t :: t in olds && t.sourceMeeting.Some? ==> t.sourceMeeting.value < meetingId
    ensures var saved := NewTasks(items, meetingId, owner, firstId, now);
      SourcedFrom(olds + saved, meetingId) == saved
      && TaskIds(SourcedFrom(olds + saved, meetingId)) == TaskIds(saved)
  {
    var saved := NewTasks(items, meetingId, owner, firstId, now);
    SourcedFromAppend(olds, saved, meetingId);
    NoneSourcedFrom(olds, meetingId);
    AllSourcedFrom(items, meetingId, owner, firstId, now);
  }

  /** The ids written back onto the meeting are one per candidate, in candidate
      order: the i-th is the id of the i-th saved task, `firstId + i`. */
  lemma LinkedIds(items: seq<TaskItem>, meetingId: Id, owner: Id, firstId: Id, now: int)
    ensures var saved := NewTasks(items, meetingId, owner, firstId, now);
      && |TaskIds(saved)| == |items|
      && forall i :: 0 <= i < |items| ==> TaskIds(saved)[i] == saved[i].id == firstId + i
  {
    var saved := NewTasks(items, meetingId, owner, firstId, now);
    TaskIdsAt(saved);
    forall i | 0 <= i < |items| ensures saved[i].id == firstId + i {
      NewTasksAt(items, meetingId, owner, firstId, now, i);
    }
  }

  lemma {:induction false} NoneSourcedFrom(ts: seq<Task>, mid: Id)
    requires forall t :: t in ts && t.sourceMeeting.Some? ==> t.sourceMeeting.value < mid
    ensures SourcedFrom(ts, mid) == []
  {
    if ts != [] {
      NoneSourcedFrom(ts[1..], mid);
    }
  }

  lemma {:induction false} AllSourcedFrom(items: seq<TaskItem>, mid: Id, owner: Id, firstId: Id, now: int)
    ensures var ts := NewTasks(items, mid, owner, firstId, now); SourcedFrom(ts, mid) == ts
  {
    if items != [] {
      AllSourcedFrom(items[1..], mid, owner, firstId + 1, now);
    }
  }

  /** Saves one task per candidate, in order, until a save throws; `failed` says
      whether one did. */
  method SaveTasks(db: Store, items: seq<TaskItem>, meetingId: Id, owner: Id, now: int, fault: Fault)
    returns (saved: seq<Task>, failed: bool)
    requires db.Valid() && meetingId < db.nextId
    modifies db`nextId, db`tasks
    ensures db.Valid()
    ensures failed <==> fault.TaskSaveThrows? && fault.index < |items|
    ensures saved == NewTasks(items, meetingId, owner, old(db.nextId), now)[..if failed then fault.index else |items|]
    ensures db.tasks == old(db.tasks) + saved
    ensures db.nextId >= old(db.nextId)
  {
    ghost var all := NewTasks(items, meetingId, owner, db.nextId, now);
    ghost var first := db.nextId;
    saved := [];
    var i := 0;
    while i < |items|
      invariant 0 <= i <= |items|
      invariant db.Valid() && meetingId < db.nextId && db.nextId == first + i
      invariant fault.TaskSaveThrows? ==> i <= fault.index
      invariant saved == all[..i]
      invariant db.tasks == old(db.tasks) + saved
    {
      var tid := db.FreshId();
      var t := NewTask(items[i], meetingId, owner, tid, now);
      if fault == TaskSaveThrows(i) {
        return saved, true;
      }
      db.InsertTask(t);
      saved := saved + [t];
      NewTasksAt(items, meetingId, owner, first, now, i);
      assert all[..i + 1] == all[..i] + [all[i]];
      i := i + 1;
    }
    assert saved == all;
    failed := false;
  }

  /** The handler. `clerkId` is the session's user id, `analysis` what the
      analysis call returns when it does not throw, `now` the clock, `parseDate`
      what `new Date(…)` makes of the request's date, and `fault` the awaited step
      that throws, if any. Besides the response it returns the transcripts sent to
      the analysis service. */
  method Analyze(db: Store, clerkId: Option<string>, body: AnalyzeBody, analysis: Analysis,
                 now: int, parseDate: string -> int, fault: Fault)
    returns (resp: Response, aiCalls: seq<string>)
    requires db.Valid()
    modifies db`meetings, db`tasks, db`nextId
    ensures db.Valid()
    // early returns: nothing written, nothing sent for analysis
    ensures Precheck(clerkId, db.users, body, fault).Err? ==>
      && resp == Precheck(clerkId, db.users, body, fault).error
      && aiCalls == [] && db.meetings == old(db.meetings) && db.tasks == old(db.tasks)
    ensures Precheck(clerkId, db.users, body, fault).Ok? ==>
      && aiCalls == [body.transcript.value]
      && Ingested(resp, db.meetings, db.tasks, old(db.meetings), old(db.tasks),
                  NewMeeting(body, analysis, Precheck(clerkId, db.users, body, fault).value, old(db.nextId), now, parseDate),
                  analysis.tasks, now, fault)
  {
    aiCalls := [];
    var pre := Precheck(clerkId, db.users, body, fault);
    if pre.Err? {
      return pre.error, aiCalls;
    }
    aiCalls := [body.transcript.value];
    resp := Ingest(db, body, analysis, pre.value, now, parseDate, fault);
  }

  /** Everything after the analysis is requested: the analysis result is turned
      into a saved meeting and saved tasks, then linked. */
  method Ingest(db: Store, body: AnalyzeBody, analysis: Analysis, user: User,
                now: int, parseDate: string -> int, fault: Fault)
    returns (resp: Response)
    requires db.Valid()
    modifies db`meetings, db`tasks, db`nextId
    ensures db.Valid()
    ensures Ingested(resp, db.meetings, db.tasks, old(db.meetings), old(db.tasks),
                     NewMeeting(body, analysis, user, old(db.nextId), now, parseDate), analysis.tasks, now, fault)
  {
    if fault == AiThrows || fault == MeetingSaveThrows {
      return InternalError;
    }
    var mid := db.FreshId();
    var m0 := NewMeeting(body, analysis, user, mid, now, parseDate);
    db.InsertMeeting(m0);
    resp := SaveTasksAndLink(db, m0, analysis.tasks, now, fault);
  }

  /** The steps after the first meeting save: the task saves, then the write-back
      of their ids onto the meeting `m0`, which was saved last. */
  method SaveTasksAndLink(db: Store, m0: Meeting, items: seq<TaskItem>, now: int, fault: Fault)
    returns (resp: Response)
    requires db.Valid() && m0.id + 1 == db.nextId
    requires |db.meetings| > 0 && db.meetings[|db.meetings| - 1] == m0
    requires forall m :: m in db.meetings[..|db.meetings| - 1] ==> m.id < m0.id
    requires forall t :: t in db.tasks && t.sourceMeeting.Some? ==> t.sourceMeeting.value < m0.id
    requires fault != AiThrows && fault != MeetingSaveThrows
    modifies db`meetings, db`tasks, db`nextId
    ensures db.Valid()
    ensures Ingested(resp, db.meetings, db.tasks, old(db.meetings)[..|old(db.meetings)| - 1], old(db.tasks),
                     m0, items, now, fault)
  {
    ghost var olds := db.meetings[..|db.meetings| - 1];
    ghost var oldTasks := db.tasks;
    assert db.meetings == olds + [m0];
    var saved, failed := SaveTasks(db, items, m0.id, m0.user, now, fault);
    if failed {
      assert Ingested(InternalError, db.meetings, db.tasks, olds, oldTasks, m0, items, now, fault);
      return InternalError;
    }
    var m1 := m0.(tasks := TaskIds(saved));
    if fault == LinkSaveThrows {
      assert Ingested(InternalError, db.meetings, db.tasks, olds, oldTasks, m0, items, now, fault);
      return InternalError;
    }
    ReplaceLastMeeting(olds, m0, m1);
    db.SaveMeeting(m1);
    resp := Response(201, Analyzed(m1, saved));
    ghost var all := NewTasks(items, m0.id, m0.user, m0.id + 1, now);
    assert saved == all;
    IngestedWhenLinked(db.meetings, db.tasks, olds, oldTasks, m0, items, now, fault);
  }

  /** When every save succeeds, the store and the 201 response are the ones
      `Ingested` describes. */
  lemma IngestedWhenLinked(meetings: seq<Meeting>, tasks: seq<Task>, olds: seq<Meeting>, oldTasks: seq<Task>,
                           m0: Meeting, items: seq<TaskItem>, now: int, fault: Fault)
    requires fault != AiThrows && fault != MeetingSaveThrows && fault != LinkSaveThrows
    requires !(fault.TaskSaveThrows? && fault.index < |items|)
    requires forall t :: t in oldTasks && t.sourceMeeting.Some? ==> t.sourceMeeting.value < m0.id
    requires var all := NewTasks(items, m0.id, m0.user, m0.id + 1, now);
      && tasks == oldTasks + all
      && meetings == olds + [m0.(tasks := TaskIds(all))]
    ensures var all := NewTasks(items, m0.id, m0.user, m0.id + 1, now);
      Ingested(Response(201, Analyzed(m0.(tasks := TaskIds(all)), all)), meetings, tasks, olds, oldTasks, m0, items, now, fault)
  {
    LinkRoundTrip(oldTasks, items, m0.id, m0.user, m0.id + 1, now);
  }

  /** The response and the store after the analysis was requested, with `m0` the
      meeting built from the request and the analysis:
      - the analysis or the first meeting save throws: 500, nothing written;
      - a task save throws: 500, the meeting saved without links, the tasks before
        the failing one saved;
      - the write-back throws: 500, the meeting saved without links, all tasks saved;
      - otherwise 201 with the meeting, whose task list holds the saved tasks'
        ids in candidate order, and the saved tasks, which are exactly the stored
        tasks that name the meeting as their source. */
  ghost predicate Ingested(resp: Response, meetings: seq<Meeting>, tasks: seq<Task>,
                           oldMeetings: seq<Meeting>, oldTasks: seq<Task>,
                           m0: Meeting, items: seq<TaskItem>, now: int, fault: Fault)
  {
    var saved := NewTasks(items, m0.id, m0.user, m0.id + 1, now);
    if fault == AiThrows || fault == MeetingSaveThrows then
      resp == InternalError && meetings == oldMeetings && tasks == oldTasks
    else if fault.TaskSaveThrows? && fault.index < |items| then
      && resp == InternalError && meetings == oldMeetings + [m0]
      && tasks == oldTasks + saved[..fault.index]
    else if fault == LinkSaveThrows then
      resp == InternalError && meetings == oldMeetings + [m0] && tasks == oldTasks + saved
    else
      var m1 := m0.(tasks := TaskIds(saved));
      && resp == Response(201, Analyzed(m1, saved))
      && meetings == oldMeetings + [m1] && tasks == oldTasks + saved
      && SourcedFrom(tasks, m1.id) == saved
  }
}

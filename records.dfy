/** The documents the route handlers read and write (User, Meeting, Task), the
    JSON responses they return, the points at which an awaited external call can
    throw, and the identity guard every authenticated route begins with. */
module Records {
  import opened Js

  /** A generated document id (`_id`). */
  type Id = nat

  /** The local mirror of an identity-provider user; `clerkId` is its external id. */
  datatype User = User(id: Id, clerkId: string, email: string, name: string)

  datatype MomKind = Decision | Action | Info
  datatype MomEntry = MomEntry(kind: MomKind, content: string)

  /** The meeting fields that the handlers copy through without inspecting them.
      A field absent from a request body is `None`. */
  datatype Details = Details(
    duration: Option<string>,
    summary: Option<string>,
    transcript: Option<string>,
    mom: seq<MomEntry>,
    videoUrl: Option<string>,
    transcriptUrl: Option<string>,
    confidenceLevel: Option<int>,
    tags: seq<string>,
    category: Option<string>,
    currentStatus: Option<string>)

  /** A stored meeting; `date` is a timestamp and `tasks` the linked task ids. */
  datatype Meeting = Meeting(id: Id, title: string, date: int, details: Details, user: Id, tasks: seq<Id>)

  /** A stored task; `createdAt` is the timestamp the store stamps on insertion. */
  datatype Task = Task(
    id: Id,
    title: string,
    description: string,
    priority: string,
    tags: seq<string>,
    status: string,
    sourceMeeting: Option<Id>,
    suggested: bool,
    user: Id,
    createdAt: int)

  /** The JSON payload of a response. */
  datatype Body =
    | ErrorBody(error: string)
    | MeetingList(meetings: seq<Meeting>)
    | TaskList(tasks: seq<Task>)
    | MeetingCreated(meeting: Meeting)
    | Analyzed(meeting: Meeting, savedTasks: seq<Task>)
    | Uploaded(url: string, gcsObjectId: string)
    | DownloadLink(url: string)

  datatype Response = Response(status: int, body: Body)

  const Unauthorized := Response(401, ErrorBody("Unauthorized"))
  const UserNotFound := Response(404, ErrorBody("User not found"))
  const InternalError := Response(500, ErrorBody("Internal Server Error"))

  /** The awaited step of a handler that throws, if any; every handler's `catch`
      turns a throw into a 500 response. A fault only matters if the handler
      reaches that step. */
  datatype Fault =
    | NoFault
    | AuthThrows          // the identity provider's session lookup
    | ConnectThrows       // opening the database connection
    | FindUserThrows      // looking up the local user
    | BodyThrows          // reading the request body
    | AiThrows            // the transcript analysis call
    | MeetingSaveThrows   // the first save (or create) of a meeting
    | TaskSaveThrows(index: nat)  // saving the index-th derived task
    | LinkSaveThrows      // the second save of a meeting, with its task ids
    | QueryThrows         // a list query

  /** The guard every authenticated route starts with: the session lookup, then
      the database connection and the local user lookup. It yields the caller's
      local user or the response the handler returns early. */
  function ResolveCaller(clerkId: Option<string>, users: map<string, User>, fault: Fault): (r: Result<User>)
    ensures r.Ok? <==> fault !in {AuthThrows, ConnectThrows, FindUserThrows} && Truthy(clerkId) && clerkId.value in users
    ensures r.Ok? ==> r.value == users[clerkId.value]
    ensures r.Err? ==> r.error in {Unauthorized, UserNotFound, InternalError}
    ensures fault == AuthThrows ==> r == Err(InternalError)
    ensures fault != AuthThrows && !Truthy(clerkId) ==> r == Err(Unauthorized)
    ensures fault in {ConnectThrows, FindUserThrows} && Truthy(clerkId) ==> r == Err(InternalError)
    ensures fault !in {AuthThrows, ConnectThrows, FindUserThrows} && Truthy(clerkId) && clerkId.value !in users
            ==> r == Err(UserNotFound)
  {
    if fault == AuthThrows then Err(InternalError)
    else if !Truthy(clerkId) then Err(Unauthorized)
    else if fault == ConnectThrows || fault == FindUserThrows then Err(InternalError)
    else if clerkId.value !in users then Err(UserNotFound)
    else Ok(users[clerkId.value])
  }

  /** The outcome of a guard: a value, or the response to return early. */
  datatype Result<+T> = Ok(value: T) | Err(error: Response)

  /** The tasks whose source meeting is `mid`, in order. */
  function SourcedFrom(tasks: seq<Task>, mid: Id): seq<Task> {
    if tasks == [] then []
    else (if tasks[0].sourceMeeting == Some(mid) then [tasks[0]] else []) + SourcedFrom(tasks[1..], mid)
  }

  /** The ids of the given tasks, in order. */
  function TaskIds(tasks: seq<Task>): seq<Id> {
    if tasks == [] then [] else [tasks[0].id] + TaskIds(tasks[1..])
  }

  /** The id list has one entry per task, in the same order. */
  lemma {:induction false} TaskIdsAt(tasks: seq<Task>)
    ensures |TaskIds(tasks)| == |tasks|
    ensures forall i :: 0 <= i < |tasks| ==> TaskIds(tasks)[i] == tasks[i].id
  {
    if tasks != [] {
      TaskIdsAt(tasks[1..]);
    }
  }

  lemma {:induction false} SourcedFromAppend(a: seq<Task>, b: seq<Task>, mid: Id)
    ensures SourcedFrom(a + b, mid) == SourcedFrom(a, mid) + SourcedFrom(b, mid)
  {
    if a != [] {
      assert (a + b)[1..] == a[1..] + b;
      SourcedFromAppend(a[1..], b, mid);
    } else {
      assert a + b == b;
    }
  }
}

/** `GET /api/meetings`, the caller's meetings newest first, and
    `POST /api/meetings`, which creates a meeting from the request body. */
module MeetingsRoute {
  import opened Js
  import opened Records
  import opened Sorting
  import opened Query
  import opened Db

  /** The sort key of the meeting list. */
  function MeetingDate(m: Meeting): int { m.date }

  /** The meetings the user with local id `owner` owns, newest first. */
  function OwnedMeetings(meetings: seq<Meeting>, owner: Id): seq<Meeting> {
    FindSorted(meetings, (m: Meeting) => m.user == owner, MeetingDate)
  }

  /** The GET handler over a snapshot of the users and meetings collections. */
  function ListMeetings(clerkId: Option<string>, users: map<string, User>, meetings: seq<Meeting>, fault: Fault)
    : (r: Response)
    ensures r.status == 200 <==> ResolveCaller(clerkId, users, fault).Ok? && fault != QueryThrows
    ensures ResolveCaller(clerkId, users, fault).Err? ==> r == ResolveCaller(clerkId, users, fault).error
    ensures ResolveCaller(clerkId, users, fault).Ok? && fault == QueryThrows ==> r == InternalError
    ensures r.status == 200 ==>
      && r.body.MeetingList?
      && SortedDesc(r.body.meetings, MeetingDate)
      && multiset(r.body.meetings) == multiset(Where(meetings, (m: Meeting) => m.user == users[clerkId.value].id))
  {
    var caller := ResolveCaller(clerkId, users, fault);
    if caller.Err? then caller.error
    else if fault == QueryThrows then InternalError
    else Response(200, MeetingList(OwnedMeetings(meetings, caller.value.id)))
  }

  /** A successful listing holds exactly the caller's meetings: none of another
      user's, and every one of the caller's. */
  lemma ListMeetingsOwned(clerkId: Option<string>, users: map<string, User>, meetings: seq<Meeting>, fault: Fault)
    requires ListMeetings(clerkId, users, meetings, fault).status == 200
    ensures var listed := ListMeetings(clerkId, users, meetings, fault).body.meetings;
      forall m :: m in listed <==> m in meetings && m.user == users[clerkId.value].id
  {
    FindSortedMembers(meetings, (m: Meeting) => m.user == users[clerkId.value].id, MeetingDate);
  }

  /** The POST request body. `fields` are the meeting fields the handler
      destructures and copies; a `currentStatus` in the body is not among them. */
  datatype MeetingBody = MeetingBody(title: Option<string>, date: Option<string>, fields: Details)

  const TitleAndDateRequired := Response(400, ErrorBody("Title and Date are required"))

  /** The early returns of the POST handler: the caller guard, the request body,
      and the check that both title and date are truthy. */
  function CreateCheck(clerkId: Option<string>, users: map<string, User>, body: MeetingBody, fault: Fault)
    : (r: Result<User>)
    ensures r.Ok? <==> ResolveCaller(clerkId, users, fault).Ok? && fault != BodyThrows
                       && Truthy(body.title) && Truthy(body.date)
    ensures r.Ok? ==> r.value == users[clerkId.value]
    ensures ResolveCaller(clerkId, users, fault).Err? ==> r == ResolveCaller(clerkId, users, fault)
    ensures ResolveCaller(clerkId, users, fault).Ok? && fault == BodyThrows ==> r == Err(InternalError)
    ensures (ResolveCaller(clerkId, users, fault).Ok? && fault != BodyThrows
             && (!Truthy(body.title) || !Truthy(body.date))) ==> r == Err(TitleAndDateRequired)
  {
    var caller := ResolveCaller(clerkId, users, fault);
    if caller.Err? then caller
    else if fault == BodyThrows then Err(InternalError)
    else if !Truthy(body.title) || !Truthy(body.date) then Err(TitleAndDateRequired)
    else caller
  }

  /** The document `Meeting.create` is given: the request's title, its date as
      parsed by `parseDate`, the copied fields, and the caller as owner. */
  function CreatedMeeting(body: MeetingBody, user: User, id: Id, parseDate: string -> int): Meeting
    requires body.title.Some? && body.date.Some?
  {
    Meeting(id, body.title.value, parseDate(body.date.value), body.fields.(currentStatus := None), user.id, [])
  }

  /** The POST handler; `parseDate` is what `new Date(…)` makes of the date string
      and `fault` the awaited step that throws, if any. */
  method CreateMeeting(db: Store, clerkId: Option<string>, body: MeetingBody, parseDate: string -> int, fault: Fault)
    returns (resp: Response)
    requires db.Valid()
    modifies db`meetings, db`nextId
    ensures db.Valid()
    ensures CreateCheck(clerkId, db.users, body, fault).Err? ==>
      resp == CreateCheck(clerkId, db.users, body, fault).error && db.meetings == old(db.meetings)
    ensures CreateCheck(clerkId, db.users, body, fault).Ok? && fault == MeetingSaveThrows ==>
      resp == InternalError && db.meetings == old(db.meetings)
    ensures CreateCheck(clerkId, db.users, body, fault).Ok? && fault != MeetingSaveThrows ==>
      var m := CreatedMeeting(body, db.users[clerkId.value], old(db.nextId), parseDate);
      resp == Response(201, MeetingCreated(m)) && db.meetings == old(db.meetings) + [m]
  {
    var check := CreateCheck(clerkId, db.users, body, fault);
    if check.Err? {
      return check.error;
    }
    var id := db.FreshId();
    var m := CreatedMeeting(body, check.value, id, parseDate);
    if fault == MeetingSaveThrows {
      return InternalError;
    }
    db.InsertMeeting(m);
    resp := Response(201, MeetingCreated(m));
  }

  /** A created meeting is the caller's, carries the request's title and date,
      and shows up in the caller's next listing. */
  lemma CreatedThenListed(clerkId: Option<string>, users: map<string, User>, meetings: seq<Meeting>,
                          body: MeetingBody, id: Id, parseDate: string -> int, fault: Fault)
    requires CreateCheck(clerkId, users, body, fault).Ok?
    ensures var m := CreatedMeeting(body, users[clerkId.value], id, parseDate);
      && m.title == body.title.value && m.date == parseDate(body.date.value)
      && ListMeetings(clerkId, users, meetings + [m], NoFault).status == 200
      && m in ListMeetings(clerkId, users, meetings + [m], NoFault).body.meetings
  {
    var m := CreatedMeeting(body, users[clerkId.value], id, parseDate);
    ListMeetingsOwned(clerkId, users, meetings + [m], NoFault);
  }
}

/** An in-memory stand-in for the document database: the users collection keyed
    by identity-provider id, the meetings and tasks collections in insertion order,
    and the counter that hands out fresh document ids. */
module Db {
  import opened Js
  import opened Records
  import opened Query

  /** `meetings` with every record whose id is `m.id` replaced by `m` (a save of
      an existing document). */
  function ReplaceMeeting(meetings: seq<Meeting>, m: Meeting): seq<Meeting> {
    Replace(meetings, (k: Meeting) => k.id == m.id, m)
  }

  /** Saving a meeting whose id no earlier record carries touches only the last record. */
  lemma ReplaceLastMeeting(olds: seq<Meeting>, m0: Meeting, m1: Meeting)
    requires forall m :: m in olds ==> m.id != m0.id
    requires m1.id == m0.id
    ensures ReplaceMeeting(olds + [m0], m1) == olds + [m1]
  {
    var r := ReplaceMeeting(olds + [m0], m1);
    assert forall i :: 0 <= i < |olds| ==> r[i] == olds[i] by {
      forall i | 0 <= i < |olds| ensures r[i] == olds[i] {
        assert (olds + [m0])[i] == olds[i];
        assert olds[i] in olds;
      }
    }
  }

  class Store {
    var users: map<string, User>
    var meetings: seq<Meeting>
    var tasks: seq<Task>
    var nextId: nat

    /** Every stored id, and every task's source-meeting reference, was handed out
        by the counter before. */
    ghost predicate Valid()
      reads this
    {
      && (forall m :: m in meetings ==> m.id < nextId)
      && (forall t :: t in tasks ==> t.id < nextId)
      && (forall t :: t in tasks && t.sourceMeeting.Some? ==> t.sourceMeeting.value < nextId)
    }

    constructor (users: map<string, User>)
      ensures Valid()
      ensures this.users == users && meetings == [] && tasks == [] && nextId == 0
    {
      this.users := users;
      meetings := [];
      tasks := [];
      nextId := 0;
    }

    /** A fresh document id (the id a new document gets on construction). */
    method FreshId() returns (id: Id)
      requires Valid()
      modifies this`nextId
      ensures Valid()
      ensures id == old(nextId) && nextId == id + 1
    {
      id := nextId;
      nextId := nextId + 1;
    }

    /** Saves a new meeting document. */
    method InsertMeeting(m: Meeting)
      requires Valid() && m.id < nextId
      modifies this`meetings
      ensures Valid()
      ensures meetings == old(meetings) + [m]
    {
      meetings := meetings + [m];
    }

    /** Saves an existing meeting document again, with its new field values. */
    method SaveMeeting(m: Meeting)
      requires Valid() && m.id < nextId
      modifies this`meetings
      ensures Valid()
      ensures meetings == ReplaceMeeting(old(meetings), m)
    {
      meetings := ReplaceMeeting(meetings, m);
    }

    /** Saves a new task document. */
    method InsertTask(t: Task)
      requires Valid() && t.id < nextId
      requires t.sourceMeeting.Some? ==> t.sourceMeeting.value < nextId
      modifies this`tasks
      ensures Valid()
      ensures tasks == old(tasks) + [t]
    {
      tasks := tasks + [t];
    }
  }
}

/** One column of the task board: its status title, the zero-padded task count,
    the task cards with their "move to the next status" action, and the empty
    placeholder. */
module KanbanColumn {
  import opened Js

  /** A task as the board receives it from the tasks endpoint; `suggested` is
      absent when the payload has no such field. */
  datatype BoardTask = BoardTask(
    id: string,
    title: string,
    description: string,
    priority: string,
    status: string,
    tags: seq<string>,
    sourceMeeting: string,
    suggested: Option<bool>)

  /** The column order, which is also the order tasks move through. */
  const Statuses: seq<string> := ["Backlog", "In Progress", "Review", "Completed"]

  /** The position of each listed status. */
  lemma StatusIndices()
    ensures IndexOf(Statuses, "Backlog") == 0
    ensures IndexOf(Statuses, "In Progress") == 1
    ensures IndexOf(Statuses, "Review") == 2
    ensures IndexOf(Statuses, "Completed") == 3
    ensures forall i :: 0 <= i < |Statuses| ==> IndexOf(Statuses, Statuses[i]) == i
  {
    assert Statuses[1..] == ["In Progress", "Review", "Completed"];
    assert Statuses[2..] == ["Review", "Completed"];
    assert Statuses[3..] == ["Completed"];
  }

  /** `nextStatus`: the status after `title` in the order, none after the last;
      a title outside the order has index -1, so its successor is the first. */
  function NextStatus(title: string): (r: Option<string>)
    ensures r.None? <==> title == "Completed"
    ensures title !in Statuses ==> r == Some("Backlog")
    ensures 0 <= IndexOf(Statuses, title) < 3 ==> r == Some(Statuses[IndexOf(Statuses, title) + 1])
  {
    StatusIndices();
    var cur := IndexOf(Statuses, title);
    if cur < |Statuses| - 1 then Some(Statuses[cur + 1]) else None
  }

  /** Each move goes exactly one step forward. */
  lemma MovesForward(s: string)
    requires s in Statuses && s != "Completed"
    ensures NextStatus(s).Some? && NextStatus(s).value in Statuses
    ensures IndexOf(Statuses, NextStatus(s).value) == IndexOf(Statuses, s) + 1
  {
    StatusIndices();
  }

  /** The status reached after at most `k` moves (stopping at the last status). */
  function Advance(s: string, k: nat): string
    decreases k
  {
    if k == 0 then s
    else match NextStatus(s)
      case None => s
      case Some(n) => Advance(n, k - 1)
  }

  function Min(a: int, b: int): int { if a <= b then a else b }

  /** After `k` moves a listed status stands `k` places further along, capped at
      Completed; in particular at most three moves reach Completed from anywhere
      in the order. */
  lemma {:induction false} AdvanceIndex(s: string, k: nat)
    requires s in Statuses
    ensures Advance(s, k) == Statuses[Min(IndexOf(Statuses, s) + k, 3)]
    decreases k
  {
    StatusIndices();
    if k > 0 && s != "Completed" {
      MovesForward(s);
      AdvanceIndex(NextStatus(s).value, k - 1);
    }
  }

  /** A title outside the order reaches Completed in four moves. */
  lemma UnknownReachesCompleted(s: string)
    requires s !in Statuses
    ensures Advance(s, 4) == "Completed"
  {
    AdvanceIndex("Backlog", 3);
  }

  /** `showMoveAction={!!nextStatus}`. */
  predicate ShowMoveAction(title: string) {
    Truthy(NextStatus(title))
  }

  lemma ShowMoveActionIff(title: string)
    ensures ShowMoveAction(title) <==> NextStatus(title).Some?
    ensures ShowMoveAction(title) <==> title != "Completed"
  {
    StatusIndices();
  }

  /** The call `onUpdateStatus(id, status)` a card's move action makes. */
  datatype StatusUpdate = StatusUpdate(id: string, status: string)

  /** `onMove`: absent for the last column; otherwise, for a card id, the update
      it requests. */
  function OnMove(title: string, id: string): (r: Option<StatusUpdate>)
    ensures r.Some? <==> title != "Completed"
    ensures r.Some? ==> r.value.id == id && Some(r.value.status) == NextStatus(title)
  {
    match NextStatus(title)
    case None => None
    case Some(next) => Some(StatusUpdate(id, next))
  }

  /** `tasks.length.toString().padStart(2, '0')`. */
  function CountLabel(n: nat): string {
    PadStart(NatToString(n), 2, '0')
  }

  /** The label spells the count in decimal, in at least two digits: one leading
      zero below ten, none from ten on. */
  lemma CountLabelValue(n: nat)
    ensures DecimalValue(CountLabel(n)) == n
    ensures |CountLabel(n)| == if n < 10 then 2 else |NatToString(n)|
    ensures forall i :: 0 <= i < |CountLabel(n)| ==> IsDigit(CountLabel(n)[i])
    ensures n < 10 ==> CountLabel(n) == ['0', DigitChar(n)]
    ensures n >= 10 ==> CountLabel(n) == NatToString(n)
  {
    var s := NatToString(n);
    DecimalValueOfToString(n);
    if n < 10 {
      CountLabelSmall(n);
    } else {
      assert NatToString(n / 10) != [];
      assert CountLabel(n) == s;
    }
  }

  lemma CountLabelSmall(n: nat)
    requires n < 10
    ensures CountLabel(n) == ['0', DigitChar(n)]
    ensures DecimalValue(CountLabel(n)) == n
  {
    var r := CountLabel(n);
    assert NatToString(n) == [DigitChar(n)];
    assert r == PadStart(['0', DigitChar(n)], 2, '0');
    assert r[..1] == ['0'];
    DecimalValueLeadingZero([DigitChar(n)]);
    DecimalValueOfToString(n);
  }

  /** One rendered card: its task, whether it shows the move action, and the
      status its move action requests. */
  datatype Card = Card(task: BoardTask, showMoveAction: bool, moveTo: Option<string>)

  datatype ColumnView = ColumnView(title: string, countLabel: string, cards: seq<Card>, showEmpty: bool)

  /** The column as rendered for `title` and the tasks given to it. */
  function RenderColumn(title: string, tasks: seq<BoardTask>): (v: ColumnView)
    ensures v.title == title && v.countLabel == CountLabel(|tasks|)
    ensures |v.cards| == |tasks|
    ensures forall i :: 0 <= i < |tasks| ==>
      && v.cards[i].task == tasks[i]
      && (v.cards[i].showMoveAction <==> title != "Completed")
      && v.cards[i].moveTo == NextStatus(title)
    ensures v.showEmpty <==> |tasks| == 0
  {
    ShowMoveActionIff(title);
    ColumnView(title, CountLabel(|tasks|), Cards(tasks, ShowMoveAction(title), NextStatus(title)), |tasks| == 0)
  }

  function Cards(tasks: seq<BoardTask>, show: bool, next: Option<string>): (cs: seq<Card>)
    ensures |cs| == |tasks|
    ensures forall i :: 0 <= i < |tasks| ==> cs[i] == Card(tasks[i], show, next)
  {
    seq(|tasks|, i requires 0 <= i < |tasks| => Card(tasks[i], show, next))
  }

  /** A card's move action sends that card's id together with the column's
      successor status. */
  lemma CardMove(title: string, tasks: seq<BoardTask>, i: nat)
    requires i < |tasks| && title != "Completed"
    ensures var c := RenderColumn(title, tasks).cards[i];
      c.moveTo.Some? && OnMove(title, c.task.id) == Some(StatusUpdate(tasks[i].id, c.moveTo.value))
  {
  }
}

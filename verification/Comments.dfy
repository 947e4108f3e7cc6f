/**
 The comment history: a bounded window on everything received, whose rows keep their ids and
 whose changes are announced so that a view can follow them.
 */
module CommentHistory {
  import opened Common
  import Decimal

  const HISTORY_LIMIT: nat := 2000

  type Comment = string

  datatype State = State(rows: seq<Comment>, received: nat)

  /** A removal of the first rows, or an insertion of rows first..last. */
  datatype Change = Removed(count: nat) | Inserted(first: nat, last: int)

  const Initial := State([], 0)

  // ---------- operations ----------

  function Overflow(rows: nat, incoming: nat): (r: nat)
    ensures r <= rows
  {
    var excess := SaturatingSub(rows + incoming, HISTORY_LIMIT);
    if excess < rows then excess else rows
  }

  function Skipped(incoming: nat): (r: nat)
    ensures r <= incoming
  {
    SaturatingSub(incoming, HISTORY_LIMIT)
  }

  function Append(s: State, comments: seq<Comment>): State {
    if comments == [] then s
    else State(s.rows[Overflow(|s.rows|, |comments|)..] + comments[Skipped(|comments|)..], s.received + |comments|)
  }

  /** What an append announces: the rows that go, then the rows that come. */
  function AppendChanges(s: State, comments: seq<Comment>): seq<Change> {
    if comments == [] then [] else
    var gone, first := Overflow(|s.rows|, |comments|), |s.rows| - Overflow(|s.rows|, |comments|);
    (if gone > 0 then [Removed(gone)] else [])
    + [Inserted(first, first + |comments| - Skipped(|comments|) - 1)]
  }

  function Clear(s: State): State {
    s.(rows := [])
  }

  function ClearChanges(s: State): seq<Change> {
    if s.rows == [] then [] else [Removed(|s.rows|)]
  }

  /** The id of a row, or nothing when there is no such row. */
  function IdAt(s: State, row: int): string
    requires |s.rows| <= s.received
  {
    if 0 <= row < |s.rows| then Decimal.Print(s.received - |s.rows| + row) else ""
  }

  function RowForId(s: State, id: string): int
    requires |s.rows| <= s.received
  {
    var parsed := Decimal.Parse(id);
    if parsed.Some? && s.received - |s.rows| <= parsed.value < s.received
    then parsed.value - (s.received - |s.rows|) else -1
  }

  // ---------- the log ----------

  datatype Event = DoAppend(comments: seq<Comment>) | DoClear

  function Step(s: State, e: Event): (r: State)
    ensures |s.rows| <= s.received ==> |r.rows| <= r.received
  {
    match e
    case DoAppend(comments) => Append(s, comments)
    case DoClear => Clear(s)
  }

  /** No more rows are held than were ever received. */
  function Run(s: State, es: seq<Event>): (r: State)
    ensures |s.rows| <= s.received ==> |r.rows| <= r.received
    decreases |es|
  {
    if es == [] then s else Run(Step(s, es[0]), es[1..])
  }

  /** Everything ever received, and how much of it came before the last clear. */
  datatype Log = Log(all: seq<Comment>, cleared: nat)

  function Logged(l: Log, e: Event): Log {
    match e
    case DoAppend(comments) => l.(all := l.all + comments)
    case DoClear => l.(cleared := |l.all|)
  }

  function LogOf(l: Log, es: seq<Event>): Log
    decreases |es|
  {
    if es == [] then l else LogOf(Logged(l, es[0]), es[1..])
  }

  /** Where the retained part of the log begins. */
  function Start(l: Log): nat
    requires l.cleared <= |l.all|
  {
    if |l.all| - l.cleared <= HISTORY_LIMIT then l.cleared else |l.all| - HISTORY_LIMIT
  }

  /** The rows are exactly the last comments since the clear, up to the limit. */
  ghost predicate Shows(s: State, l: Log) {
    l.cleared <= |l.all| && s.received == |l.all| && s.rows == l.all[Start(l)..]
  }

  lemma AppendShows(s: State, l: Log, comments: seq<Comment>)
    requires Shows(s, l)
    ensures Shows(Append(s, comments), Logged(l, DoAppend(comments)))
  {
    if comments != [] {
      var l' := Logged(l, DoAppend(comments));
      var s' := Append(s, comments);
      assert |s'.rows| == |l'.all| - Start(l');
      forall i | 0 <= i < |s'.rows| ensures s'.rows[i] == l'.all[Start(l') + i] {
      }
    } else {
      assert l.all + comments == l.all;
    }
  }

  lemma {:induction false} RunShows(s: State, l: Log, es: seq<Event>)
    requires Shows(s, l)
    ensures Shows(Run(s, es), LogOf(l, es))
    decreases |es|
  {
    if es != [] {
      if es[0].DoAppend? {
        AppendShows(s, l, es[0].comments);
      }
      RunShows(Step(s, es[0]), Logged(l, es[0]), es[1..]);
    }
  }

  /** After any appends and clears the history is exactly the retained end of the log. */
  lemma HistoryShowsLog(es: seq<Event>)
    ensures Shows(Run(Initial, es), LogOf(Log([], 0), es))
  {
    RunShows(Initial, Log([], 0), es);
  }

  // ---------- ids ----------

  /** Every row is found again by its id. */
  lemma RowIdRoundTrip(s: State, row: nat)
    requires |s.rows| <= s.received <= U64_MAX && row < |s.rows|
    ensures RowForId(s, IdAt(s, row)) == row
  {
    Decimal.ParsePrint(s.received - |s.rows| + row);
  }

  /** Whatever is found is a row, and the text parses to the number of its id. */
  lemma RowForIdIsRow(s: State, id: string)
    requires |s.rows| <= s.received
    ensures -1 <= RowForId(s, id) < |s.rows|
    ensures RowForId(s, id) >= 0 ==> Decimal.Parse(id) == Some(s.received - |s.rows| + RowForId(s, id))
  {
  }

  /** A text finds a row exactly when it reads as the number of that row's id. */
  lemma RowForIdExactly(s: State, id: string, row: nat)
    requires |s.rows| <= s.received
    ensures RowForId(s, id) == row <==> row < |s.rows| && Decimal.Parse(id) == Some(s.received - |s.rows| + row)
  {
  }

  /** An id is the printed place of its comment in the log. */
  lemma IdNamesLogPlace(s: State, l: Log, row: nat)
    requires Shows(s, l) && row < |s.rows|
    ensures IdAt(s, row) == Decimal.Print(Start(l) + row) && s.rows[row] == l.all[Start(l) + row]
  {
  }

  lemma {:induction false} LogGrows(l: Log, es: seq<Event>)
    ensures l.all <= LogOf(l, es).all
    decreases |es|
  {
    if es != [] {
      LogGrows(Logged(l, es[0]), es[1..]);
    }
  }

  /** An id seen at one moment names the same comment at any later one, for as long as it
      names a row at all: ids are never reused, even after a clear. */
  lemma IdKeepsComment(before: seq<Event>, after: seq<Event>, row: nat, later: nat)
    requires row < |Run(Initial, before).rows|
    requires later < |Run(Run(Initial, before), after).rows|
    requires IdAt(Run(Initial, before), row) == IdAt(Run(Run(Initial, before), after), later)
    ensures Run(Initial, before).rows[row] == Run(Run(Initial, before), after).rows[later]
  {
    var l := LogOf(Log([], 0), before);
    HistoryShowsLog(before);
    RunShows(Run(Initial, before), l, after);
    LogGrows(l, after);
    Decimal.PrintInjective(Start(l) + row, Start(LogOf(l, after)) + later);
  }

  // ---------- a view that follows the announcements ----------

  /** A view drops the rows announced as removed, and reads those announced as inserted. */
  function Follow(mirror: seq<Comment>, change: Change, rows: seq<Comment>): seq<Comment> {
    match change
    case Removed(count) => if count <= |mirror| then mirror[count..] else []
    case Inserted(first, last) =>
      if first <= |mirror| && first <= last < |rows| then mirror[..first] + rows[first..last + 1] + mirror[first..]
      else mirror
  }

  function FollowAll(mirror: seq<Comment>, changes: seq<Change>, rows: seq<Comment>): seq<Comment>
    decreases |changes|
  {
    if changes == [] then mirror else FollowAll(Follow(mirror, changes[0], rows), changes[1..], rows)
  }

  function ChangesOf(s: State, e: Event): seq<Change> {
    match e
    case DoAppend(comments) => AppendChanges(s, comments)
    case DoClear => ClearChanges(s)
  }

  /** Announced ranges are never empty and always lie within the rows they speak of. */
  lemma ChangesInRange(s: State, e: Event)
    ensures forall i :: 0 <= i < |ChangesOf(s, e)| ==>
      match ChangesOf(s, e)[i]
      case Removed(count) => 0 < count <= |s.rows|
      case Inserted(first, last) => first <= last == |Step(s, e).rows| - 1
  {
  }

  lemma FollowOne(mirror: seq<Comment>, change: Change, rows: seq<Comment>)
    ensures FollowAll(mirror, [change], rows) == Follow(mirror, change, rows)
  {
  }

  lemma FollowStep(s: State, e: Event)
    ensures FollowAll(s.rows, ChangesOf(s, e), Step(s, e).rows) == Step(s, e).rows
  {
    match e
    case DoClear =>
    case DoAppend(comments) =>
      if comments != [] {
        var gone := Overflow(|s.rows|, |comments|);
        var rows := Append(s, comments).rows;
        var insert := Inserted(|s.rows| - gone, |rows| - 1);
        assert AppendChanges(s, comments) == (if gone > 0 then [Removed(gone)] else []) + [insert];
        assert Follow(s.rows[gone..], insert, rows) == rows;
        FollowOne(s.rows[gone..], insert, rows);
        if gone > 0 {
          assert AppendChanges(s, comments)[1..] == [insert];
        }
      }
  }

  function Mirror(s: State, mirror: seq<Comment>, es: seq<Event>): seq<Comment>
    decreases |es|
  {
    if es == [] then mirror
    else Mirror(Step(s, es[0]), FollowAll(mirror, ChangesOf(s, es[0]), Step(s, es[0]).rows), es[1..])
  }

  /** A view driven only by the announcements always shows the rows. */
  lemma {:induction false} MirrorShowsRows(s: State, es: seq<Event>)
    ensures Mirror(s, s.rows, es) == Run(s, es).rows
    decreases |es|
  {
    if es != [] {
      FollowStep(s, es[0]);
      MirrorShowsRows(Step(s, es[0]), es[1..]);
    }
  }

  // ---------- the object ----------

  class CommentModel {
    var rows: seq<Comment>
    var received: nat
    var announced: seq<Change>

    ghost function Now(): State
      reads this
    {
      State(rows, received)
    }

    constructor ()
      ensures Now() == Initial && announced == []
    {
      rows, received, announced := [], 0, [];
    }

    method AppendComments(comments: seq<Comment>)
      modifies this
      ensures Now() == Append(old(Now()), comments)
      ensures announced == old(announced) + AppendChanges(old(Now()), comments)
    {
      if comments == [] {
        return;
      }
      var incoming := |comments|;
      var remove := Overflow(|rows|, incoming);
      if remove > 0 {
        announced := announced + [Removed(remove)];
        rows := rows[remove..];
      }
      var skip := Skipped(incoming);
      var first := |rows|;
      announced := announced + [Inserted(first, first + incoming - skip - 1)];
      received := received + incoming;
      rows := rows + comments[skip..];
    }

    method ClearComments()
      modifies this`rows, this`announced
      ensures Now() == Clear(old(Now()))
      ensures announced == old(announced) + ClearChanges(old(Now()))
    {
      if rows == [] {
        return;
      }
      announced := announced + [Removed(|rows|)];
      rows := [];
    }

    method IdOfRow(row: int) returns (id: string)
      requires |rows| <= received
      ensures id == IdAt(Now(), row)
    {
      if row < 0 || row >= |rows| {
        return "";
      }
      return Decimal.Print(received - |rows| + row);
    }

    method FindRow(id: string) returns (row: int)
      requires |rows| <= received
      ensures row == RowForId(Now(), id)
    {
      var parsed := Decimal.Parse(id);
      if parsed.None? || parsed.value < received - |rows| {
        return -1;
      }
      row := parsed.value - (received - |rows|);
      if row >= |rows| {
        return -1;
      }
    }
  }
}

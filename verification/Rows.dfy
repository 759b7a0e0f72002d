/**
 A query's result: the driver's rows behind it, the error that ended the iteration, and the
 closing, which the reader, the iteration itself and a cancelled context all may start.
 */
module RowsState {
  import opened Wrappers

  datatype Value = Nil | Int(i: int) | Text(s: string) | Bytes(b: string) | Other(code: int)

  /** What the driver can answer instead of a row. */
  datatype RowErr = EOF | Failed(code: int)

  /** One result set: its rows, each with a value for every column, and how it ends. */
  datatype ResultSet = ResultSet(columns: nat, rows: seq<seq<Value>>, end: RowErr)

  /** Calls into the driver and out to the owner of the connection, in order. */
  datatype Action = DriverNext | DriverNextSet | DriverClose | StmtClose | Release(err: Option<int>)

  datatype State = State(
    sets: seq<ResultSet>,          // what the driver will deliver
    multi: bool,                   // the driver knows about further result sets
    hasStmt: bool,                 // a statement is to be closed with the Rows
    cur: nat,
    pos: nat,                      // rows of the current set delivered so far
    closed: bool,
    lasterr: Option<RowErr>,
    lastcols: Option<seq<Value>>,
    log: seq<Action>)

  predicate WellFormed(sets: seq<ResultSet>) {
    && sets != []
    && (forall i, j :: 0 <= i < |sets| && 0 <= j < |sets[i].rows| ==> |sets[i].rows[j]| == sets[i].columns)
  }

  function Begin(sets: seq<ResultSet>, multi: bool, hasStmt: bool): State {
    State(sets, multi, hasStmt, 0, 0, false, None, None, [])
  }

  function Nils(n: nat): (r: seq<Value>)
    ensures |r| == n
  {
    seq(n, i => Nil)
  }

  datatype NextResult = NextResult(doClose: bool, ok: bool)

  /** nextLocked: a row, the end of the set, or an error; doClose asks for a Close afterwards. */
  function NextLocked(s: State): (State, NextResult)
    requires s.cur < |s.sets|
  {
    var rs := s.sets[s.cur];
    if s.closed then (s, NextResult(false, false))
    else if s.pos < |rs.rows| then
      (s.(pos := s.pos + 1, lasterr := None, lastcols := Some(rs.rows[s.pos]), log := s.log + [DriverNext]),
       NextResult(false, true))
    else
      (s.(lasterr := Some(rs.end), log := s.log + [DriverNext],
          lastcols := if s.lastcols.None? then Some(Nils(rs.columns)) else s.lastcols),
       NextResult(rs.end != EOF || !s.multi || s.cur + 1 >= |s.sets|, false))
  }

  /** NextResultSet up to its deferred Close; `fail` is the driver's error, if it has one. */
  function NextSetLocked(s: State, fail: Option<RowErr>): (State, NextResult)
    requires s.cur < |s.sets|
  {
    if s.closed then (s, NextResult(false, false))
    else if !s.multi then (s.(lastcols := None), NextResult(true, false))
    else if s.cur + 1 >= |s.sets| then
      (s.(lastcols := None, lasterr := Some(EOF), log := s.log + [DriverNextSet]), NextResult(true, false))
    else if fail.Some? then
      (s.(lastcols := None, lasterr := fail, log := s.log + [DriverNextSet]), NextResult(true, false))
    else
      (s.(lastcols := None, lasterr := None, cur := s.cur + 1, pos := 0, log := s.log + [DriverNextSet]),
       NextResult(false, true))
  }

  /** close(err), with the driver's answer to its own Close. */
  function CloseWith(s: State, err: Option<RowErr>, res: Option<int>): State {
    if s.closed then s
    else
      s.(closed := true,
         lasterr := if s.lasterr.None? then err else s.lasterr,
         log := s.log + [DriverClose] + (if s.hasStmt then [StmtClose] else []) + [Release(res)])
  }

  /** What Err reports: the end of the rows is not an error. */
  function ErrOf(s: State): Option<RowErr> {
    if s.lasterr == Some(EOF) then None else s.lasterr
  }

  /** The reader's steps and a cancelled context's close, each under the lock of the Rows. */
  datatype Event =
    | Next
    | NextSet(fail: Option<RowErr>)
    | Close(res: Option<int>)
    | ContextEnds(err: RowErr, res: Option<int>)

  function Step(s: State, e: Event): (r: State)
    requires s.cur < |s.sets|
    ensures r.sets == s.sets && r.cur < |r.sets|
  {
    match e
    case Next => NextLocked(s).0
    case NextSet(fail) => NextSetLocked(s, fail).0
    case Close(res) => CloseWith(s, None, res)
    case ContextEnds(err, res) => CloseWith(s, Some(err), res)
  }

  function Run(s: State, es: seq<Event>): (r: State)
    requires s.cur < |s.sets|
    ensures r.sets == s.sets && r.cur < |r.sets|
    decreases |es|
  {
    if es == [] then s else Run(Step(s, es[0]), es[1..])
  }
}

module RowsTheorems {
  import opened Wrappers
  import opened RowsState

  predicate IsCall(a: Action) {
    a.DriverNext? || a.DriverNextSet?
  }

  /** The closing, as the driver and the connection's owner see it. */
  predicate IsClosing(tail: seq<Action>, hasStmt: bool) {
    && |tail| == (if hasStmt then 3 else 2)
    && tail[0] == DriverClose
    && (hasStmt ==> tail[1] == StmtClose)
    && tail[|tail| - 1].Release?
  }

  /** Calls for rows, and then, if and only if the Rows are closed, the closing. */
  ghost predicate LogOk(s: State) {
    var n := if s.closed then (if s.hasStmt then 3 else 2) else 0;
    && n <= |s.log|
    && (forall i :: 0 <= i < |s.log| - n ==> IsCall(s.log[i]))
    && (s.closed ==> IsClosing(s.log[|s.log| - n..], s.hasStmt))
  }

  ghost predicate Inv(s: State) {
    && s.cur < |s.sets| && WellFormed(s.sets)
    && s.pos <= |s.sets[s.cur].rows|
    && (s.lastcols.Some? ==> |s.lastcols.value| == s.sets[s.cur].columns)
    && LogOk(s)
  }

  lemma CloseLog(s: State, err: Option<RowErr>, res: Option<int>)
    requires LogOk(s) && !s.closed
    ensures LogOk(CloseWith(s, err, res))
  {
    var t := CloseWith(s, err, res);
    var n := if s.hasStmt then 3 else 2;
    assert t.log[..|t.log| - n] == s.log;
    assert t.log[|t.log| - n] == DriverClose;
  }

  lemma StepLog(s: State, e: Event)
    requires Inv(s)
    ensures LogOk(Step(s, e))
  {
    if !s.closed {
      match e {
        case Close(res) => CloseLog(s, None, res);
        case ContextEnds(err, res) => CloseLog(s, Some(err), res);
        case _ =>
      }
    }
  }

  lemma StepInv(s: State, e: Event)
    requires Inv(s)
    ensures Inv(Step(s, e))
  {
    hide LogOk;
    StepLog(s, e);
  }

  lemma {:induction false} RunInv(s: State, es: seq<Event>)
    requires Inv(s)
    ensures Inv(Run(s, es))
    decreases |es|
  {
    if es != [] {
      StepInv(s, es[0]);
      RunInv(Step(s, es[0]), es[1..]);
    }
  }

  /**
   Whatever is called in whatever order: the driver's rows are closed once and the connection is
   released once if and only if the Rows are closed, in this order and after every other call.
   */
  lemma ClosedOnce(sets: seq<ResultSet>, multi: bool, hasStmt: bool, es: seq<Event>)
    requires WellFormed(sets)
    ensures LogOk(Run(Begin(sets, multi, hasStmt), es))
  {
    RunInv(Begin(sets, multi, hasStmt), es);
  }

  /** Once closed, nothing changes any more: not Err, not the log. */
  lemma {:induction false} ClosedIsFinal(s: State, es: seq<Event>)
    requires s.closed && s.cur < |s.sets|
    ensures Run(s, es) == s
    decreases |es|
  {
    if es != [] {
      ClosedIsFinal(s, es[1..]);
    }
  }

  /**
   Close never changes Err: it is what it was when Close was called, and stays so whatever is called
   afterwards, a cancelled context included.
   */
  lemma CloseKeepsErr(s: State, res: Option<int>, later: seq<Event>)
    requires s.cur < |s.sets|
    ensures ErrOf(Run(s, [Close(res)] + later)) == ErrOf(s)
  {
    assert ([Close(res)] + later)[1..] == later;
    ClosedIsFinal(Step(s, Close(res)), later);
  }

  /** The reader's Next in full, with the Close that an end or an error asks for. */
  function NextCall(s: State, res: Option<int>): State
    requires s.cur < |s.sets|
  {
    var r := NextLocked(s);
    if r.1.doClose then CloseWith(r.0, None, res) else r.0
  }

  /**
   What Err is for: after Next it is None unless the driver has just failed, and a failure is there
   to stay, whatever is called afterwards.
   */
  lemma ErrTellsFailure(s: State, res: Option<int>, later: seq<Event>)
    requires Inv(s) && !s.closed && ErrOf(s) == None
    ensures var t, rs := NextCall(s, res), s.sets[s.cur];
      && (ErrOf(t).Some? <==> s.pos == |rs.rows| && rs.end.Failed?)
      && (ErrOf(t).Some? ==> ErrOf(t) == Some(rs.end) && t.closed && ErrOf(Run(t, later)) == Some(rs.end))
  {
    InvCur(s);
    hide Inv;
    var t := NextCall(s, res);
    if t.closed {
      ClosedIsFinal(t, later);
    }
  }

  /** A cancelled context shows in Err exactly if the driver had not answered with an end or error. */
  lemma ContextShows(s: State, err: RowErr, res: Option<int>)
    requires s.cur < |s.sets| && err != EOF
    ensures var t := Step(s, ContextEnds(err, res));
      && (!s.closed && s.lasterr.None? ==> ErrOf(t) == Some(err))
      && (s.closed || s.lasterr.Some? ==> ErrOf(t) == ErrOf(s))
  {
  }

  /** The rows the reader gets from a list of calls. */
  function Delivered(s: State, es: seq<Event>): seq<seq<Value>>
    requires s.cur < |s.sets|
    decreases |es|
  {
    if es == [] then []
    else
      var row := if es[0].Next? && NextLocked(s).1.ok then [NextLocked(s).0.lastcols.value] else [];
      row + Delivered(Step(s, es[0]), es[1..])
  }

  lemma DeliveredOne(s: State, e: Event)
    requires Inv(s) && !e.NextSet?
    ensures var t := Step(s, e);
      && t.cur == s.cur && s.pos <= t.pos <= |s.sets[s.cur].rows|
      && s.sets[s.cur].rows[s.pos..t.pos]
           == if e.Next? && NextLocked(s).1.ok then [NextLocked(s).0.lastcols.value] else []
  {
    hide LogOk, WellFormed;
  }

  /** Within a result set the reader gets the driver's rows in order, none twice and none skipped. */
  lemma {:induction false} DeliveredInOrder(s: State, es: seq<Event>)
    requires Inv(s)
    requires forall i :: 0 <= i < |es| ==> !es[i].NextSet?
    ensures var t := Run(s, es);
      && t.cur == s.cur && s.pos <= t.pos <= |s.sets[s.cur].rows|
      && Delivered(s, es) == s.sets[s.cur].rows[s.pos..t.pos]
    decreases |es|
  {
    if es != [] {
      InvCur(s);
      hide Inv, Step, NextLocked;
      var s1 := Step(s, es[0]);
      StepInv(s, es[0]);
      DeliveredOne(s, es[0]);
      DeliveredInOrder(s1, es[1..]);
      var rows, t := s.sets[s.cur].rows, Run(s1, es[1..]);
      assert rows[s.pos..t.pos] == rows[s.pos..s1.pos] + rows[s1.pos..t.pos];
    }
  }

  /** Where the delivered rows come from: set and position in it. */
  function Places(s: State, es: seq<Event>): (r: seq<(nat, nat)>)
    requires s.cur < |s.sets|
    ensures |r| == |Delivered(s, es)|
    decreases |es|
  {
    if es == [] then []
    else
      var place := if es[0].Next? && NextLocked(s).1.ok then [(s.cur, s.pos)] else [];
      place + Places(Step(s, es[0]), es[1..])
  }

  /** The reader stands before row i of set c and gets that row, or the first one of a later set. */
  predicate ComesNext(c: nat, i: nat, place: (nat, nat)) {
    place == (c, i) || (c < place.0 && place.1 == 0)
  }

  /** In order from row i of set c on: after a row comes the next of its set, or the first of a later one. */
  ghost predicate InOrder(c: nat, i: nat, places: seq<(nat, nat)>) {
    && (places != [] ==> ComesNext(c, i, places[0]))
    && (forall n :: 0 < n < |places| ==> ComesNext(places[n - 1].0, places[n - 1].1 + 1, places[n]))
  }

  ghost predicate RowsAt(sets: seq<ResultSet>, places: seq<(nat, nat)>, rows: seq<seq<Value>>) {
    && |places| == |rows|
    && (forall n :: 0 <= n < |rows| ==>
          && places[n].0 < |sets| && places[n].1 < |sets[places[n].0].rows|
          && rows[n] == sets[places[n].0].rows[places[n].1])
  }

  /**
   Whatever is called: what the reader gets are the driver's rows in the driver's order, across the
   result sets too; within a set none is skipped or repeated, and each set begins with its first.
   */
  lemma {:induction false} DeliveredAcrossSets(s: State, es: seq<Event>)
    requires Inv(s)
    ensures RowsAt(s.sets, Places(s, es), Delivered(s, es))
    ensures InOrder(s.cur, s.pos, Places(s, es))
    decreases |es|
  {
    if es != [] {
      hide Inv, Step, NextLocked, RowsAt, InOrder;
      var s1 := Step(s, es[0]);
      StepInv(s, es[0]);
      DeliveredAcrossSets(s1, es[1..]);
      OnePlace(s, es[0], Places(s1, es[1..]), Delivered(s1, es[1..]));
    }
  }

  /** A row in front of those that come next. */
  lemma PlaceInFront(sets: seq<ResultSet>, c: nat, i: nat, places: seq<(nat, nat)>, rows: seq<seq<Value>>)
    requires RowsAt(sets, places, rows) && InOrder(c, i + 1, places)
    requires c < |sets| && i < |sets[c].rows|
    ensures RowsAt(sets, [(c, i)] + places, [sets[c].rows[i]] + rows) && InOrder(c, i, [(c, i)] + places)
  {
    var longer := [(c, i)] + places;
    assert forall n :: 0 < n < |longer| ==> longer[n] == places[n - 1];
  }

  /** What comes next after a step that delivers nothing came next before it. */
  lemma PlaceMoves(s: State, e: Event, places: seq<(nat, nat)>)
    requires Inv(s) && !(e.Next? && NextLocked(s).1.ok) && InOrder(Step(s, e).cur, Step(s, e).pos, places)
    ensures InOrder(s.cur, s.pos, places)
  {
    hide LogOk, WellFormed;
  }

  lemma OnePlace(s: State, e: Event, places: seq<(nat, nat)>, rows: seq<seq<Value>>)
    requires Inv(s) && RowsAt(s.sets, places, rows) && InOrder(Step(s, e).cur, Step(s, e).pos, places)
    ensures e.Next? && NextLocked(s).1.ok ==>
      && NextLocked(s).0.lastcols.Some?
      && RowsAt(s.sets, [(s.cur, s.pos)] + places, [NextLocked(s).0.lastcols.value] + rows)
      && InOrder(s.cur, s.pos, [(s.cur, s.pos)] + places)
    ensures !(e.Next? && NextLocked(s).1.ok) ==>
      RowsAt(s.sets, [] + places, [] + rows) && InOrder(s.cur, s.pos, [] + places)
  {
    hide LogOk, WellFormed, RowsAt, InOrder;
    if e.Next? && NextLocked(s).1.ok {
      PlaceInFront(s.sets, s.cur, s.pos, places, rows);
    } else {
      PlaceMoves(s, e, places);
      assert [] + places == places && [] + rows == rows;
    }
  }

  /**
   What Next answers: a row exactly if there is one left in the set, and then the next one; else the
   end of the set, which closes the Rows unless it is a normal end with another set behind it.
   */
  lemma NextAnswers(s: State, res: Option<int>)
    requires Inv(s) && !s.closed
    ensures var ok, t, rs := NextLocked(s).1.ok, NextCall(s, res), s.sets[s.cur];
      && t.cur == s.cur && (ok <==> s.pos < |rs.rows|) && s.log + [DriverNext] <= t.log
      && (ok ==> t.lastcols == Some(rs.rows[s.pos]) && t.pos == s.pos + 1 && t.lasterr == None && !t.closed)
      && (!ok ==> t.lastcols.Some? && (s.lastcols.Some? ==> t.lastcols == s.lastcols))
      && (!ok ==> t.pos == s.pos && t.lasterr == Some(rs.end)
                  && (t.closed <==> rs.end != EOF || !s.multi || s.cur == |s.sets| - 1))
  {
    hide LogOk, WellFormed;
  }

  /** The reader's NextResultSet in full. */
  function NextSetCall(s: State, fail: Option<RowErr>, res: Option<int>): State
    requires s.cur < |s.sets|
  {
    var r := NextSetLocked(s, fail);
    if r.1.doClose then CloseWith(r.0, None, res) else r.0
  }

  /**
   What NextResultSet answers: it succeeds exactly if the driver knows of another set and does not
   fail, and then the reader stands before the first row of the set, without an error; if it does
   not succeed the Rows are closed, and Err tells the driver's failure.
   */
  lemma NextSetAnswers(s: State, fail: Option<RowErr>, res: Option<int>)
    requires Inv(s) && !s.closed
    ensures var ok, t := NextSetLocked(s, fail).1.ok, NextSetCall(s, fail, res);
      && (ok <==> s.multi && s.cur + 1 < |s.sets| && fail == None)
      && (ok ==> !t.closed && t.cur == s.cur + 1 && t.pos == 0 && t.lastcols == None && ErrOf(t) == None)
      && (!ok ==> t.closed && t.cur == s.cur && t.pos == s.pos && t.lastcols == None)
      && (if s.multi then s.log + [DriverNextSet] else s.log) <= t.log
      && (!ok && !s.multi ==> ErrOf(t) == ErrOf(s))
      && (!ok && s.multi && s.cur + 1 == |s.sets| ==> ErrOf(t) == None)
      && (!ok && s.multi && s.cur + 1 < |s.sets| ==> ErrOf(t) == if fail == Some(EOF) then None else fail)
  {
    hide LogOk, WellFormed;
  }

  lemma InvCur(s: State)
    requires Inv(s)
    ensures s.cur < |s.sets| && s.pos <= |s.sets[s.cur].rows|
  {
  }
}

/** The Rows object, and the loop that drains it for the caller on the other side. */
module RowsDrain {
  import opened Wrappers
  import opened RowsState
  import opened RowsTheorems

  /** A value as the caller gets it: bytes become a string. */
  function Exported(v: Value): (r: Value)
    ensures !r.Bytes?
    ensures !v.Bytes? ==> r == v
  {
    match v
    case Bytes(b) => Text(b)
    case _ => v
  }

  function ExportedRow(row: seq<Value>): (r: seq<Value>)
    ensures |r| == |row|
    ensures forall i :: 0 <= i < |row| ==> r[i] == Exported(row[i])
  {
    seq(|row|, i requires 0 <= i < |row| => Exported(row[i]))
  }

  datatype CRows = CRows(rows: seq<seq<Value>>, columnCount: nat, rowsCount: nat)

  /** The state of a Rows object after its current set has been read to the end. */
  function Exhausted(s: State, res: Option<int>): State
    requires s.cur < |s.sets| && s.pos <= |s.sets[s.cur].rows| && !s.closed
  {
    var rs := s.sets[s.cur];
    var last := s.(pos := |rs.rows|, lasterr := Some(rs.end),
                   lastcols := if s.pos < |rs.rows| then Some(rs.rows[|rs.rows| - 1])
                               else if s.lastcols.None? then Some(Nils(rs.columns)) else s.lastcols,
                   log := s.log + seq(|rs.rows| - s.pos + 1, i => DriverNext));
    if rs.end == EOF && s.multi && s.cur + 1 < |s.sets| then last else CloseWith(last, None, res)
  }

  /** Rows of the current set not yet fetched. */
  function Left(s: State): nat
    requires s.cur < |s.sets| && s.pos <= |s.sets[s.cur].rows|
  {
    |s.sets[s.cur].rows| - s.pos
  }

  /** n more rows of the current set have been read. */
  ghost function Reading(s: State, n: nat): (r: State)
    requires s.cur < |s.sets| && s.pos <= |s.sets[s.cur].rows| && n <= Left(s)
    ensures r.sets == s.sets && r.cur == s.cur && r.closed == s.closed
  {
    if n == 0 then s
    else s.(pos := s.pos + n, lasterr := None, lastcols := Some(s.sets[s.cur].rows[s.pos + n - 1]),
            log := s.log + seq(n, i => DriverNext))
  }

  /** The next n rows of the current set, as they are exported. */
  function Exports(s: State, n: nat): (r: seq<seq<Value>>)
    requires s.cur < |s.sets| && s.pos <= |s.sets[s.cur].rows| && n <= Left(s)
    ensures |r| == n
  {
    seq(n, i requires 0 <= i < n => ExportedRow(s.sets[s.cur].rows[s.pos + i]))
  }

  /**
   Where in the drain the context ends: so many rows have been fetched by then, and Scan has read the
   last of them or has yet to.
   */
  datatype Cut = Cut(fetched: nat, scanned: bool, err: RowErr)

  predicate CutShort(s: State, cut: Option<Cut>)
    requires s.cur < |s.sets| && s.pos <= |s.sets[s.cur].rows|
  {
    cut.Some? && cut.value.fetched <= Left(s)
  }

  /** The state of a Rows object after a drain. */
  ghost function Drained(s: State, cut: Option<Cut>, res: Option<int>): State
    requires s.cur < |s.sets| && s.pos <= |s.sets[s.cur].rows| && !s.closed
  {
    if CutShort(s, cut) then CloseWith(Reading(s, cut.value.fetched), Some(cut.value.err), res) else Exhausted(s, res)
  }

  /**
   What a drain returns: the rest of the set, or the rows exported before the context ended; a row
   that was fetched and not yet scanned by then is there as nulls.
   */
  function DrainedRows(s: State, cut: Option<Cut>): seq<seq<Value>>
    requires s.cur < |s.sets| && s.pos <= |s.sets[s.cur].rows|
  {
    if !CutShort(s, cut) then Exports(s, Left(s))
    else if cut.value.scanned || cut.value.fetched == 0 then Exports(s, cut.value.fetched)
    else Exports(s, cut.value.fetched - 1) + [Nils(s.sets[s.cur].columns)]
  }

  class Rows {
    const sets: seq<ResultSet>
    const multi: bool
    const hasStmt: bool
    var cur: nat
    var pos: nat
    var closed: bool
    var lasterr: Option<RowErr>
    var lastcols: Option<seq<Value>>
    var log: seq<Action>

    ghost function View(): State
      reads this
    {
      State(sets, multi, hasStmt, cur, pos, closed, lasterr, lastcols, log)
    }

    constructor (sets: seq<ResultSet>, multi: bool, hasStmt: bool)
      ensures View() == Begin(sets, multi, hasStmt)
    {
      this.sets, this.multi, this.hasStmt := sets, multi, hasStmt;
      cur, pos, closed, lasterr, lastcols, log := 0, 0, false, None, None, [];
    }

    method NextLocked() returns (doClose: bool, ok: bool)
      requires Inv(View())
      modifies this
      ensures View() == RowsState.NextLocked(old(View())).0 && Inv(View())
      ensures NextResult(doClose, ok) == RowsState.NextLocked(old(View())).1
    {
      StepInv(View(), Event.Next);
      if closed {
        return false, false;
      }
      if lastcols.None? {
        lastcols := Some(Nils(sets[cur].columns));
      }
      log := log + [DriverNext];
      if pos < |sets[cur].rows| {
        lastcols := Some(sets[cur].rows[pos]);
        pos := pos + 1;
        lasterr := None;
        return false, true;
      }
      lasterr := Some(sets[cur].end);
      if lasterr != Some(EOF) {
        return true, false;
      }
      if !multi {
        return true, false;
      }
      doClose, ok := false, false;
      if cur + 1 >= |sets| {
        doClose := true;
      }
    }

    method CloseWith(err: Option<RowErr>, res: Option<int>)
      requires Inv(View())
      modifies this
      ensures View() == RowsState.CloseWith(old(View()), err, res) && Inv(View())
      ensures closed && (old(closed) ==> log == old(log) && lasterr == old(lasterr))
      ensures !old(closed) ==> lasterr == if old(lasterr) == None then err else old(lasterr)
      ensures !old(closed) && hasStmt ==> log == old(log) + [DriverClose, StmtClose, Release(res)]
      ensures !old(closed) && !hasStmt ==> log == old(log) + [DriverClose, Release(res)]
    {
      hide Inv;
      if err.None? {
        StepInv(View(), Event.Close(res));
      } else {
        StepInv(View(), ContextEnds(err.value, res));
      }
      if closed {
        return;
      }
      closed := true;
      if lasterr.None? {
        lasterr := err;
      }
      log := log + [DriverClose];
      if hasStmt {
        log := log + [StmtClose];
      }
      log := log + [Release(res)];
      assert log == old(log) + [DriverClose] + (if hasStmt then [StmtClose] else []) + [Release(res)];
    }

    method Next(res: Option<int>) returns (ok: bool)
      requires Inv(View())
      modifies this
      ensures Inv(View())
      ensures var r := RowsState.NextLocked(old(View()));
        ok == r.1.ok && View() == if r.1.doClose then RowsState.CloseWith(r.0, None, res) else r.0
      ensures ok <==> !old(closed) && old(pos) < |sets[old(cur)].rows|
      ensures ok ==> lastcols == Some(sets[cur].rows[old(pos)])
    {
      var doClose;
      doClose, ok := NextLocked();
      if doClose {
        CloseWith(None, res);
      }
    }

    method NextResultSet(fail: Option<RowErr>, res: Option<int>) returns (ok: bool)
      requires Inv(View())
      modifies this
      ensures Inv(View())
      ensures var r := NextSetLocked(old(View()), fail);
        ok == r.1.ok && View() == if r.1.doClose then RowsState.CloseWith(r.0, None, res) else r.0
      ensures ok <==> !old(closed) && multi && old(cur) + 1 < |sets| && fail == None
      ensures if ok then cur == old(cur) + 1 && pos == 0 && !closed else closed
    {
      StepInv(View(), NextSet(fail));
      if closed {
        return false;
      }
      lastcols := None;
      if multi {
        log := log + [DriverNextSet];
        if cur + 1 >= |sets| {
          lasterr := Some(EOF);
        } else if fail.Some? {
          lasterr := fail;
        } else {
          lasterr := None;
          cur := cur + 1;
          pos := 0;
          return true;
        }
      }
      CloseWith(None, res);
      ok := false;
    }

    method Err() returns (err: Option<RowErr>)
      ensures err == ErrOf(View())
    {
      err := if lasterr.Some? && lasterr != Some(EOF) then lasterr else None;
    }

    /** Scan into as many untyped destinations as there are columns. */
    method Scan(n: nat) returns (row: Result<seq<Value>, Option<RowErr>>)
      ensures !closed && ErrOf(View()) == None && lastcols.Some? && |lastcols.value| == n ==> row == Ok(lastcols.value)
      ensures row.Ok? ==> !closed && lastcols == Some(row.value) && |row.value| == n
    {
      if lasterr.Some? && lasterr != Some(EOF) {
        return Fail(lasterr);
      }
      if closed || lastcols.None? || n != |lastcols.value| {
        return Fail(None);
      }
      row := Ok(lastcols.value);
    }

    /** One turn of the drain loop after a successful Next; what Scan reports is not looked at. */
    method ExportRow(columnCount: nat) returns (rowSlice: seq<Value>)
      requires lastcols.Some? && |lastcols.value| == columnCount
      ensures !closed && ErrOf(View()).None? ==> rowSlice == ExportedRow(lastcols.value)
      ensures closed ==> rowSlice == Nils(columnCount)
      ensures |rowSlice| == columnCount
      ensures !closed && ErrOf(View()).None? ==> RowArrives(lastcols.value, rowSlice)
      ensures closed ==> AllNil(rowSlice)
    {
      var scanned := Scan(columnCount);
      var row := if scanned.Ok? then scanned.value else Nils(columnCount);
      rowSlice := [];
      for i := 0 to columnCount
        invariant rowSlice == ExportedRow(row)[..i]
      {
        var v := row[i];
        match v
        case Bytes(b) => rowSlice := rowSlice + [Text(b)];
        case _ => rowSlice := rowSlice + [v];
      }
    }

    /** The goroutine that waits for the context: it closes the Rows if this is where the context ends. */
    method AwaitDone(cut: Option<Cut>, fetched: nat, scanned: bool, res: Option<int>)
      requires Inv(View())
      modifies this
      ensures Inv(View())
      ensures View() == if cut.Some? && cut.value.fetched == fetched && cut.value.scanned == scanned
                        then RowsState.CloseWith(old(View()), Some(cut.value.err), res) else old(View())
    {
      if cut.Some? && cut.value.fetched == fetched && cut.value.scanned == scanned {
        CloseWith(Some(cut.value.err), res);
      }
    }

    /**
     The drain loop, with the context ending between any two of its calls or not at all. It returns
     what DrainedRows says, every row as wide as the set has columns, and leaves the Rows as Drained
     says.
     */
    method ConvertTocRows(cut: Option<Cut>, res: Option<int>) returns (crows: CRows)
      requires Inv(View()) && !closed
      modifies this
      ensures Inv(View()) && View() == Drained(old(View()), cut, res)
      ensures crows.rows == DrainedRows(old(View()), cut)
      ensures crows.columnCount == sets[old(cur)].columns && crows.rowsCount == |crows.rows|
      ensures forall i :: 0 <= i < |crows.rows| ==> |crows.rows[i]| == crows.columnCount
      ensures DriversValues(old(View()), cut, crows.rows)
    {
      hide Inv, Left, Drained, DrainedRows, CutShort, Reading, Exports, ExportedRow, RowsState.CloseWith;
      InvCur(View());
      var columnCount := sets[cur].columns;
      var results: seq<seq<Value>> := [];
      ghost var start := View();
      DrainBegins(start, cut, res);
      AwaitDone(cut, 0, false, res);
      AwaitDone(cut, 0, true, res);
      var more := NextAfter(start, 0, cut, res);
      while more
        invariant Inv(View())
        invariant more ==> |results| < Left(start) && View() == Reading(start, |results| + 1)
        invariant more ==> results == Exports(start, |results|) && (cut.Some? ==> |results| < cut.value.fetched)
        invariant !more ==> results == DrainedRows(start, cut) && View() == Drained(start, cut, res)
        decreases if more then Left(start) - |results| else 0
      {
        var n := |results| + 1;
        var rowSlice := ExportNext(start, n, cut, res);
        results := results + [rowSlice];
        DrainTurn(start, n, cut, results);
        more := NextAfter(start, n, cut, res);
      }
      DrainedWidth(start, cut);
      DrainedValues(start, cut);
      crows := CRows(results, columnCount, |results|);
    }

    /** The n-th turn of the loop: the context may end before the row is scanned, or after it. */
    method ExportNext(ghost start: State, n: nat, cut: Option<Cut>, res: Option<int>) returns (rowSlice: seq<Value>)
      requires Inv(View()) && Inv(start) && !start.closed && start.sets == sets
      requires start.cur < |sets| && start.pos <= |sets[start.cur].rows| && 0 < n <= Left(start)
      requires View() == Reading(start, n) && (cut.Some? ==> n <= cut.value.fetched)
      modifies this
      ensures Inv(View())
      ensures View() == if cut.Some? && cut.value.fetched == n then Drained(start, cut, res) else Reading(start, n)
      ensures rowSlice == if cut.Some? && cut.value.fetched == n && !cut.value.scanned
                          then Nils(sets[start.cur].columns)
                          else ExportedRow(sets[start.cur].rows[start.pos + n - 1])
    {
      hide Inv, Reading, ExportedRow;
      ReadingRow(start, n);
      AwaitDone(cut, n, false, res);
      rowSlice := ExportRow(sets[cur].columns);
      AwaitDone(cut, n, true, res);
    }

    /** rows.Next() after n rows since the loop began, of Rows that the context may have closed. */
    method NextAfter(ghost start: State, ghost n: nat, ghost cut: Option<Cut>, res: Option<int>) returns (more: bool)
      requires Inv(View()) && Inv(start) && !start.closed && start.sets == sets
      requires start.cur < |sets| && start.pos <= |sets[start.cur].rows| && n <= Left(start)
      requires cut.Some? ==> n <= cut.value.fetched
      requires View() == if cut.Some? && cut.value.fetched == n then Drained(start, cut, res) else Reading(start, n)
      modifies this
      ensures Inv(View())
      ensures more ==> n < Left(start) && View() == Reading(start, n + 1) && (cut.Some? ==> n < cut.value.fetched)
      ensures !more ==> View() == Drained(start, cut, res)
      ensures !more ==> (n == Left(start) && !CutShort(start, cut)) || (cut.Some? && cut.value.fetched == n)
    {
      hide Inv, Exhausted, Reading, RowsState.NextLocked, RowsState.CloseWith;
      InvCur(start);
      if cut.Some? && cut.value.fetched == n {
        NothingAfterCut(start, cut, res);
      } else {
        ReadingOn(start, n, res);
      }
      more := Next(res);
    }
  }

  lemma ReadingOn(s: State, n: nat, res: Option<int>)
    requires s.cur < |s.sets| && n <= |s.sets[s.cur].rows| - s.pos && !s.closed
    ensures var r := NextLocked(Reading(s, n));
      if n < |s.sets[s.cur].rows| - s.pos then r == (Reading(s, n + 1), NextResult(false, true))
      else !r.1.ok && Exhausted(s, res) == if r.1.doClose then CloseWith(r.0, None, res) else r.0
  {
    assert s.log + seq(n, i => DriverNext) + [DriverNext] == s.log + seq(n + 1, i => DriverNext);
    assert s.log + [] == s.log;
  }

  lemma NothingAfterCut(s: State, cut: Option<Cut>, res: Option<int>)
    requires s.cur < |s.sets| && s.pos <= |s.sets[s.cur].rows| && !s.closed && CutShort(s, cut)
    ensures var t := Drained(s, cut, res); t.cur < |t.sets| && NextLocked(t) == (t, NextResult(false, false))
  {
  }

  lemma DrainBegins(s: State, cut: Option<Cut>, res: Option<int>)
    requires s.cur < |s.sets| && s.pos <= |s.sets[s.cur].rows| && !s.closed
    ensures Reading(s, 0) == s && Exports(s, 0) == []
    ensures cut.Some? && cut.value.fetched == 0 ==> DrainedRows(s, cut) == []
    ensures cut.Some? && cut.value.fetched == 0 ==>
      Drained(s, cut, res) == CloseWith(s, Some(cut.value.err), res) && Drained(s, cut, res).closed
    ensures Left(s) == 0 && !CutShort(s, cut) ==> DrainedRows(s, cut) == []
  {
  }

  lemma ReadingRow(s: State, n: nat)
    requires Inv(s) && !s.closed && s.cur < |s.sets| && 0 < n <= |s.sets[s.cur].rows| - s.pos
    ensures var t := Reading(s, n);
      && !t.closed && t.lasterr.None? && t.lastcols == Some(s.sets[s.cur].rows[s.pos + n - 1])
      && |t.lastcols.value| == s.sets[s.cur].columns
  {
  }

  /** With the n-th row, exported or lost, the list is what it must be if the drain ends here. */
  lemma DrainTurn(s: State, n: nat, cut: Option<Cut>, results: seq<seq<Value>>)
    requires s.cur < |s.sets| && s.pos <= |s.sets[s.cur].rows| && 0 < n <= Left(s)
    requires |results| == n && results[..n - 1] == Exports(s, n - 1) && (cut.Some? ==> n <= cut.value.fetched)
    requires results[n - 1] ==
      if cut.Some? && cut.value.fetched == n && !cut.value.scanned then Nils(s.sets[s.cur].columns)
      else ExportedRow(s.sets[s.cur].rows[s.pos + n - 1])
    ensures cut.Some? && cut.value.fetched == n ==> results == DrainedRows(s, cut)
    ensures (cut.Some? ==> n < cut.value.fetched) ==> results == Exports(s, n)
    ensures n == Left(s) && !CutShort(s, cut) ==> results == DrainedRows(s, cut)
  {
    assert results == results[..n - 1] + [results[n - 1]];
    assert Exports(s, n) == Exports(s, n - 1) + [ExportedRow(s.sets[s.cur].rows[s.pos + n - 1])];
  }

  /** The column value v of the driver has arrived as r: bytes as the string of the same characters. */
  predicate Arrives(v: Value, r: Value) {
    match v
    case Bytes(b) => r == Text(b)
    case Nil => r == Nil
    case Int(i) => r == Int(i)
    case Text(t) => r == Text(t)
    case Other(c) => r == Other(c)
  }

  ghost predicate RowArrives(driver: seq<Value>, row: seq<Value>) {
    |row| == |driver| && forall j :: 0 <= j < |row| ==> Arrives(driver[j], row[j])
  }

  ghost predicate AllNil(row: seq<Value>) {
    forall j :: 0 <= j < |row| ==> row[j] == Nil
  }

  /** Row i was fetched when the context ended, and not scanned. */
  predicate Lost(cut: Option<Cut>, i: nat) {
    cut.Some? && !cut.value.scanned && i + 1 == cut.value.fetched
  }

  /**
   The rows a caller is given are the driver's: as many as were left in the set, or were fetched when
   the context ended, in order and column by column the driver's values; a lost row is all nulls.
   */
  ghost predicate DriversValues(s: State, cut: Option<Cut>, rows: seq<seq<Value>>)
    requires s.cur < |s.sets| && s.pos <= |s.sets[s.cur].rows|
  {
    var rs := s.sets[s.cur];
    && |rows| <= |rs.rows| - s.pos
    && |rows| == (if cut.Some? && cut.value.fetched <= |rs.rows| - s.pos then cut.value.fetched else |rs.rows| - s.pos)
    && (forall i: nat :: i < |rows| ==>
          if Lost(cut, i) then AllNil(rows[i]) else RowArrives(rs.rows[s.pos + i], rows[i]))
  }

  lemma DrainedValues(s: State, cut: Option<Cut>)
    requires s.cur < |s.sets| && s.pos <= |s.sets[s.cur].rows|
    ensures DriversValues(s, cut, DrainedRows(s, cut))
  {
    var rows, driver := DrainedRows(s, cut), s.sets[s.cur].rows;
    forall i: nat | i < |rows|
      ensures if Lost(cut, i) then AllNil(rows[i]) else s.pos + i < |driver| && RowArrives(driver[s.pos + i], rows[i])
    {
      if !Lost(cut, i) {
        assert rows[i] == ExportedRow(driver[s.pos + i]);
      }
    }
  }

  lemma ExportsWidth(s: State, n: nat)
    requires Inv(s) && n <= Left(s)
    ensures forall i :: 0 <= i < n ==> |Exports(s, n)[i]| == s.sets[s.cur].columns
  {
    forall i | 0 <= i < n ensures |Exports(s, n)[i]| == s.sets[s.cur].columns {
      assert Exports(s, n)[i] == ExportedRow(s.sets[s.cur].rows[s.pos + i]);
    }
  }

  lemma DrainedWidth(s: State, cut: Option<Cut>)
    requires Inv(s)
    ensures forall i :: 0 <= i < |DrainedRows(s, cut)| ==> |DrainedRows(s, cut)[i]| == s.sets[s.cur].columns
  {
    ExportsWidth(s, Left(s));
    if CutShort(s, cut) {
      var n := cut.value.fetched;
      ExportsWidth(s, if cut.value.scanned || n == 0 then n else n - 1);
    }
  }

  /**
   The outcome of a drain of fresh Rows, for every stream of rows and wherever the context ends: the
   Rows are closed and the connection released, once each and at the end, unless the drain was left
   alone and the set ended normally with another one behind it; Err tells the context's end, or a
   failure from an end; without an error no row is missing; and once closed, whatever is called
   later changes nothing.
   */
  lemma DrainOutcome(sets: seq<ResultSet>, multi: bool, hasStmt: bool, cut: Option<Cut>, res: Option<int>,
                     later: seq<Event>)
    requires WellFormed(sets) && (cut.Some? ==> cut.value.err != EOF)
    ensures var s := Begin(sets, multi, hasStmt);
      var t := Drained(s, cut, res);
      && (t.closed <==> CutShort(s, cut) || !(sets[0].end == EOF && multi && |sets| > 1))
      && LogOk(t)
      && ErrOf(t) == (if CutShort(s, cut) then Some(cut.value.err)
                      else if sets[0].end == EOF then None else Some(sets[0].end))
      && (ErrOf(t).None? ==> DrainedRows(s, cut) == Exports(s, |sets[0].rows|))
      && (t.closed ==> Run(t, later) == t)
  {
    var s := Begin(sets, multi, hasStmt);
    if CutShort(s, cut) {
      CutOutcome(s, cut, res);
    } else {
      UncutOutcome(sets, multi, hasStmt, res);
    }
    var t := Drained(s, cut, res);
    if t.closed {
      ClosedIsFinal(t, later);
    }
  }

  lemma CutOutcome(s: State, cut: Option<Cut>, res: Option<int>)
    requires Inv(s) && !s.closed && s.log == [] && s.lasterr.None? && CutShort(s, cut) && cut.value.err != EOF
    ensures var t := Drained(s, cut, res);
      t.closed && t.cur < |t.sets| && LogOk(t) && ErrOf(t) == Some(cut.value.err)
  {
    var last := Reading(s, cut.value.fetched);
    assert s.log + seq(cut.value.fetched, i => DriverNext) == seq(cut.value.fetched, i => DriverNext);
    assert LogOk(last);
    CloseLog(last, Some(cut.value.err), res);
  }

  lemma UncutOutcome(sets: seq<ResultSet>, multi: bool, hasStmt: bool, res: Option<int>)
    requires WellFormed(sets)
    ensures var t := Exhausted(Begin(sets, multi, hasStmt), res);
      && (t.closed <==> !(sets[0].end == EOF && multi && |sets| > 1))
      && LogOk(t) && t.cur < |t.sets|
      && ErrOf(t) == (if sets[0].end == EOF then None else Some(sets[0].end))
  {
    var start := Begin(sets, multi, hasStmt);
    var rows := sets[0].rows;
    var calls := seq(|rows| + 1, i => DriverNext);
    assert start.log + calls == calls;
    var last := Exhausted(start, res).(closed := false, log := calls);
    assert LogOk(last);
    CloseLog(last, None, res);
  }
}

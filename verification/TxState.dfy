/**
 A transaction as a state machine: any number of queries on it, and any number of calls that
 try to end it (Commit, Rollback, and the goroutine that rolls back when the context ends),
 interleaved at every lock operation, atomic operation and driver call.
 */
module TxState {
  import opened Wrappers
  import opened DriverConns

  datatype Kind = CommitCall | RollbackCall | AwaitDoneCall

  /** Where a call that wants to end the transaction stands. */
  datatype Phase =
    | Called
    | Passed                             // past the context check (Commit) or the wait for it (awaitDone)
    | Won                                // its compare-and-swap moved `done`
    | Cancelled                          // has cancelled the transaction's context
    | Locked                             // holds the write lock
    | Unlocked                           // has released it again
    | Ended(err: Option<Err>)            // the driver's Commit or Rollback has returned
    | Cleaned(err: Option<Err>)          // prepared statements have been closed, or skipped
    | Returned(ok: bool)

  datatype Ender = Ender(kind: Kind, phase: Phase)

  /** Where a query stands: asking for the read lock, holding it, using the connection, or done. */
  datatype Query = Asking | Holding | Using | Finished

  /** What happens on the connection, in order. */
  datatype Action =
    | RunQuery(q: nat)
    | DriverCommit(err: Option<Err>)
    | DriverRollback(err: Option<Err>)
    | ClosePrepared
    | Release(err: Option<Err>)

  datatype Tx = Tx(
    done: bool,
    ctxDone: bool,
    keepConnOnRollback: bool,
    readers: set<nat>,
    writer: Option<nat>,
    enders: map<nat, Ender>,
    queries: map<nat, Query>,
    log: seq<Action>,
    winner: Option<nat>)

  function BeginTx(keepConnOnRollback: bool): Tx {
    Tx(false, false, keepConnOnRollback, {}, None, map[], map[], [], None)
  }

  datatype Event =
    | ContextEnds
    | EnderCalls(t: nat, kind: Kind)
    | EnderChecks(t: nat)
    | EnderSwaps(t: nat)
    | EnderCancels(t: nat)
    | EnderLocks(t: nat)
    | EnderUnlocks(t: nat)
    | EnderEnds(t: nat, err: Option<Err>)
    | EnderCleans(t: nat)
    | EnderReleases(t: nat)
    | QueryCalls(q: nat, ctxDone: bool)
    | QueryLocks(q: nat)
    | QueryChecks(q: nat)
    | QueryRuns(q: nat)
    | QueryReleases(q: nat)

  predicate At(s: Tx, t: nat, p: Phase) {
    t in s.enders && s.enders[t].phase == p
  }

  predicate QueryAt(s: Tx, q: nat, p: Query) {
    q in s.queries && s.queries[q] == p
  }

  /** A read lock waits for the writer, a write lock for everybody; nothing else blocks. */
  predicate Enabled(s: Tx, e: Event) {
    match e
    case ContextEnds => true
    case EnderCalls(t, _) => t !in s.enders
    case EnderChecks(t) => At(s, t, Called) && (s.enders[t].kind.AwaitDoneCall? ==> s.ctxDone)
    case EnderSwaps(t) => At(s, t, Passed)
    case EnderCancels(t) => At(s, t, Won)
    case EnderLocks(t) => At(s, t, Cancelled) && s.readers == {} && s.writer == None
    case EnderUnlocks(t) => At(s, t, Locked)
    case EnderEnds(t, _) => At(s, t, Unlocked)
    case EnderCleans(t) => t in s.enders && s.enders[t].phase.Ended?
    case EnderReleases(t) => t in s.enders && s.enders[t].phase.Cleaned?
    case QueryCalls(q, _) => q !in s.queries
    case QueryLocks(q) => QueryAt(s, q, Asking) && s.writer == None
    case QueryChecks(q) => QueryAt(s, q, Holding)
    case QueryRuns(q) => QueryAt(s, q, Using)
    case QueryReleases(q) => QueryAt(s, q, Using)
  }

  function Go(s: Tx, t: nat, p: Phase): Tx
    requires t in s.enders
  {
    s.(enders := s.enders[t := s.enders[t].(phase := p)])
  }

  /** awaitDone discards the connection unless the driver can reset it. */
  function ReleaseErr(s: Tx, kind: Kind, err: Option<Err>): Option<Err> {
    if kind.AwaitDoneCall? && !s.keepConnOnRollback then Some(ErrBadConn) else err
  }

  function EndAction(kind: Kind, err: Option<Err>): Action {
    if kind.CommitCall? then DriverCommit(err) else DriverRollback(err)
  }

  function CleanActions(err: Option<Err>): seq<Action> {
    if err != Some(ErrBadConn) then [ClosePrepared] else []
  }

  function Step(s: Tx, e: Event): Tx
    requires Enabled(s, e)
  {
    match e
    case ContextEnds => s.(ctxDone := true)
    case EnderCalls(t, kind) => s.(enders := s.enders[t := Ender(kind, Called)])
    case EnderChecks(t) =>
      // only Commit looks at the context before it tries to win
      Go(s, t, if s.enders[t].kind.CommitCall? && s.ctxDone then Returned(false) else Passed)
    case EnderSwaps(t) =>
      if s.done then Go(s, t, Returned(false))
      else Go(s, t, Won).(done := true, winner := Some(t))
    case EnderCancels(t) => Go(s, t, Cancelled).(ctxDone := true)
    case EnderLocks(t) => Go(s, t, Locked).(writer := Some(t))
    case EnderUnlocks(t) => Go(s, t, Unlocked).(writer := None)
    case EnderEnds(t, err) => Go(s, t, Ended(err)).(log := s.log + [EndAction(s.enders[t].kind, err)])
    case EnderCleans(t) =>
      var err := s.enders[t].phase.err;
      Go(s, t, Cleaned(err)).(log := s.log + CleanActions(err))
    case EnderReleases(t) =>
      var err := ReleaseErr(s, s.enders[t].kind, s.enders[t].phase.err);
      Go(s, t, Returned(err == None)).(log := s.log + [Release(err)])
    case QueryCalls(q, ctxDone) => s.(queries := s.queries[q := if ctxDone then Finished else Asking])
    case QueryLocks(q) => s.(queries := s.queries[q := Holding], readers := s.readers + {q})
    case QueryChecks(q) =>
      if s.done then s.(queries := s.queries[q := Finished], readers := s.readers - {q})
      else s.(queries := s.queries[q := Using])
    case QueryRuns(q) => s.(log := s.log + [RunQuery(q)])
    case QueryReleases(q) => s.(queries := s.queries[q := Finished], readers := s.readers - {q})
  }

  ghost predicate CanRun(s: Tx, es: seq<Event>)
    decreases |es|
  {
    es == [] || (Enabled(s, es[0]) && CanRun(Step(s, es[0]), es[1..]))
  }

  ghost function Run(s: Tx, es: seq<Event>): Tx
    requires CanRun(s, es)
    decreases |es|
  {
    if es == [] then s else Run(Step(s, es[0]), es[1..])
  }
}

/** What holds after every interleaving. */
module TxTheorems {
  import opened Wrappers
  import opened DriverConns
  import opened TxState

  /** The winner's call is past the compare-and-swap. */
  predicate PastSwap(p: Phase) {
    !p.Called? && !p.Passed?
  }

  /** The winner's call is at or past the write lock. */
  predicate PastLock(p: Phase) {
    PastSwap(p) && !p.Won? && !p.Cancelled?
  }

  /** Everything the ending does to the connection, from the driver call to the release. */
  function Script(s: Tx, kind: Kind, err: Option<Err>): seq<Action> {
    [EndAction(kind, err)] + CleanActions(err) + [Release(ReleaseErr(s, kind, err))]
  }

  predicate OnlyQueries(log: seq<Action>) {
    forall i :: 0 <= i < |log| ==> log[i].RunQuery?
  }

  /** The log: queries first, then as much of the winner's script as its phase says. */
  ghost predicate LogOk(s: Tx) {
    if s.winner.None? then OnlyQueries(s.log)
    else
      s.winner.value in s.enders &&
      var kind, phase := s.enders[s.winner.value].kind, s.enders[s.winner.value].phase;
      match phase
      case Ended(err) => Tail(s, [EndAction(kind, err)])
      case Cleaned(err) => Tail(s, [EndAction(kind, err)] + CleanActions(err))
      case Returned(ok) => exists err :: Finishes(s, kind, err, ok)
      case _ => OnlyQueries(s.log)
  }

  /** The log is queries followed by `tail`. */
  predicate Tail(s: Tx, tail: seq<Action>) {
    |tail| <= |s.log| && OnlyQueries(s.log[..|s.log| - |tail|]) && s.log[|s.log| - |tail|..] == tail
  }

  /** The whole script has run for a driver call that returned err, and the caller was told ok. */
  predicate Finishes(s: Tx, kind: Kind, err: Option<Err>, ok: bool) {
    Tail(s, Script(s, kind, err)) && ok == (ReleaseErr(s, kind, err) == None)
  }

  ghost predicate EndersOk(s: Tx) {
    && (s.done <==> s.winner.Some?)
    && (forall t :: t in s.enders ==>
          if s.winner == Some(t) then PastSwap(s.enders[t].phase)
          else s.enders[t].phase in {Called, Passed, Returned(false)})
    && (s.winner.Some? ==> s.winner.value in s.enders)
  }

  ghost predicate LockOk(s: Tx) {
    && (forall q :: q in s.readers <==> QueryAt(s, q, Holding) || QueryAt(s, q, Using))
    && (s.writer.Some? ==> s.writer == s.winner && At(s, s.writer.value, Locked) && s.readers == {})
    && (s.winner.Some? && At(s, s.winner.value, Locked) ==> s.writer == s.winner)
    // the barrier: once the winner has been through the lock, nobody uses the connection
    && (s.winner.Some? && s.winner.value in s.enders && PastLock(s.enders[s.winner.value].phase) ==>
          forall q :: q in s.queries ==> s.queries[q] != Using)
  }

  ghost predicate Inv(s: Tx) {
    EndersOk(s) && LockOk(s) && LogOk(s)
  }

  lemma StepEnders(s: Tx, e: Event)
    requires Inv(s) && Enabled(s, e)
    ensures EndersOk(Step(s, e))
  {
  }

  predicate OfQuery(e: Event) {
    e.QueryCalls? || e.QueryLocks? || e.QueryChecks? || e.QueryRuns? || e.QueryReleases?
  }

  lemma StepLockQuery(s: Tx, e: Event)
    requires Inv(s) && Enabled(s, e) && OfQuery(e)
    ensures LockOk(Step(s, e))
  {
    hide LogOk;
  }

  lemma StepLockEnder(s: Tx, e: Event)
    requires Inv(s) && Enabled(s, e) && !OfQuery(e)
    ensures LockOk(Step(s, e))
  {
    hide LogOk;
    assert forall q :: q in s.queries && s.queries[q] == Using ==> QueryAt(s, q, Using);
  }

  lemma StepLock(s: Tx, e: Event)
    requires Inv(s) && Enabled(s, e)
    ensures LockOk(Step(s, e))
  {
    hide Inv, LockOk, Enabled, Step;
    if OfQuery(e) {
      StepLockQuery(s, e);
    } else {
      StepLockEnder(s, e);
    }
  }

  lemma TailGrows(s: Tx, tail: seq<Action>, more: seq<Action>)
    requires Tail(s, tail)
    ensures Tail(s.(log := s.log + more), tail + more)
  {
    var t := s.(log := s.log + more);
    assert t.log[..|t.log| - |tail + more|] == s.log[..|s.log| - |tail|];
    assert t.log[|t.log| - |tail + more|..] == tail + more;
  }

  /** The winner's own steps on the connection. */
  lemma StepLogEnding(s: Tx, e: Event)
    requires Inv(s) && Enabled(s, e) && (e.EnderEnds? || e.EnderCleans? || e.EnderReleases?)
    ensures LogOk(Step(s, e))
  {
    hide Tail, LockOk, OnlyQueries;
    var s' := Step(s, e);
    var kind := s.enders[e.t].kind;
    match e {
      case EnderEnds(t, err) =>
        EmptyTail(s);
        TailGrows(s, [], [EndAction(kind, err)]);
        assert [] + [EndAction(kind, err)] == [EndAction(kind, err)];
        TailSame(s.(log := s'.log), s', [EndAction(kind, err)]);
      case EnderCleans(t) =>
        var err := s.enders[t].phase.err;
        TailGrows(s, [EndAction(kind, err)], CleanActions(err));
        TailSame(s.(log := s'.log), s', [EndAction(kind, err)] + CleanActions(err));
      case EnderReleases(t) =>
        var err := s.enders[t].phase.err;
        TailGrows(s, [EndAction(kind, err)] + CleanActions(err), [Release(ReleaseErr(s, kind, err))]);
        TailSame(s.(log := s'.log), s', Script(s', kind, err));
        assert Finishes(s', kind, err, ReleaseErr(s, kind, err) == None);
    }
  }

  /** A query only runs while the ending has not begun. */
  lemma StepLogQuery(s: Tx, e: Event)
    requires Inv(s) && Enabled(s, e) && e.QueryRuns?
    ensures LogOk(Step(s, e))
  {
    assert s.queries[e.q] == Using;
  }

  /** Everything else leaves the log alone. */
  lemma StepLogOther(s: Tx, e: Event)
    requires Inv(s) && Enabled(s, e) && Step(s, e).log == s.log && !e.EnderCleans?
    ensures LogOk(Step(s, e))
  {
    hide Tail, LockOk, OnlyQueries;
    var s' := Step(s, e);
    if s.winner.Some? {
      var kind, phase := s.enders[s.winner.value].kind, s.enders[s.winner.value].phase;
      assert s'.winner == s.winner && s'.enders[s.winner.value].kind == kind;
      match phase {
        case Ended(err) => TailSame(s, s', [EndAction(kind, err)]);
        case Cleaned(err) => TailSame(s, s', [EndAction(kind, err)] + CleanActions(err));
        case Returned(ok) =>
          var err :| Finishes(s, kind, err, ok);
          TailSame(s, s', Script(s, kind, err));
          assert Finishes(s', kind, err, ok);
        case _ => OnlySame(s, s');
      }
    } else {
      OnlySame(s, s');
    }
  }

  lemma OnlySame(s: Tx, s': Tx)
    requires OnlyQueries(s.log) && s'.log == s.log
    ensures OnlyQueries(s'.log)
  {
  }

  lemma StepLog(s: Tx, e: Event)
    requires Inv(s) && Enabled(s, e)
    ensures LogOk(Step(s, e))
  {
    if e.EnderEnds? || e.EnderCleans? || e.EnderReleases? {
      StepLogEnding(s, e);
    } else if e.QueryRuns? {
      StepLogQuery(s, e);
    } else {
      hide Inv, LogOk;
      StepLogOther(s, e);
    }
  }

  lemma EmptyTail(s: Tx)
    requires OnlyQueries(s.log)
    ensures Tail(s, [])
  {
    assert s.log[..|s.log|] == s.log;
  }

  lemma TailSame(s: Tx, s': Tx, tail: seq<Action>)
    requires Tail(s, tail) && s'.log == s.log
    ensures Tail(s', tail)
  {
  }

  lemma StepInv(s: Tx, e: Event)
    requires Inv(s) && Enabled(s, e)
    ensures Inv(Step(s, e))
  {
    hide EndersOk, LockOk, LogOk, Enabled, Step;
    StepEnders(s, e);
    StepLock(s, e);
    StepLog(s, e);
  }

  lemma {:induction false} RunInv(s: Tx, es: seq<Event>)
    requires Inv(s) && CanRun(s, es)
    ensures Inv(Run(s, es))
    decreases |es|
  {
    if es != [] {
      StepInv(s, es[0]);
      RunInv(Step(s, es[0]), es[1..]);
    }
  }

  lemma BeginInv(keepConnOnRollback: bool)
    ensures Inv(BeginTx(keepConnOnRollback))
  {
  }

  predicate IsEnd(a: Action) {
    a.DriverCommit? || a.DriverRollback?
  }

  /** `tail` is as much of a script as has run. */
  predicate ScriptPrefix(s: Tx, tail: seq<Action>, kind: Kind, err: Option<Err>) {
    tail <= Script(s, kind, err)
  }

  lemma ScriptParts(s: Tx, kind: Kind, err: Option<Err>)
    ensures [EndAction(kind, err)] <= Script(s, kind, err)
    ensures [EndAction(kind, err)] + CleanActions(err) <= Script(s, kind, err)
  {
  }

  lemma LogShape(s: Tx) returns (n: nat, kind: Kind, err: Option<Err>)
    requires Inv(s)
    ensures n <= |s.log| && OnlyQueries(s.log[..n]) && ScriptPrefix(s, s.log[n..], kind, err)
    ensures n < |s.log| ==> s.winner.Some? && s.winner.value in s.enders && kind == s.enders[s.winner.value].kind
  {
    hide EndersOk, LockOk, OnlyQueries, Script, EndAction, CleanActions;
    n, kind, err := |s.log|, CommitCall, None;
    assert s.log[..n] == s.log;
    if s.winner.Some? {
      kind := s.enders[s.winner.value].kind;
      match s.enders[s.winner.value].phase {
        case Ended(e) =>
          n, err := |s.log| - 1, e;
          ScriptParts(s, kind, e);
        case Cleaned(e) =>
          n, err := |s.log| - |[EndAction(kind, e)] + CleanActions(e)|, e;
          ScriptParts(s, kind, e);
        case Returned(ok) =>
          var e :| Finishes(s, kind, e, ok);
          n, err := |s.log| - |Script(s, kind, e)|, e;
        case _ =>
      }
    }
  }

  /**
   One ending: after a driver Commit or Rollback comes no other and no query; the release is the
   last thing that happens; and release and clean-up only follow the driver call.
   */
  ghost predicate EndedOnce(log: seq<Action>) {
    && (forall i, j :: 0 <= i < j < |log| && IsEnd(log[i]) ==> !IsEnd(log[j]) && !log[j].RunQuery?)
    && (forall i :: 0 <= i < |log| - 1 ==> !log[i].Release?)
    && (forall j :: 0 <= j < |log| && log[j].ClosePrepared? ==> 0 < j && IsEnd(log[j - 1]))
    && (forall j :: 0 <= j < |log| && log[j].Release? ==>
          0 < j && (IsEnd(log[j - 1]) || (1 < j && IsEnd(log[j - 2]))))
  }

  /**
   Whatever the schedule: the driver is asked to commit or to roll back at most once in all, the
   connection is released at most once and only after that, and no query runs once the ending
   has begun.
   */
  lemma EndsAtMostOnce(keepConnOnRollback: bool, es: seq<Event>)
    requires CanRun(BeginTx(keepConnOnRollback), es)
    ensures EndedOnce(Run(BeginTx(keepConnOnRollback), es).log)
  {
    hide EndedOnce, Positions, CanRun, Run, BeginTx, Inv;
    BeginInv(keepConnOnRollback);
    RunInv(BeginTx(keepConnOnRollback), es);
    var s := Run(BeginTx(keepConnOnRollback), es);
    var n, kind, err := LogShape(s);
    ShapePositions(s, n, kind, err);
    PositionsMean(s.log, n);
  }

  /** Position by position: queries up to n, then the driver call, the clean-up if any, the release. */
  ghost predicate Positions(log: seq<Action>, n: nat) {
    && n <= |log| <= n + 3
    && (forall i :: 0 <= i < n ==> log[i].RunQuery?)
    && (n < |log| ==> IsEnd(log[n]))
    && (n + 1 < |log| ==> log[n + 1].ClosePrepared? || (log[n + 1].Release? && |log| == n + 2))
    && (n + 2 < |log| ==> log[n + 1].ClosePrepared? && log[n + 2].Release?)
  }

  lemma ShapePositions(s: Tx, n: nat, kind: Kind, err: Option<Err>)
    requires n <= |s.log| && OnlyQueries(s.log[..n]) && ScriptPrefix(s, s.log[n..], kind, err)
    ensures Positions(s.log, n)
  {
    var log, tail := s.log, s.log[n..];
    var script := Script(s, kind, err);
    assert forall i :: 0 <= i < n ==> log[i] == log[..n][i];
    if |tail| > 0 {
      assert log[n] == tail[0] == script[0];
    }
    if |tail| > 1 {
      assert log[n + 1] == tail[1] == script[1];
    }
    if |tail| > 2 {
      assert log[n + 2] == tail[2] == script[2];
    }
  }

  lemma PositionsMean(log: seq<Action>, n: nat)
    requires Positions(log, n)
    ensures EndedOnce(log)
  {
  }

  /**
   From the moment the winner has the write lock and for ever after, through the driver call, the
   release and the return, no query has the connection or can run on it.
   */
  lemma NoQueryDuringEnd(keepConnOnRollback: bool, es: seq<Event>, q: nat)
    requires CanRun(BeginTx(keepConnOnRollback), es)
    ensures var s := Run(BeginTx(keepConnOnRollback), es);
      s.winner.Some? && s.winner.value in s.enders && PastLock(s.enders[s.winner.value].phase) ==>
        !QueryAt(s, q, Using) && !Enabled(s, QueryRuns(q))
  {
    BeginInv(keepConnOnRollback);
    RunInv(BeginTx(keepConnOnRollback), es);
    hide CanRun, Run, LogOk;
  }

  /** The driver is asked to commit for a Commit that won, and to roll back for anybody else. */
  ghost predicate AskedFor(s: Tx) {
    forall i :: 0 <= i < |s.log| && IsEnd(s.log[i]) ==>
      && s.winner.Some? && s.winner.value in s.enders
      && (s.log[i].DriverCommit? <==> s.enders[s.winner.value].kind.CommitCall?)
  }

  lemma ShapeAskedFor(s: Tx, n: nat, kind: Kind, err: Option<Err>)
    requires n <= |s.log| && OnlyQueries(s.log[..n]) && ScriptPrefix(s, s.log[n..], kind, err)
    requires n < |s.log| ==> s.winner.Some? && s.winner.value in s.enders && kind == s.enders[s.winner.value].kind
    ensures AskedFor(s)
  {
    ShapePositions(s, n, kind, err);
    if n < |s.log| {
      assert s.log[n] == s.log[n..][0] == Script(s, kind, err)[0];
    }
  }

  /** Over every run: no Commit is answered with a rollback, and nothing but a Commit commits. */
  lemma OnlyCommitCommits(keepConnOnRollback: bool, es: seq<Event>)
    requires CanRun(BeginTx(keepConnOnRollback), es)
    ensures var s := Run(BeginTx(keepConnOnRollback), es);
      forall i :: 0 <= i < |s.log| && (s.log[i].DriverCommit? || s.log[i].DriverRollback?) ==>
        && s.winner.Some? && s.winner.value in s.enders
        && (s.log[i].DriverCommit? <==> s.enders[s.winner.value].kind == CommitCall)
        && (s.log[i].DriverRollback? <==> s.enders[s.winner.value].kind in {RollbackCall, AwaitDoneCall})
  {
    hide CanRun, Run, BeginTx, Inv;
    BeginInv(keepConnOnRollback);
    RunInv(BeginTx(keepConnOnRollback), es);
    var s := Run(BeginTx(keepConnOnRollback), es);
    var n, kind, err := LogShape(s);
    ShapeAskedFor(s, n, kind, err);
  }

  /**
   What the connection saw of an ending that has returned: from position n on the driver call with
   its answer err, the clean-up unless the connection went bad, and the release; ok is what the
   caller was told. awaitDone gives the connection up unless the driver can reset it.
   */
  ghost predicate EndingFrom(log: seq<Action>, n: nat, kind: Kind, keep: bool, err: Option<Err>, ok: bool) {
    && n < |log|
    && (kind == CommitCall ==> log[n] == DriverCommit(err))
    && (kind != CommitCall ==> log[n] == DriverRollback(err))
    && (err == Some(ErrBadConn) ==> |log| == n + 2)
    && (err != Some(ErrBadConn) ==> |log| == n + 3 && log[n + 1] == ClosePrepared)
    && (kind == AwaitDoneCall && !keep ==> log[|log| - 1] == Release(Some(ErrBadConn)) && !ok)
    && (kind != AwaitDoneCall || keep ==> log[|log| - 1] == Release(err) && (ok <==> err == None))
  }

  lemma FinishedEnding(s: Tx, kind: Kind, err: Option<Err>, ok: bool)
    requires Finishes(s, kind, err, ok)
    ensures var n := |s.log| - |Script(s, kind, err)|;
      OnlyQueries(s.log[..n]) && EndingFrom(s.log, n, kind, s.keepConnOnRollback, err, ok)
  {
    var script := Script(s, kind, err);
    var n := |s.log| - |script|;
    assert forall j :: 0 <= j < |script| ==> s.log[n + j] == s.log[n..][j] == script[j];
  }

  lemma {:induction false} RunKeeps(s: Tx, es: seq<Event>)
    requires CanRun(s, es)
    ensures Run(s, es).keepConnOnRollback == s.keepConnOnRollback
    decreases |es|
  {
    if es != [] {
      RunKeeps(Step(s, es[0]), es[1..]);
    }
  }

  /** The winner's return, over every run: queries, and then the ending it asked for, to the end. */
  lemma WinnerEndsAsAsked(keepConnOnRollback: bool, es: seq<Event>, t: nat, ok: bool)
    requires CanRun(BeginTx(keepConnOnRollback), es)
    requires Run(BeginTx(keepConnOnRollback), es).winner == Some(t)
    requires At(Run(BeginTx(keepConnOnRollback), es), t, Returned(ok))
    ensures var s := Run(BeginTx(keepConnOnRollback), es);
      exists n: nat, err :: n <= |s.log| && OnlyQueries(s.log[..n])
                            && EndingFrom(s.log, n, s.enders[t].kind, keepConnOnRollback, err, ok)
  {
    BeginInv(keepConnOnRollback);
    RunInv(BeginTx(keepConnOnRollback), es);
    RunKeeps(BeginTx(keepConnOnRollback), es);
    hide CanRun, Run, EndingFrom, Tail;
    var s := Run(BeginTx(keepConnOnRollback), es);
    var err :| Finishes(s, s.enders[t].kind, err, ok);
    FinishedEnding(s, s.enders[t].kind, err, ok);
  }

  /** The last three things on the connection. */
  predicate EndsWith(log: seq<Action>, a: Action, b: Action, c: Action) {
    |log| >= 3 && log[|log| - 3..] == [a, b, c]
  }

  /**
   A caller that is told of success is told the truth: for a Commit, and only for a Commit, the
   driver has committed, else it has rolled back, without an error; nothing followed but the
   clean-up and the release; and no other caller was told the same.
   */
  lemma SuccessIsReal(keepConnOnRollback: bool, es: seq<Event>, t: nat)
    requires CanRun(BeginTx(keepConnOnRollback), es)
    requires At(Run(BeginTx(keepConnOnRollback), es), t, Returned(true))
    ensures var s := Run(BeginTx(keepConnOnRollback), es);
      && (s.enders[t].kind == CommitCall <==> EndsWith(s.log, DriverCommit(None), ClosePrepared, Release(None)))
      && (s.enders[t].kind != CommitCall <==> EndsWith(s.log, DriverRollback(None), ClosePrepared, Release(None)))
      && (s.enders[t].kind == AwaitDoneCall ==> keepConnOnRollback)
      && (forall u: nat :: u != t ==> !At(s, u, Returned(true)))
  {
    hide CanRun, Run, BeginTx, Inv, EndingFrom, EndsWith;
    BeginInv(keepConnOnRollback);
    RunInv(BeginTx(keepConnOnRollback), es);
    var s := Run(BeginTx(keepConnOnRollback), es);
    SuccessWon(s, t);
    WinnerEndsAsAsked(keepConnOnRollback, es, t, true);
    var n: nat, err :| n <= |s.log| && OnlyQueries(s.log[..n])
                       && EndingFrom(s.log, n, s.enders[t].kind, keepConnOnRollback, err, true);
    EndingEndsWith(s.log, n, s.enders[t].kind, keepConnOnRollback, err);
  }

  /** Only the winner is told of success. */
  lemma SuccessWon(s: Tx, t: nat)
    requires Inv(s) && At(s, t, Returned(true))
    ensures s.winner == Some(t) && forall u: nat :: u != t ==> !At(s, u, Returned(true))
  {
    hide LockOk, LogOk;
  }

  lemma EndingEndsWith(log: seq<Action>, n: nat, kind: Kind, keep: bool, err: Option<Err>)
    requires EndingFrom(log, n, kind, keep, err, true)
    ensures kind == CommitCall <==> EndsWith(log, DriverCommit(None), ClosePrepared, Release(None))
    ensures kind != CommitCall <==> EndsWith(log, DriverRollback(None), ClosePrepared, Release(None))
    ensures kind == AwaitDoneCall ==> keep
  {
    assert log[|log| - 3..] == [log[n], log[n + 1], log[n + 2]];
  }

  // --- the context and the callers ---------------------------------------------------------

  /** A call that has returned stays returned, and never wins after it lost. */
  lemma {:induction false} LoserStays(s: Tx, es: seq<Event>, t: nat)
    requires Inv(s) && CanRun(s, es) && At(s, t, Returned(false)) && s.winner != Some(t)
    ensures At(Run(s, es), t, Returned(false)) && Run(s, es).winner != Some(t)
    ensures Run(s, es).enders[t].kind == s.enders[t].kind
    decreases |es|
  {
    if es != [] {
      StepInv(s, es[0]);
      LoserStep(s, es[0], t);
      LoserStays(Step(s, es[0]), es[1..], t);
    }
  }

  lemma LoserStep(s: Tx, e: Event, t: nat)
    requires Inv(s) && Enabled(s, e) && At(s, t, Returned(false)) && s.winner != Some(t)
    ensures At(Step(s, e), t, Returned(false)) && Step(s, e).winner != Some(t)
    ensures Step(s, e).enders[t].kind == s.enders[t].kind
  {
    hide LogOk, LockOk;
  }

  /**
   The look at the context: a Commit that finds it ended is told so and never reaches the driver,
   whatever goes on; every other call, and a Commit in time, goes on to the compare-and-swap.
   */
  lemma LateCommitNeverEnds(s: Tx, t: nat, es: seq<Event>)
    requires Inv(s) && Enabled(s, EnderChecks(t)) && CanRun(Step(s, EnderChecks(t)), es)
    ensures At(Step(s, EnderChecks(t)), t, Returned(false)) <==> s.enders[t].kind == CommitCall && s.ctxDone
    ensures At(Step(s, EnderChecks(t)), t, Passed) <==> !(s.enders[t].kind == CommitCall && s.ctxDone)
    ensures s.enders[t].kind == CommitCall && s.ctxDone ==>
      At(Run(Step(s, EnderChecks(t)), es), t, Returned(false)) && Run(Step(s, EnderChecks(t)), es).winner != Some(t)
  {
    hide LogOk, LockOk, CanRun, Run;
    StepInv(s, EnderChecks(t));
    if s.enders[t].kind == CommitCall && s.ctxDone {
      LoserStays(Step(s, EnderChecks(t)), es, t);
    }
  }

  /** The goroutine of awaitDone does nothing before the transaction's context has ended. */
  ghost predicate AwaitsContext(s: Tx) {
    forall t :: t in s.enders && s.enders[t].kind == AwaitDoneCall && !s.enders[t].phase.Called? ==> s.ctxDone
  }

  lemma {:induction false} AwaitsContextRun(s: Tx, es: seq<Event>)
    requires CanRun(s, es) && AwaitsContext(s)
    ensures AwaitsContext(Run(s, es))
    decreases |es|
  {
    if es != [] {
      AwaitsContextStep(s, es[0]);
      AwaitsContextRun(Step(s, es[0]), es[1..]);
    }
  }

  lemma AwaitsContextStep(s: Tx, e: Event)
    requires Enabled(s, e) && AwaitsContext(s)
    ensures AwaitsContext(Step(s, e))
  {
  }

  lemma AwaitDoneWaits(keepConnOnRollback: bool, es: seq<Event>)
    requires CanRun(BeginTx(keepConnOnRollback), es)
    ensures AwaitsContext(Run(BeginTx(keepConnOnRollback), es))
  {
    AwaitsContextRun(BeginTx(keepConnOnRollback), es);
  }

  ghost predicate Released(log: seq<Action>) {
    exists i :: 0 <= i < |log| && log[i].Release?
  }

  lemma ScriptReleases(s: Tx, kind: Kind, err: Option<Err>)
    ensures |Script(s, kind, err)| > 0 && Script(s, kind, err)[|Script(s, kind, err)| - 1].Release?
  {
  }

  lemma NoReleaseYet(kind: Kind, err: Option<Err>)
    ensures !Released([EndAction(kind, err)]) && !Released([EndAction(kind, err)] + CleanActions(err))
  {
  }

  lemma TailReleases(s: Tx, tail: seq<Action>)
    requires Tail(s, tail)
    ensures Released(s.log) <==> Released(tail)
  {
    TailAt(s, tail);
    hide Tail;
    var n := |s.log| - |tail|;
    assert forall j :: 0 <= j < |tail| ==> s.log[n + j] == tail[j];
  }

  lemma QueriesRelease(log: seq<Action>)
    requires OnlyQueries(log)
    ensures !Released(log)
  {
  }

  lemma ReleasedByPhase(s: Tx)
    requires Inv(s)
    ensures Released(s.log) <==>
              s.winner.Some? && s.winner.value in s.enders && s.enders[s.winner.value].phase.Returned?
  {
    hide EndersOk, LockOk, Script, CleanActions, Tail, OnlyQueries, Released;
    if s.winner.None? {
      QueriesRelease(s.log);
    } else {
      var kind := s.enders[s.winner.value].kind;
      match s.enders[s.winner.value].phase {
        case Ended(err) =>
          NoReleaseYet(kind, err);
          TailReleases(s, [EndAction(kind, err)]);
        case Cleaned(err) =>
          NoReleaseYet(kind, err);
          TailReleases(s, [EndAction(kind, err)] + CleanActions(err));
        case Returned(ok) =>
          var err :| Finishes(s, kind, err, ok);
          LastReleases(s, kind, err);
          TailReleases(s, Script(s, kind, err));
        case _ => QueriesRelease(s.log);
      }
    }
  }

  lemma LastReleases(s: Tx, kind: Kind, err: Option<Err>)
    ensures Released(Script(s, kind, err))
  {
    ScriptReleases(s, kind, err);
    hide Script;
  }

  /**
   The connection has been released exactly when the call that won has returned; with EndedOnce, it
   is released once and not before the driver call.
   */
  lemma ReleasedIffReturned(keepConnOnRollback: bool, es: seq<Event>)
    requires CanRun(BeginTx(keepConnOnRollback), es)
    ensures var s := Run(BeginTx(keepConnOnRollback), es);
      (exists i :: 0 <= i < |s.log| && s.log[i].Release?)
        <==> s.winner.Some? && s.winner.value in s.enders && s.enders[s.winner.value].phase.Returned?
  {
    hide CanRun, Run, Inv;
    BeginInv(keepConnOnRollback);
    RunInv(BeginTx(keepConnOnRollback), es);
    ReleasedByPhase(Run(BeginTx(keepConnOnRollback), es));
  }

  /** Position by position: the log is queries, and then the tail. */
  lemma TailAt(s: Tx, tail: seq<Action>)
    requires Tail(s, tail)
    ensures var n := |s.log| - |tail|;
      && (forall i :: 0 <= i < n ==> s.log[i].RunQuery?)
      && (forall i :: n <= i < |s.log| ==> s.log[i] == tail[i - n])
  {
    var n := |s.log| - |tail|;
    assert forall i :: 0 <= i < n ==> s.log[i] == s.log[..n][i];
    assert forall i :: n <= i < |s.log| ==> s.log[i] == s.log[n..][i - n];
  }
}

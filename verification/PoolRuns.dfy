/**
 Runs of the pool: any interleaving of callers, the opener, the cleaner, limit changes and
 DBClose is a list of events, each one critical section.
 */
module PoolRuns {
  import opened Wrappers
  import opened DriverConns
  import opened PoolState
  import opened PoolInvariant

  datatype Event =
    | ConnEnter(ctxDone: bool, strategy: Strategy, now: int)
    | DialFails
    | DialSucceeds(dc: DriverConn, now: int)
    | WaiterReceives(key: nat, now: int)
    | WaiterCancels(key: nat)
    | WaiterDrains(key: nat)
    | PutBack(dc: DriverConn, err: Option<Err>, now: int, pick: nat)
    | MarkClosed(dc: DriverConn)
    | DropDep(dc: DriverConn)
    | CloseDriverConn(dc: DriverConn)
    | GiveSlotBack(dc: DriverConn)
    | OpenerTakesToken
    | OpenerAnswered(res: Result<DriverConn, Err>, now: int, pick: nat)
    | ChangeMaxIdle(n: int, fromSync: bool)
    | ChangeMaxOpen(n: int)
    | ChangeLifetime(d: int)
    | ChangeIdleTime(d: int)
    | CleanerWakes(now: int)
    | CloseDB

  /** The request a sender picks is some pending one. */
  ghost predicate PickOk(s: State, pick: nat) {
    !s.closed && s.requests != {} ==> pick in s.requests
  }

  ghost predicate At(s: State, dc: DriverConn, p: Place) {
    dc in s.conns && s.conns[dc].place == p
  }

  /**
   When an event can happen. Only its owner touches a connection: whoever holds it puts it back
   or closes it, and the parts of Close follow one another.
   */
  ghost predicate Enabled(s: State, e: Event) {
    match e
    case ConnEnter(_, _, _) => true
    case DialFails => s.dials > 0
    case DialSucceeds(dc, _) => s.dials > 0 && dc !in s.conns
    case WaiterReceives(key, _) => key in s.waiting && !s.waiting[key].cancelled && s.waiting[key].chan != Empty
    case WaiterCancels(key) => key in s.waiting && !s.waiting[key].cancelled
    case WaiterDrains(key) => key in s.waiting && s.waiting[key].cancelled
    case PutBack(dc, _, _, pick) => At(s, dc, Held) && PickOk(s, pick)
    case MarkClosed(dc) => At(s, dc, Held) || At(s, dc, Closing)
    case DropDep(dc) => At(s, dc, Marked)
    case CloseDriverConn(dc) => At(s, dc, Finalizing)
    case GiveSlotBack(dc) => At(s, dc, Finalized)
    case OpenerTakesToken => s.tokens > 0
    case OpenerAnswered(res, _, pick) =>
      s.openerDials > 0 && (res.Ok? ==> res.value !in s.conns) && PickOk(s, pick)
    case ChangeMaxIdle(_, fromSync) => fromSync ==> s.pendingSyncs > 0
    case ChangeMaxOpen(_) => true
    case ChangeLifetime(_) => true
    case ChangeIdleTime(_) => true
    case CleanerWakes(_) => !s.closed && s.numOpen != 0 && (s.maxLifetime > 0 || s.maxIdleTime > 0)
    case CloseDB => true
  }

  lemma CallFacts(s: State, e: Event)
    requires Inv(s) && Enabled(s, e)
    ensures |s.free| > 0 ==> s.free[0] in s.conns
    ensures (e.PutBack? || e.OpenerAnswered?) && !s.closed && s.requests != {} ==> e.pick in s.waiting
    ensures (e.WaiterReceives? || e.WaiterDrains?) && s.waiting[e.key].chan.Sent? ==>
              var ch := s.waiting[e.key].chan;
              (ch.conn.Some? <==> ch.err.None?) && (ch.conn.Some? ==> ch.conn.value in s.conns)
  {
    hide OwnershipOk, WaitersOk, RequestsOk, CachedWaitersSeeNone, CountOk, LimitsOk;
    if |s.free| > 0 {
      HeadFact(s);
    }
    if (e.PutBack? || e.OpenerAnswered?) && !s.closed && s.requests != {} {
      PendingFact(s, e.pick);
    }
    if (e.WaiterReceives? || e.WaiterDrains?) && s.waiting[e.key].chan.Sent? {
      ChannelFact(s, e.key);
    }
  }

  /** A caller in conn. */
  predicate InConn(e: Event) {
    || e.ConnEnter? || e.DialFails? || e.DialSucceeds? || e.WaiterReceives? || e.WaiterCancels? || e.WaiterDrains?
  }

  /** A caller in putConn, or the opener. */
  predicate InPut(e: Event) {
    e.PutBack? || e.OpenerTakesToken? || e.OpenerAnswered?
  }

  /** Somebody inside driverConn.Close. */
  predicate InClose(e: Event) {
    e.MarkClosed? || e.DropDep? || e.CloseDriverConn? || e.GiveSlotBack?
  }

  ghost function StepConn(s: State, e: Event): State
    requires Inv(s) && Enabled(s, e) && InConn(e)
  {
    CallFacts(s, e);
    match e
    case ConnEnter(ctxDone, strategy, now) => ConnBegin(s, ctxDone, strategy, now).0
    case DialFails => DialFailed(s)
    case DialSucceeds(dc, now) => DialSucceeded(s, dc, now)
    case WaiterReceives(key, now) => Receive(s, key, now).0
    case WaiterCancels(key) => CancelBegin(s, key)
    case WaiterDrains(key) => CancelEnd(s, key).0
  }

  ghost function StepPut(s: State, e: Event): State
    requires Inv(s) && Enabled(s, e) && InPut(e)
  {
    CallFacts(s, e);
    match e
    case PutBack(dc, err, now, pick) => PutConn(s, dc, err, now, pick).0
    case OpenerTakesToken => OpenerTake(s)
    case OpenerAnswered(res, now, pick) => OpenerDone(s, res, now, pick)
  }

  ghost function StepClose(s: State, e: Event): State
    requires Inv(s) && Enabled(s, e) && InClose(e)
  {
    match e
    case MarkClosed(dc) => CloseMark(s, dc).0
    case DropDep(dc) => CloseDep(s, dc).0
    case CloseDriverConn(dc) => DriverClose(s, dc)
    case GiveSlotBack(dc) => FinalCount(s, dc)
  }

  ghost function StepAdmin(s: State, e: Event): State
    requires Inv(s) && Enabled(s, e) && !InConn(e) && !InPut(e) && !InClose(e)
  {
    match e
    case ChangeMaxIdle(n, fromSync) => SetMaxIdleConns(s, n, fromSync).0
    case ChangeMaxOpen(n) => SetMaxOpenConns(s, n).0
    case ChangeLifetime(d) => SetConnMaxLifetime(s, d)
    case ChangeIdleTime(d) => SetConnMaxIdleTime(s, d)
    case CleanerWakes(now) => CleanerRun(s, now).0
    case CloseDB => DBClose(s).0
  }

  ghost function Step(s: State, e: Event): State
    requires Inv(s) && Enabled(s, e)
  {
    if InConn(e) then StepConn(s, e)
    else if InPut(e) then StepPut(s, e)
    else if InClose(e) then StepClose(s, e)
    else StepAdmin(s, e)
  }

  lemma StepConnInv(s: State, e: Event)
    requires Inv(s) && Enabled(s, e) && InConn(e)
    ensures Inv(StepConn(s, e))
  {
    CallFacts(s, e);
    hide Inv, ConnBegin, DialFailed, DialSucceeded, Receive, CancelBegin, CancelEnd;
    match e
    case ConnEnter(ctxDone, strategy, now) => ConnBeginInv(s, ctxDone, strategy, now);
    case DialFails => DialFailedInv(s);
    case DialSucceeds(dc, now) => DialSucceededInv(s, dc, now);
    case WaiterReceives(key, now) => ReceiveInv(s, key, now);
    case WaiterCancels(key) => CancelBeginInv(s, key);
    case WaiterDrains(key) => CancelEndInv(s, key);
  }

  lemma StepPutInv(s: State, e: Event)
    requires Inv(s) && Enabled(s, e) && InPut(e)
    ensures Inv(StepPut(s, e))
  {
    CallFacts(s, e);
    hide Inv, PutConn, OpenerTake, OpenerDone;
    match e
    case PutBack(dc, err, now, pick) => PutConnInv(s, dc, err, now, pick);
    case OpenerTakesToken => OpenerTakeInv(s);
    case OpenerAnswered(res, now, pick) => OpenerDoneInv(s, res, now, pick);
  }

  lemma StepCloseInv(s: State, e: Event)
    requires Inv(s) && Enabled(s, e) && InClose(e)
    ensures Inv(StepClose(s, e))
  {
    hide Inv, CloseMark, CloseDep, DriverClose, FinalCount;
    match e
    case MarkClosed(dc) => CloseMarkInv(s, dc);
    case DropDep(dc) => CloseDepInv(s, dc);
    case CloseDriverConn(dc) => DriverCloseInv(s, dc);
    case GiveSlotBack(dc) => FinalCountInv(s, dc);
  }

  lemma StepAdminInv(s: State, e: Event)
    requires Inv(s) && Enabled(s, e) && !InConn(e) && !InPut(e) && !InClose(e)
    ensures Inv(StepAdmin(s, e))
  {
    hide Inv, SetMaxIdleConns, SetMaxOpenConns, SetConnMaxLifetime, SetConnMaxIdleTime, CleanerRun, DBClose;
    match e
    case ChangeMaxIdle(n, fromSync) => SetMaxIdleConnsInv(s, n, fromSync);
    case ChangeMaxOpen(n) => SetMaxOpenConnsInv(s, n);
    case ChangeLifetime(d) => SetTimesInv(s, d);
    case ChangeIdleTime(d) => SetTimesInv(s, d);
    case CleanerWakes(now) => CleanerRunInv(s, now);
    case CloseDB => DBCloseInv(s);
  }

  lemma StepInv(s: State, e: Event)
    requires Inv(s) && Enabled(s, e)
    ensures Inv(Step(s, e))
  {
    hide Inv, Enabled, StepConn, StepPut, StepClose, StepAdmin;
    if InConn(e) {
      StepConnInv(s, e);
    } else if InPut(e) {
      StepPutInv(s, e);
    } else if InClose(e) {
      StepCloseInv(s, e);
    } else {
      StepAdminInv(s, e);
    }
  }

  /** `es` can happen one after the other from `s`. */
  ghost predicate CanRun(s: State, es: seq<Event>)
    requires Inv(s)
    decreases |es|
  {
    es == [] || (Enabled(s, es[0]) && (StepInv(s, es[0]); CanRun(Step(s, es[0]), es[1..])))
  }

  ghost function Run(s: State, es: seq<Event>): State
    requires Inv(s) && CanRun(s, es)
    decreases |es|
  {
    if es == [] then s else
      StepInv(s, es[0]);
      Run(Step(s, es[0]), es[1..])
  }

  /** The pool that openDB returns. */
  function OpenDB(connectionPool: int): State {
    var r := SetMaxOpenConns(InitState, connectionPool);
    var s := if r.1 then SetMaxIdleConns(r.0, connectionPool, true).0 else r.0;
    SetMaxIdleConns(s, connectionPool, false).0
  }

  lemma OpenDBInv(connectionPool: int)
    ensures Inv(OpenDB(connectionPool))
    ensures OpenDB(connectionPool).maxOpen == (if connectionPool < 0 then 0 else connectionPool)
  {
    assert Inv(InitState);
    hide OwnershipOk, WaitersOk, RequestsOk, CachedWaitersSeeNone, CountOk, LimitsOk;
    var r := SetMaxOpenConns(InitState, connectionPool);
    SetMaxOpenConnsInv(InitState, connectionPool);
    if r.1 {
      SetMaxIdleConnsInv(r.0, connectionPool, true);
      SetMaxIdleConnsInv(SetMaxIdleConns(r.0, connectionPool, true).0, connectionPool, false);
    } else {
      SetMaxIdleConnsInv(r.0, connectionPool, false);
    }
  }

  /** Safety over all interleavings: whatever happens, the invariant holds at the end. */
  lemma {:induction false} RunInv(s: State, es: seq<Event>)
    requires Inv(s) && CanRun(s, es)
    ensures Inv(Run(s, es))
    decreases |es|
  {
    if es != [] {
      StepInv(s, es[0]);
      RunInv(Step(s, es[0]), es[1..]);
    }
  }

  /** What can happen, from openDB on, to a pool of the given size. */
  ghost predicate Schedule(connectionPool: int, es: seq<Event>) {
    OpenDBInv(connectionPool);
    CanRun(OpenDB(connectionPool), es)
  }

  /** The pool after a schedule. */
  ghost function After(connectionPool: int, es: seq<Event>): (s: State)
    requires Schedule(connectionPool, es)
    ensures Inv(s)
  {
    OpenDBInv(connectionPool);
    RunInv(OpenDB(connectionPool), es);
    Run(OpenDB(connectionPool), es)
  }
}

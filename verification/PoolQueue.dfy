/**
 The order of service of the idle list over whole runs. The cleaner reorders what it leaves and a
 lowered idle limit cuts the tail; apart from these the list is first in, first out.
 */
module PoolQueue {
  import opened Wrappers
  import opened DriverConns
  import opened PoolState
  import opened PoolInvariant
  import opened PoolRuns
  import opened PoolTheorems
  import PoolStatements

  /** The events that leave the order of the idle list alone. */
  predicate KeepsOrder(e: Event) {
    !e.CleanerWakes? && !e.ChangeMaxIdle? && !e.CloseDB?
  }

  /** A caller of conn gets an idle connection. */
  predicate TakesIdle(s: State, e: Event) {
    e.ConnEnter? && !s.closed && !e.ctxDone && e.strategy == CachedOrNewConn && |s.free| > 0
  }

  /** The connection a step takes from the idle list. */
  function TakenBy(s: State, e: Event): seq<DriverConn> {
    if TakesIdle(s, e) then [s.free[0]] else []
  }

  /** The connection a step has made idle. */
  ghost function IdledBy(s: State, e: Event): seq<DriverConn>
    requires Inv(s) && Enabled(s, e)
  {
    if e.PutBack? && At(Step(s, e), e.dc, Idle) then [e.dc]
    else if e.OpenerAnswered? && e.res.Ok? && At(Step(s, e), e.res.value, Idle) then [e.res.value]
    else []
  }

  lemma ConnOrder(s: State, e: Event)
    requires Inv(s) && Enabled(s, e) && e.ConnEnter?
    ensures s.free == TakenBy(s, e) + Step(s, e).free
    ensures TakesIdle(s, e) ==> WithTaker(Step(s, e), s.free[0])
  {
    CallFacts(s, e);
    hide Inv, StepPut, StepClose, StepAdmin, Receive, CancelEnd, WithinLimit, Expired;
  }

  lemma OtherConnOrder(s: State, e: Event)
    requires Inv(s) && Enabled(s, e) && InConn(e) && !e.ConnEnter?
    ensures Step(s, e).free == s.free
  {
    CallFacts(s, e);
    hide Inv, StepPut, StepClose, StepAdmin, ConnBegin, WithinLimit, Expired, Wanted;
  }

  /** The hand-over appends exactly what it makes idle. */
  lemma HandOverOrder(s: State, dc: DriverConn, pick: nat)
    requires dc in s.conns && !s.conns[dc].inUse && s.conns[dc].place == Closing
    requires !s.closed && s.requests != {} ==> pick in s.requests && pick in s.waiting
    ensures var t := PutConnDBLocked(s, Some(dc), None, pick).0;
      t.free == s.free + (if dc in t.conns && t.conns[dc].place == Idle then [dc] else [])
  {
    hide WithinLimit, OneAnswer, MaxIdleConns;
  }

  lemma PutOrder(s: State, dc: DriverConn, err: Option<Err>, now: int, pick: nat)
    requires PutConn.requires(s, dc, err, now, pick) && s.conns[dc].inUse
    ensures var t := PutConn(s, dc, err, now, pick).0;
      t.free == s.free + (if dc in t.conns && t.conns[dc].place == Idle then [dc] else [])
  {
    hide WithinLimit, OneAnswer, MaybeOpenNewConnections, PutConnDBLocked, Expired;
    var t := TakeIn(s, dc, err, now).0;
    HandOverOrder(t, dc, pick);
    OpeningKeepsOrder(t);
  }

  lemma OpeningKeepsOrder(s: State)
    ensures MaybeOpenNewConnections(s).free == s.free && MaybeOpenNewConnections(s).conns == s.conns
  {
  }

  lemma OpenerOrder(s: State, dc: DriverConn, now: int, pick: nat)
    requires OpenerDone.requires(s, Ok(dc), now, pick) && dc !in s.conns
    ensures var t := OpenerDone(s, Ok(dc), now, pick);
      t.free == s.free + (if dc in t.conns && t.conns[dc].place == Idle then [dc] else [])
  {
    hide WithinLimit, OneAnswer, PutConnDBLocked;
    if !s.closed {
      var rec := ConnRec(now, now, false, false, false, false, Closing);
      var s1 := s.(openerDials := s.openerDials - 1, conns := s.conns[dc := rec]);
      HandOverOrder(s1, dc, pick);
      PoolStatements.PutConnDBLockedRecord(s1, dc, pick);
    }
  }

  lemma OpenerErrorOrder(s: State, err: Err, now: int, pick: nat)
    requires OpenerDone.requires(s, Fail(err), now, pick)
    ensures OpenerDone(s, Fail(err), now, pick).free == s.free
  {
    hide WithinLimit, OneAnswer;
  }

  lemma PutBackOrder(s: State, e: Event)
    requires Inv(s) && Enabled(s, e) && e.PutBack?
    ensures Step(s, e).free == s.free + IdledBy(s, e)
  {
    hide Inv, StepConn, StepClose, StepAdmin, PutConn, OpenerDone, WithinLimit;
    CallFacts(s, e);
    RecordFact(s, e.dc);
    PutOrder(s, e.dc, e.err, e.now, e.pick);
  }

  lemma OpenerAnswerOrder(s: State, e: Event)
    requires Inv(s) && Enabled(s, e) && e.OpenerAnswered?
    ensures Step(s, e).free == s.free + IdledBy(s, e)
  {
    hide Inv, StepConn, StepClose, StepAdmin, PutConn, OpenerDone, WithinLimit;
    CallFacts(s, e);
    if e.res.Ok? {
      OpenerOrder(s, e.res.value, e.now, e.pick);
    } else {
      OpenerErrorOrder(s, e.res.error, e.now, e.pick);
    }
  }

  lemma OtherPutOrder(s: State, e: Event)
    requires Inv(s) && Enabled(s, e) && InPut(e) && !e.PutBack? && !e.OpenerAnswered?
    ensures Step(s, e).free == s.free
  {
    hide Inv, StepConn, StepClose, StepAdmin, PutConn, OpenerDone, WithinLimit;
  }

  lemma PutsOrder(s: State, e: Event)
    requires Inv(s) && Enabled(s, e) && InPut(e)
    ensures Step(s, e).free == s.free + IdledBy(s, e)
  {
    hide Inv, Enabled, Step, At;
    if e.PutBack? {
      PutBackOrder(s, e);
    } else if e.OpenerAnswered? {
      OpenerAnswerOrder(s, e);
    } else {
      OtherPutOrder(s, e);
    }
  }

  lemma CloseOrder(s: State, e: Event)
    requires Inv(s) && Enabled(s, e) && InClose(e)
    ensures Step(s, e).free == s.free
  {
    hide Inv, StepConn, StepPut, StepAdmin, MaybeOpenNewConnections, WithinLimit;
    if e.GiveSlotBack? {
      OpeningKeepsOrder(s.(conns := s.conns - {e.dc}, numOpen := s.numOpen - 1));
    }
  }

  lemma AdminOrder(s: State, e: Event)
    requires Inv(s) && Enabled(s, e) && !InConn(e) && !InPut(e) && !InClose(e) && KeepsOrder(e)
    ensures Step(s, e).free == s.free
  {
    hide Inv, StepConn, StepPut, StepClose, WithinLimit;
  }

  /** One step: what is taken is the head, what becomes idle goes to the tail. */
  lemma StepOrder(s: State, e: Event)
    requires Inv(s) && Enabled(s, e) && KeepsOrder(e)
    ensures s.free + IdledBy(s, e) == TakenBy(s, e) + Step(s, e).free
    ensures TakesIdle(s, e) ==> WithTaker(Step(s, e), s.free[0])
  {
    hide Inv, Enabled, Step, WithTaker;
    if e.ConnEnter? {
      ConnOrder(s, e);
    } else if InConn(e) {
      OtherConnOrder(s, e);
    } else if InPut(e) {
      PutsOrder(s, e);
    } else if InClose(e) {
      CloseOrder(s, e);
    } else {
      AdminOrder(s, e);
    }
  }

  /** The connections a run takes from the idle list, in order. */
  ghost function Taken(s: State, es: seq<Event>): seq<DriverConn>
    requires Inv(s) && CanRun(s, es)
    decreases |es|
  {
    if es == [] then []
    else
      StepInv(s, es[0]);
      TakenBy(s, es[0]) + Taken(Step(s, es[0]), es[1..])
  }

  /** The connections a run makes idle, in order. */
  ghost function Idled(s: State, es: seq<Event>): seq<DriverConn>
    requires Inv(s) && CanRun(s, es)
    decreases |es|
  {
    if es == [] then []
    else
      StepInv(s, es[0]);
      IdledBy(s, es[0]) + Idled(Step(s, es[0]), es[1..])
  }

  /**
   First in, first out: over any run without the cleaner and without a cut, the connections taken,
   followed by those still idle, are those idle at first, followed by those that became so.
   */
  lemma {:induction false} FirstInFirstOut(s: State, es: seq<Event>)
    requires Inv(s) && CanRun(s, es)
    requires forall i :: 0 <= i < |es| ==> KeepsOrder(es[i])
    ensures Taken(s, es) + Run(s, es).free == s.free + Idled(s, es)
    decreases |es|
  {
    if es != [] {
      hide Inv, Enabled, Step, TakenBy, IdledBy, KeepsOrder;
      StepInv(s, es[0]);
      StepOrder(s, es[0]);
      var s1 := Step(s, es[0]);
      FirstInFirstOut(s1, es[1..]);
      Shift(s.free, IdledBy(s, es[0]), TakenBy(s, es[0]), s1.free, Taken(s1, es[1..]), Run(s, es).free,
            Idled(s1, es[1..]));
    }
  }

  lemma Shift<T>(free: seq<T>, idled: seq<T>, taken: seq<T>, free1: seq<T>, taken1: seq<T>, end: seq<T>, idled1: seq<T>)
    requires free + idled == taken + free1 && taken1 + end == free1 + idled1
    ensures (taken + taken1) + end == free + (idled + idled1)
  {
    assert (taken + taken1) + end == taken + (taken1 + end);
    assert taken + (free1 + idled1) == (taken + free1) + idled1;
    assert free + (idled + idled1) == (free + idled) + idled1;
  }
}

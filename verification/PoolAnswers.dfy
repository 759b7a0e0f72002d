/**
 What each critical section of the pool answers and leaves behind, in terms of the fields before it:
 who gets a connection, who must wait or dial, when a connection is reused and when it is closed,
 what the counters count, and that nothing else changes.
 */
module PoolAnswers {
  import opened Wrappers
  import opened DriverConns
  import opened PoolState
  import opened PoolInvariant
  import opened PoolRuns

  // --- the measures ------------------------------------------------------------------------

  /** The connection has outlived the limit. */
  predicate Outlived(rec: ConnRec, lifetime: int, now: int) {
    lifetime > 0 && rec.createdAt + lifetime < now
  }

  /** How many idle connections may be kept: two by default. */
  function IdleLimit(s: State): int {
    if s.maxIdleCount > 0 then s.maxIdleCount else if s.maxIdleCount == 0 then 2 else 0
  }

  predicate AtLimit(s: State) {
    s.maxOpen > 0 && s.numOpen >= s.maxOpen
  }

  predicate AboveLimit(s: State) {
    s.maxOpen > 0 && s.numOpen > s.maxOpen
  }

  /** The openings that pending requests are entitled to when numOpen are open. */
  ghost predicate Entitled(n: int, requests: set<nat>, maxOpen: int, numOpen: int) {
    && 0 <= n <= |requests|
    && (maxOpen > 0 && n > 0 ==> numOpen + n <= maxOpen)
    && (n < |requests| ==> maxOpen > 0 && numOpen + n >= maxOpen)
  }

  /**
   With numOpen connections left open, t has a token more for each opening that the pending requests
   are entitled to; a closed pool gets no token and counts one slot.
   */
  ghost predicate OpensFor(s: State, t: State, numOpen: int) {
    exists n :: Entitled(n, t.requests, s.maxOpen, numOpen)
                && (if s.closed then t.tokens == s.tokens && t.numOpen == numOpen + (if n > 0 then 1 else 0)
                                     && t.leaked == s.leaked + (if n > 0 then 1 else 0)
                    else t.tokens == s.tokens + n && t.numOpen == numOpen + n && t.leaked == s.leaked)
  }

  lemma OpeningsAre(s: State)
    ensures OpensFor(s, MaybeOpenNewConnections(s), s.numOpen)
    ensures var t := MaybeOpenNewConnections(s);
      t == s.(numOpen := t.numOpen, tokens := t.tokens, leaked := t.leaked)
  {
    var n := if Wanted(s) <= 0 then 0 else Wanted(s);
    assert Entitled(n, s.requests, s.maxOpen, s.numOpen);
  }

  // --- conn ------------------------------------------------------------------------------

  /** What a caller of conn is told: one of six things, each exactly in its case. */
  lemma ConnTells(s: State, ctxDone: bool, strategy: Strategy, now: int)
    requires Inv(s)
    ensures |s.free| > 0 ==> s.free[0] in s.conns
    ensures var b := ConnBegin(s, ctxDone, strategy, now).1;
      var takes := strategy == CachedOrNewConn && s.free != [];
      && (b.DBClosed? <==> s.closed)
      && (b.ContextDone? <==> !s.closed && ctxDone)
      && (b.Cached? || b.CachedExpired? <==> !s.closed && !ctxDone && takes)
      && (b.MustWait? <==> !s.closed && !ctxDone && !takes && AtLimit(s))
      && (b.MustDial? <==> !s.closed && !ctxDone && !takes && !AtLimit(s))
  {
    FreeFact(s);
    hide Inv, WithinLimit;
  }

  /** A closed pool or an ended context changes nothing; a dial counts from its beginning. */
  lemma ConnWithout(s: State, ctxDone: bool, strategy: Strategy, now: int)
    requires Inv(s)
    ensures var t := Step(s, ConnEnter(ctxDone, strategy, now));
      && (s.closed || ctxDone ==> t == s)
      && (!s.closed && !ctxDone && (strategy == AlwaysNewConn || s.free == []) && !AtLimit(s) ==>
            t == s.(numOpen := s.numOpen + 1, dials := s.dials + 1))
  {
    FreeFact(s);
    hide Inv, WithinLimit;
  }

  /** The head of the idle list is the caller's; it must be closed instead exactly if it has outlived the limit. */
  lemma ConnTakesHead(s: State, now: int)
    requires Inv(s) && !s.closed && s.free != []
    ensures s.free[0] in s.conns
    ensures var c, t := s.free[0], Step(s, ConnEnter(false, CachedOrNewConn, now));
      var b, aged := ConnBegin(s, false, CachedOrNewConn, now).1, Outlived(s.conns[c], s.maxLifetime, now);
      && (At(t, c, Closing) <==> aged) && (At(t, c, Held) <==> !aged)
      && (b == CachedExpired(c) <==> aged) && (b == Cached(c) <==> !aged)
      && t.stats == s.stats.(maxLifetimeClosed := s.stats.maxLifetimeClosed + (if aged then 1 else 0))
      && t.conns == s.conns[c := s.conns[c].(inUse := true, place := t.conns[c].place)]
      && t == s.(free := s.free[1..], conns := t.conns, stats := t.stats)
  {
    FreeFact(s);
    hide Inv, WithinLimit;
  }

  /** A request has a fresh key, an empty channel, and remembers the lifetime limit of its time. */
  lemma ConnQueues(s: State, strategy: Strategy, now: int)
    requires Inv(s) && !s.closed && AtLimit(s) && (strategy == AlwaysNewConn || s.free == [])
    ensures |s.free| > 0 ==> s.free[0] in s.conns
    ensures var t, key := Step(s, ConnEnter(false, strategy, now)), s.nextRequest;
      && ConnBegin(s, false, strategy, now).1 == MustWait(key) && key !in s.waiting && key !in s.requests
      && t.requests == s.requests + {key}
      && t.waiting == s.waiting[key := Waiter(strategy, s.maxLifetime, Empty, false)]
      && t.stats == s.stats.(waitCount := s.stats.waitCount + 1)
      && t == s.(requests := t.requests, waiting := t.waiting, stats := t.stats, nextRequest := key + 1)
  {
    FreeFact(s);
    KeyFact(s);
    hide Inv, WithinLimit;
  }

  lemma KeyFact(s: State)
    requires Inv(s)
    ensures s.nextRequest !in s.waiting && s.nextRequest !in s.requests
  {
  }

  lemma DialOutcome(s: State, e: Event)
    requires Inv(s) && Enabled(s, e) && (e.DialFails? || e.DialSucceeds?)
    ensures var t := Step(s, e);
      && (e.DialFails? ==>
            && OpensFor(s, t, s.numOpen - 1)
            && t == s.(dials := s.dials - 1, numOpen := t.numOpen, tokens := t.tokens, leaked := t.leaked))
      && (e.DialSucceeds? ==>
            && At(t, e.dc, Held) && t.conns[e.dc].createdAt == t.conns[e.dc].returnedAt == e.now && t.conns[e.dc].inUse
            && !t.conns[e.dc].closed && !t.conns[e.dc].finalClosed && !t.conns[e.dc].dbmuClosed
            && t == s.(dials := s.dials - 1, conns := s.conns[e.dc := t.conns[e.dc]], dep := s.dep[e.dc := {e.dc}]))
  {
    hide Inv, WithinLimit, MaybeOpenNewConnections, OpensFor, Receive, ConnBegin, CancelEnd, CancelBegin;
    if e.DialFails? {
      OpeningsAre(s.(numOpen := s.numOpen - 1, dials := s.dials - 1));
      SameOpenings(s.(numOpen := s.numOpen - 1, dials := s.dials - 1), s, Step(s, e), s.numOpen - 1);
    }
  }

  /** What was owed does not depend on how the section got there. */
  lemma SameOpenings(s0: State, s: State, t: State, numOpen: int)
    requires OpensFor(s0, t, numOpen) && s0.maxOpen == s.maxOpen && s0.closed == s.closed
    requires s0.tokens == s.tokens && s0.leaked == s.leaked
    ensures OpensFor(s, t, numOpen)
  {
    hide Entitled;
  }

  /** A waiter's channel is ready: it gets what was sent, whole, and gives up an outlived connection. */
  lemma WaiterGets(s: State, key: nat, now: int)
    requires Inv(s) && Enabled(s, WaiterReceives(key, now))
    ensures Receive.requires(s, key, now)
    ensures var w, t, r := s.waiting[key], Step(s, WaiterReceives(key, now)), Receive(s, key, now).1;
      && (w.chan == Shut <==> r.GotClosed?)
      && (r.GotErr? <==> w.chan.Sent? && w.chan.err.Some?)
      && (r.GotErr? ==> w.chan.err == Some(r.err))
      && (r.GotConn? || r.GotExpired? ==> w.chan == Sent(Some(r.dc), None) && r.dc in s.conns && r.dc in t.conns)
      && (r.GotClosed? || r.GotErr? ==> t == s.(waiting := s.waiting - {key}))
  {
    CallFacts(s, WaiterReceives(key, now));
    hide Inv, WithinLimit, ConnBegin, CancelEnd, CancelBegin, DialFailed, DialSucceeded;
  }

  lemma WaiterTakes(s: State, key: nat, now: int, c: DriverConn)
    requires Inv(s) && Enabled(s, WaiterReceives(key, now)) && s.waiting[key].chan == Sent(Some(c), None)
    ensures Receive.requires(s, key, now) && c in s.conns
    ensures var w, t, r := s.waiting[key], Step(s, WaiterReceives(key, now)), Receive(s, key, now).1;
      var aged := w.strategy == CachedOrNewConn && Outlived(s.conns[c], w.lifetime, now);
      && (At(t, c, Closing) <==> aged) && (At(t, c, Held) <==> !aged)
      && (r == GotExpired(c) <==> aged) && (r == GotConn(c) <==> !aged)
      && t.stats == s.stats.(maxLifetimeClosed := s.stats.maxLifetimeClosed + (if aged then 1 else 0))
      && t == s.(waiting := s.waiting - {key}, conns := s.conns[c := s.conns[c].(place := t.conns[c].place)],
                 stats := t.stats)
  {
    CallFacts(s, WaiterReceives(key, now));
    hide Inv, WithinLimit, ConnBegin, CancelEnd, CancelBegin, DialFailed, DialSucceeded;
  }

  /** A cancelled waiter's key goes at once; a connection sent to it before is in its hands at the end. */
  lemma WaiterGoes(s: State, key: nat)
    requires Inv(s)
    ensures Enabled(s, WaiterCancels(key)) ==>
      Step(s, WaiterCancels(key)) == s.(requests := s.requests - {key},
                                        waiting := s.waiting[key := s.waiting[key].(cancelled := true)])
    ensures Enabled(s, WaiterDrains(key)) ==> CancelEnd.requires(s, key)
    ensures Enabled(s, WaiterDrains(key)) ==>
      var ch, t, r := s.waiting[key].chan, Step(s, WaiterDrains(key)), CancelEnd(s, key).1;
      && (r.Some? <==> ch.Sent? && ch.conn.Some?)
      && (r.Some? ==> ch.conn == r && r.value in s.conns && At(t, r.value, Held)
                      && t.conns == s.conns[r.value := s.conns[r.value].(place := Held)])
      && t == s.(waiting := s.waiting - {key}, conns := if r.Some? then t.conns else s.conns)
  {
    if Enabled(s, WaiterDrains(key)) {
      CallFacts(s, WaiterDrains(key));
    }
    hide Inv, WithinLimit, ConnBegin, Receive, DialFailed, DialSucceeded;
  }

  // --- putConn -----------------------------------------------------------------------------

  /** A connection that comes back is not used again. */
  ghost predicate Unwanted(s: State, rec: ConnRec, err: Option<Err>, now: int) {
    || s.closed || err == Some(ErrBadConn) || Outlived(rec, s.maxLifetime, now) || AboveLimit(s)
    || (s.requests == {} && |s.free| >= IdleLimit(s))
  }

  /** It is bad as it came back, or too old. */
  predicate Spoiled(s: State, rec: ConnRec, err: Option<Err>, now: int) {
    err == Some(ErrBadConn) || Outlived(rec, s.maxLifetime, now)
  }

  /** The hand-over of a connection that nobody has: refused, sent to the picked request, or kept idle. */
  lemma HandOver(s: State, dc: DriverConn, pick: nat)
    requires dc in s.conns && (!s.closed && s.requests != {} ==> pick in s.requests && pick in s.waiting)
    ensures var t, kept := PutConnDBLocked(s, Some(dc), None, pick).0, PutConnDBLocked(s, Some(dc), None, pick).1;
      var full := s.requests == {} && |s.free| >= IdleLimit(s);
      && (kept <==> !s.closed && !AboveLimit(s) && !full)
      && (kept && s.requests != {} ==>
            t == s.(requests := s.requests - {pick},
                    waiting := s.waiting[pick := s.waiting[pick].(chan := Sent(Some(dc), None))],
                    conns := s.conns[dc := s.conns[dc].(inUse := true, place := InChan(pick))]))
      && (kept && s.requests == {} ==>
            t == s.(free := s.free + [dc], conns := s.conns[dc := s.conns[dc].(place := Idle)]))
      && (!kept ==>
            t == s.(stats := s.stats.(maxIdleClosed :=
                      s.stats.maxIdleClosed + (if !s.closed && !AboveLimit(s) && full then 1 else 0))))
  {
    hide WithinLimit, OneAnswer;
  }

  /** The hand-over of an error. */
  lemma HandOverError(s: State, err: Err, pick: nat)
    requires !s.closed && s.requests != {} ==> pick in s.requests && pick in s.waiting
    ensures var t := PutConnDBLocked(s, None, Some(err), pick).0;
      t == if s.closed || AboveLimit(s) || s.requests == {} then s
           else s.(requests := s.requests - {pick},
                   waiting := s.waiting[pick := s.waiting[pick].(chan := Sent(None, Some(err)))])
  {
    hide WithinLimit, OneAnswer;
  }

  /** The put as the sections that make it up: the connection is taken in, then handed over or not. */
  lemma PutIs(s: State, dc: DriverConn, err: Option<Err>, now: int, pick: nat)
    requires Inv(s) && Enabled(s, PutBack(dc, err, now, pick))
    ensures PutConn.requires(s, dc, err, now, pick)
    ensures !s.closed && s.requests != {} ==> pick in s.requests && pick in s.waiting
    ensures Step(s, PutBack(dc, err, now, pick)) == PutConn(s, dc, err, now, pick).0
    ensures var s1 := s.(conns := s.conns[dc := s.conns[dc].(inUse := false, returnedAt := now, place := Closing)]);
      var r := PutConn(s, dc, err, now, pick);
      if err == Some(ErrBadConn) then r == (MaybeOpenNewConnections(s1), MustClose)
      else if Outlived(s.conns[dc], s.maxLifetime, now) then
        r == (MaybeOpenNewConnections(s1.(stats := s.stats.(maxLifetimeClosed := s.stats.maxLifetimeClosed + 1))),
              MustClose)
      else
        var h := PutConnDBLocked(s1, Some(dc), None, pick);
        r == (h.0, if h.1 then Reused else MustClose)
  {
    CallFacts(s, PutBack(dc, err, now, pick));
    RecordFact(s, dc);
    hide Inv, WithinLimit, OneAnswer, MaybeOpenNewConnections, PutConnDBLocked, OpenerDone;
  }

  /**
   Where a connection that is put back goes: to be closed exactly if it is unwanted, else to the
   picked request, else to the idle list; and putConn's answer says which.
   */
  lemma PutGoes(s: State, dc: DriverConn, err: Option<Err>, now: int, pick: nat)
    requires Inv(s) && Enabled(s, PutBack(dc, err, now, pick))
    ensures PutConn.requires(s, dc, err, now, pick)
    ensures var t, r := Step(s, PutBack(dc, err, now, pick)), PutConn(s, dc, err, now, pick).1;
      var unwanted := Unwanted(s, s.conns[dc], err, now);
      && (At(t, dc, Closing) <==> unwanted) && (r == MustClose <==> unwanted)
      && (At(t, dc, InChan(pick)) <==> !unwanted && s.requests != {})
      && (At(t, dc, Idle) <==> !unwanted && s.requests == {})
      && (r == Reused <==> !unwanted)
  {
    hide Inv, Enabled, Step, WithinLimit, OneAnswer, MaybeOpenNewConnections, PutConnDBLocked, PutConn, OpensFor;
    PutIs(s, dc, err, now, pick);
    var s1 := s.(conns := s.conns[dc := s.conns[dc].(inUse := false, returnedAt := now, place := Closing)]);
    OpeningsAre(s1);
    OpeningsAre(s1.(stats := s.stats.(maxLifetimeClosed := s.stats.maxLifetimeClosed + 1)));
    HandOver(s1, dc, pick);
  }

  /** What a put leaves behind in the connection's record, the request's channel and the idle list. */
  lemma PutLeaves(s: State, dc: DriverConn, err: Option<Err>, now: int, pick: nat)
    requires Inv(s) && Enabled(s, PutBack(dc, err, now, pick))
    ensures var t := Step(s, PutBack(dc, err, now, pick));
      && dc in t.conns && t.conns == s.conns[dc := t.conns[dc]]
      && t.conns[dc] == s.conns[dc].(returnedAt := now, inUse := t.conns[dc].place.InChan?, place := t.conns[dc].place)
      && t.free == (if At(t, dc, Idle) then s.free + [dc] else s.free)
      && t.requests == (if At(t, dc, InChan(pick)) then s.requests - {pick} else s.requests)
      && (At(t, dc, InChan(pick)) ==>
            pick in s.waiting && t.waiting == s.waiting[pick := s.waiting[pick].(chan := Sent(Some(dc), None))])
      && (!At(t, dc, InChan(pick)) ==> t.waiting == s.waiting)
  {
    hide Inv, Enabled, Step, WithinLimit, OneAnswer, MaybeOpenNewConnections, PutConnDBLocked, PutConn, OpensFor;
    PutIs(s, dc, err, now, pick);
    var s1 := s.(conns := s.conns[dc := s.conns[dc].(inUse := false, returnedAt := now, place := Closing)]);
    OpeningsAre(s1);
    OpeningsAre(s1.(stats := s.stats.(maxLifetimeClosed := s.stats.maxLifetimeClosed + 1)));
    HandOver(s1, dc, pick);
  }

  /** What it counts: an old connection that was not reported bad, or one too many to keep idle. */
  lemma PutCounts(s: State, dc: DriverConn, err: Option<Err>, now: int, pick: nat)
    requires Inv(s) && Enabled(s, PutBack(dc, err, now, pick))
    ensures var t, spoiled := Step(s, PutBack(dc, err, now, pick)), Spoiled(s, s.conns[dc], err, now);
      && t.stats == s.stats.(maxLifetimeClosed := t.stats.maxLifetimeClosed, maxIdleClosed := t.stats.maxIdleClosed)
      && t.stats.maxLifetimeClosed - s.stats.maxLifetimeClosed
           == (if err != Some(ErrBadConn) && Outlived(s.conns[dc], s.maxLifetime, now) then 1 else 0)
      && t.stats.maxIdleClosed - s.stats.maxIdleClosed
           == (if !s.closed && !spoiled && !AboveLimit(s) && s.requests == {} && |s.free| >= IdleLimit(s) then 1 else 0)
      && (spoiled ==> OpensFor(s, t, s.numOpen))
      && (!spoiled ==> t.numOpen == s.numOpen && t.tokens == s.tokens && t.leaked == s.leaked)
      && t == s.(numOpen := t.numOpen, tokens := t.tokens, leaked := t.leaked, stats := t.stats,
                 conns := t.conns, free := t.free, requests := t.requests, waiting := t.waiting)
  {
    hide Inv, Enabled, Step, WithinLimit, OneAnswer, MaybeOpenNewConnections, PutConnDBLocked, PutConn, OpensFor;
    PutIs(s, dc, err, now, pick);
    var s1 := s.(conns := s.conns[dc := s.conns[dc].(inUse := false, returnedAt := now, place := Closing)]);
    OpeningsAre(s1);
    OpeningsAre(s1.(stats := s.stats.(maxLifetimeClosed := s.stats.maxLifetimeClosed + 1)));
    HandOver(s1, dc, pick);
    var s2 := s1.(stats := s.stats.(maxLifetimeClosed := s.stats.maxLifetimeClosed + 1));
    SameOpenings(s1, s, MaybeOpenNewConnections(s1), s.numOpen);
    SameOpenings(s2, s, MaybeOpenNewConnections(s2), s.numOpen);
  }

  // --- driverConn.Close ----------------------------------------------------------------------

  /** The four parts of Close, each with the flag it sets; the last gives the slot back. */
  lemma ClosePartDoes(s: State, e: Event)
    requires Inv(s) && Enabled(s, e) && InClose(e) && !e.GiveSlotBack?
    ensures e.dc in s.conns
    ensures var t, rec := Step(s, e), s.conns[e.dc];
      && (e.MarkClosed? ==> t == s.(conns := s.conns[e.dc := rec.(closed := true, place := Marked)]))
      && (e.DropDep? ==> t == s.(conns := s.conns[e.dc := rec.(dbmuClosed := true, place := Finalizing)],
                                 dep := s.dep - {e.dc}))
      && (e.CloseDriverConn? ==> t == s.(conns := s.conns[e.dc := rec.(finalClosed := true, place := Finalized)]))
  {
    RecordFact(s, e.dc);
    if e.DropDep? {
      SelfDepFact(s, e.dc);
    }
    hide Inv, WithinLimit, MaybeOpenNewConnections, FinalCount, StepConn, StepPut, StepAdmin;
  }

  lemma SlotComesBack(s: State, dc: DriverConn)
    requires Inv(s) && Enabled(s, GiveSlotBack(dc))
    ensures var t := Step(s, GiveSlotBack(dc));
      && OpensFor(s, t, s.numOpen - 1)
      && t == s.(conns := s.conns - {dc}, numOpen := t.numOpen, tokens := t.tokens, leaked := t.leaked)
  {
    hide Inv, WithinLimit, MaybeOpenNewConnections, OpensFor, StepConn, StepPut, StepAdmin;
    var s1 := s.(conns := s.conns - {dc}, numOpen := s.numOpen - 1);
    OpeningsAre(s1);
    SameOpenings(s1, s, MaybeOpenNewConnections(s1), s.numOpen - 1);
  }

  // --- opener --------------------------------------------------------------------------------

  lemma OpenerTakes(s: State)
    requires Inv(s) && Enabled(s, OpenerTakesToken)
    ensures Step(s, OpenerTakesToken) == s.(tokens := s.tokens - 1, openerDials := s.openerDials + 1)
  {
    hide Inv, WithinLimit;
  }

  lemma OpenerFacts(s: State, res: Result<DriverConn, Err>, now: int, pick: nat)
    requires Inv(s) && Enabled(s, OpenerAnswered(res, now, pick))
    ensures s.openerDials > 0 && (res.Ok? ==> res.value !in s.conns)
    ensures !s.closed && s.requests != {} ==> pick in s.requests && pick in s.waiting
    ensures OpenerDone.requires(s, res, now, pick)
    ensures Step(s, OpenerAnswered(res, now, pick)) == OpenerDone(s, res, now, pick)
  {
    CallFacts(s, OpenerAnswered(res, now, pick));
    hide Inv, WithinLimit, OneAnswer, MaybeOpenNewConnections, PutConnDBLocked, PutConn, OpenerDone, StepConn,
      StepClose, StepAdmin;
  }

  /** A pool closed meanwhile keeps nothing of the dial; a failed one is told to the picked request. */
  lemma OpenerInVain(s: State, res: Result<DriverConn, Err>, now: int, pick: nat)
    requires Inv(s) && Enabled(s, OpenerAnswered(res, now, pick)) && (s.closed || res.Fail?)
    ensures var t := Step(s, OpenerAnswered(res, now, pick));
      var told := !s.closed && s.requests != {} && !(s.maxOpen > 0 && s.numOpen - 1 > s.maxOpen);
      && (s.closed ==> t == s.(openerDials := s.openerDials - 1, numOpen := s.numOpen - 1))
      && (told ==> pick in s.waiting && t.requests == s.requests - {pick}
                   && t.waiting == s.waiting[pick := s.waiting[pick].(chan := Sent(None, Some(res.error)))])
      && (!told ==> t.requests == s.requests && t.waiting == s.waiting)
      && (!s.closed ==> OpensFor(s, t, s.numOpen - 1))
      && t == s.(openerDials := s.openerDials - 1, requests := t.requests, waiting := t.waiting,
                 numOpen := t.numOpen, tokens := t.tokens)
  {
    hide Inv, Enabled, Step, WithinLimit, OneAnswer, MaybeOpenNewConnections, PutConnDBLocked, OpensFor;
    OpenerFacts(s, res, now, pick);
    if !s.closed {
      var s0 := s.(openerDials := s.openerDials - 1, numOpen := s.numOpen - 1);
      var s1 := PutConnDBLocked(s0, None, Some(res.error), pick).0;
      HandOverError(s0, res.error, pick);
      OpeningsAre(s1);
      SameOpenings(s1, s, MaybeOpenNewConnections(s1), s.numOpen - 1);
      TokensOnly(s, MaybeOpenNewConnections(s1), s.numOpen - 1);
    }
  }

  lemma TokensOnly(s: State, t: State, numOpen: int)
    requires !s.closed && OpensFor(s, t, numOpen)
    ensures t.leaked == s.leaked
  {
  }

  /**
   The opener's connection goes to the picked request or to the idle list, new and depending on
   itself, if it is wanted there; else it is thrown away with its slot.
   */
  lemma OpenerDelivers(s: State, dc: DriverConn, now: int, pick: nat)
    requires Inv(s) && Enabled(s, OpenerAnswered(Ok(dc), now, pick)) && !s.closed
    ensures var t := Step(s, OpenerAnswered(Ok(dc), now, pick));
      var full := s.requests == {} && |s.free| >= IdleLimit(s);
      && (dc in t.conns <==> !AboveLimit(s) && !full)
      && (dc in t.conns ==>
            && t.conns[dc] == ConnRec(now, now, s.requests != {}, false, false, false, t.conns[dc].place)
            && (At(t, dc, InChan(pick)) <==> s.requests != {}) && (At(t, dc, Idle) <==> s.requests == {})
            && t.conns == s.conns[dc := t.conns[dc]] && t.dep == s.dep[dc := {dc}] && t.numOpen == s.numOpen)
      && (dc !in t.conns ==> t.conns == s.conns && t.dep == s.dep && t.numOpen == s.numOpen - 1)
      && t.stats == s.stats.(maxIdleClosed := s.stats.maxIdleClosed + (if !AboveLimit(s) && full then 1 else 0))
  {
    hide Inv, Enabled, Step, WithinLimit, OneAnswer, MaybeOpenNewConnections, PutConnDBLocked;
    OpenerFacts(s, Ok(dc), now, pick);
    var s1 := s.(openerDials := s.openerDials - 1,
                 conns := s.conns[dc := ConnRec(now, now, false, false, false, false, Closing)]);
    HandOver(s1, dc, pick);
  }

  lemma OpenerDeliversTo(s: State, dc: DriverConn, now: int, pick: nat)
    requires Inv(s) && Enabled(s, OpenerAnswered(Ok(dc), now, pick)) && !s.closed
    ensures var t := Step(s, OpenerAnswered(Ok(dc), now, pick));
      && t.free == (if At(t, dc, Idle) then s.free + [dc] else s.free)
      && t.requests == (if At(t, dc, InChan(pick)) then s.requests - {pick} else s.requests)
      && (At(t, dc, InChan(pick)) ==>
            pick in s.waiting && t.waiting == s.waiting[pick := s.waiting[pick].(chan := Sent(Some(dc), None))])
      && (!At(t, dc, InChan(pick)) ==> t.waiting == s.waiting)
      && t == s.(openerDials := s.openerDials - 1, free := t.free, requests := t.requests, waiting := t.waiting,
                 conns := t.conns, dep := t.dep, numOpen := t.numOpen, stats := t.stats)
  {
    hide Inv, Enabled, Step, WithinLimit, OneAnswer, MaybeOpenNewConnections, PutConnDBLocked;
    OpenerFacts(s, Ok(dc), now, pick);
    var s1 := s.(openerDials := s.openerDials - 1,
                 conns := s.conns[dc := ConnRec(now, now, false, false, false, false, Closing)]);
    HandOver(s1, dc, pick);
  }

  // --- limits, cleaner, DBClose ----------------------------------------------------------------

  /** The idle limit is the number asked for, none if that is not positive, and the open limit at most. */
  lemma IdleLimitSet(s: State, n: int, fromSync: bool)
    requires Inv(s) && Enabled(s, ChangeMaxIdle(n, fromSync))
    ensures var t := Step(s, ChangeMaxIdle(n, fromSync));
      && IdleLimit(t) == (if n <= 0 then 0 else if 0 < s.maxOpen < n then s.maxOpen else n)
      && t.free == s.free[..if |s.free| > IdleLimit(t) then IdleLimit(t) else |s.free|]
      && t.stats == s.stats.(maxIdleClosed := s.stats.maxIdleClosed + |s.free| - |t.free|)
      && SetMaxIdleConns(s, n, fromSync).1 == s.free[|t.free|..]
      && t.conns.Keys == s.conns.Keys
      && (forall c :: c in s.conns ==>
            t.conns[c] == if c in s.free[|t.free|..] then s.conns[c].(place := Closing) else s.conns[c])
      && t == s.(maxIdleCount := t.maxIdleCount, free := t.free, stats := t.stats, conns := t.conns,
                 pendingSyncs := s.pendingSyncs - (if fromSync then 1 else 0))
  {
    hide Inv, WithinLimit, CleanerRun, DBClose, MoveAll, StepConn, StepPut, StepClose;
    MovedAre(s.conns, s.free[|Step(s, ChangeMaxIdle(n, fromSync)).free|..], Closing);
  }

  lemma MovedAre(conns: map<DriverConn, ConnRec>, cs: seq<DriverConn>, p: Place)
    ensures var m := MoveAll(conns, Elems(cs), p);
      && m.Keys == conns.Keys
      && forall c :: c in conns ==> m[c] == if c in cs then conns[c].(place := p) else conns[c]
  {
  }

  /** The open limit; whether the idle limit is now above it and must follow. */
  lemma OpenLimitSet(s: State, n: int)
    requires Inv(s)
    ensures var t, sync := Step(s, ChangeMaxOpen(n)), SetMaxOpenConns(s, n).1;
      && t.maxOpen == (if n > 0 then n else 0)
      && (sync <==> n > 0 && IdleLimit(s) > n)
      && t == s.(maxOpen := t.maxOpen, pendingSyncs := s.pendingSyncs + (if sync then 1 else 0))
  {
    hide Inv, WithinLimit, CleanerRun, DBClose;
  }

  lemma TimesSet(s: State, d: int)
    requires Inv(s)
    ensures Step(s, ChangeLifetime(d)) == s.(maxLifetime := if d > 0 then d else 0)
    ensures Step(s, ChangeIdleTime(d)) == s.(maxIdleTime := if d > 0 then d else 0)
  {
    hide Inv, WithinLimit, CleanerRun, DBClose;
  }

  /**
   DBClose: the first call closes every idle connection and every pending request's channel and
   nothing else; a second one does nothing.
   */
  lemma CloseDBDoes(s: State)
    requires Inv(s)
    ensures var t, closing := Step(s, CloseDB), PoolState.DBClose(s).1;
      && (s.closed ==> t == s && closing == [])
      && (!s.closed ==>
            && closing == s.free && t.conns.Keys == s.conns.Keys && t.waiting.Keys == s.waiting.Keys
            && (forall c :: c in s.conns ==>
                  t.conns[c] == if c in s.free then s.conns[c].(closed := true, place := Finalizing) else s.conns[c])
            && (forall c :: c in t.dep <==> c in s.dep && c !in s.free)
            && (forall c :: c in t.dep ==> t.dep[c] == s.dep[c])
            && (forall k :: k in s.waiting ==>
                  t.waiting[k] == if k in s.requests then s.waiting[k].(chan := Shut) else s.waiting[k])
            && t == s.(closed := true, free := [], conns := t.conns, dep := t.dep, waiting := t.waiting))
  {
    hide Inv, WithinLimit, CleanerRun, SetMaxIdleConns, StepConn, StepPut, StepClose, CloseIdle, ShutAll;
    ClosedIdleAre(s.conns, s.free);
    ShutAre(s.waiting, s.requests);
  }

  lemma ClosedIdleAre(conns: map<DriverConn, ConnRec>, free: seq<DriverConn>)
    ensures var m := CloseIdle(conns, Elems(free));
      && m.Keys == conns.Keys
      && forall c :: c in conns ==>
           m[c] == if c in free then conns[c].(closed := true, place := Finalizing) else conns[c]
  {
  }

  lemma ShutAre(waiting: map<nat, Waiter>, keys: set<nat>)
    ensures var m := ShutAll(waiting, keys);
      && m.Keys == waiting.Keys
      && forall k :: k in waiting ==> m[k] == if k in keys then waiting[k].(chan := Shut) else waiting[k]
  {
  }

  /** openDB: nothing open, nobody waiting, and as many idle connections kept as may be open. */
  lemma OpenDBStarts(connectionPool: int)
    ensures var s := OpenDB(connectionPool);
      && s.maxOpen == (if connectionPool > 0 then connectionPool else 0) && IdleLimit(s) == s.maxOpen
      && s == InitState.(maxOpen := s.maxOpen, maxIdleCount := s.maxIdleCount)
      && !s.closed && s.numOpen == s.tokens == s.dials == s.openerDials == s.leaked == s.pendingSyncs == 0
      && s.free == [] && s.requests == {} && s.waiting == map[] && s.conns == map[] && s.dep == map[]
      && s.stats == Counters(0, 0, 0, 0) && s.maxLifetime == 0 && s.maxIdleTime == 0
  {
    hide WithinLimit;
    assert forall m: map<DriverConn, ConnRec> :: m == map[] ==> MoveAll(m, {}, Closing) == map[];
  }
}

/**
 The pool itself: the source's DB object, its fields updated in place. Each method is one
 stretch of code under the pool's mutex and is proved to do what PoolState says of it: the ghost
 field `abs` is the abstract state, and Agrees() ties every real field to it.
 */
module Pool {
  import opened Wrappers
  import opened DriverConns
  import opened Deps
  import opened SwapRemove
  import opened PoolState
  import opened PoolInvariant
  import opened PoolRuns
  import PoolAnswers

  /** The record of a connection is what its fields say. */
  ghost predicate Recorded(c: DriverConn, r: ConnRec)
    reads c
  {
    r == ConnRec(c.createdAt, c.returnedAt, c.inUse, c.closed, c.dbmuClosed, c.finalClosed, r.place)
  }

  lemma RequestFacts(s: State)
    requires Inv(s)
    ensures !s.closed ==> s.requests <= s.waiting.Keys
  {
  }

  lemma IdleFacts(s: State)
    requires Inv(s)
    ensures forall c :: c in s.free ==> c in s.conns && !s.conns[c].closed && c in s.dep && s.dep[c] == {c}
  {
  }

  /** The opener's section on an open pool, put together from the hand-over. */
  lemma OpenerDoneShape(s: State, s1: State, dc: DriverConn, now: int, pick: nat)
    requires OpenerDone.requires(s, Ok(dc), now, pick) && !s.closed
    requires s1 == s.(openerDials := s.openerDials - 1,
                      conns := s.conns[dc := ConnRec(now, now, false, false, false, false, Closing)])
    ensures var r := PutConnDBLocked(s1, Some(dc), None, pick);
      && r.0.dep == s.dep
      && OpenerDone(s, Ok(dc), now, pick)
           == if r.1 then r.0.(dep := s.dep[dc := {dc}]) else r.0.(conns := s.conns, numOpen := r.0.numOpen - 1)
  {
    PutIgnoresDep(s1, s1.dep, dc, pick);
    hide WithinLimit, OneAnswer, PutConnDBLocked;
  }

  /** A connection the pool has not seen has no dependencies yet. */
  lemma NewDep(s: State, dc: DriverConn)
    requires Inv(s) && dc !in s.conns
    ensures AddDep(s.dep, dc, dc) == s.dep[dc := {dc}]
  {
  }

  lemma ClosedAlready(s: State)
    requires s.closed
    ensures PoolState.DBClose(s) == (s, [])
  {
  }

  lemma CloseIdleNone(conns: map<DriverConn, ConnRec>, dep: map<DriverConn, set<DriverConn>>)
    ensures CloseIdle(conns, Elems([])) == conns && dep - Elems([]) == dep
  {
  }

  /** Closing one more idle connection of the list. */
  lemma CloseIdleOneMore(conns: map<DriverConn, ConnRec>, free: seq<DriverConn>, i: nat)
    requires Distinct(free) && i < |free| && free[i] in conns
    ensures var before := CloseIdle(conns, Elems(free[..i]));
      && free[i] !in Elems(free[..i])
      && Elems(free[..i + 1]) == Elems(free[..i]) + {free[i]}
      && free[i] in before && before[free[i]] == conns[free[i]]
      && before[free[i] := conns[free[i]].(closed := true, place := Finalizing)]
           == CloseIdle(conns, Elems(free[..i + 1]))
  {
    assert free[..i + 1] == free[..i] + [free[i]];
  }

  /** Where a connection that is held goes when it is put back. */
  lemma PutLands(s: State, dc: DriverConn, err: Option<Err>, now: int, pick: nat)
    requires Inv(s) && At(s, dc, Held) && PickOk(s, pick)
    ensures PutConn.requires(s, dc, err, now, pick)
    ensures var t, r := PutConn(s, dc, err, now, pick).0, PutConn(s, dc, err, now, pick).1;
      && (r == MustClose <==> PoolAnswers.Unwanted(s, s.conns[dc], err, now))
      && (r == MustClose <==> At(t, dc, Closing))
      && (r == Reused <==> At(t, dc, Idle) || At(t, dc, InChan(pick)))
  {
    hide Inv, Step, PutConn, PoolAnswers.Unwanted;
    PoolAnswers.PutGoes(s, dc, err, now, pick);
    PoolAnswers.PutIs(s, dc, err, now, pick);
  }

  /** A purge with nothing to remove leaves the list alone. */
  lemma {:induction false} NothingDead(free: seq<DriverConn>, i: nat, dead: set<DriverConn>)
    requires i <= |free| && dead == {}
    ensures Purge(free, i, dead) == (free, [])
    decreases |free| - i
  {
    if i < |free| {
      NothingDead(free, i + 1, dead);
    }
  }

  class DB {
    ghost var abs: State

    var closed: bool
    var maxOpen: int
    var maxIdleCount: int
    var maxLifetime: int
    var maxIdleTime: int
    var numOpen: int
    var freeConn: seq<DriverConn>
    var connRequests: set<nat>
    var nextRequest: nat
    var dep: map<DriverConn, set<DriverConn>>
    var openerCh: nat                      // tokens queued for the opener
    var stats: Counters
    var waiting: map<nat, Waiter>          // the request channels with their waiters' local variables

    ghost predicate FieldsAgree()
      reads this
    {
      && abs.closed == closed && abs.maxOpen == maxOpen && abs.maxIdleCount == maxIdleCount
      && abs.maxLifetime == maxLifetime && abs.maxIdleTime == maxIdleTime
      && abs.numOpen == numOpen && abs.free == freeConn && abs.requests == connRequests
      && abs.nextRequest == nextRequest && abs.dep == dep && abs.tokens == openerCh && abs.stats == stats
      && abs.waiting == waiting
    }

    ghost predicate ConnsAgree()
      reads this`abs, abs.conns.Keys
    {
      forall c :: c in abs.conns ==> Recorded(c, abs.conns[c])
    }

    ghost predicate Agrees()
      reads this, abs.conns.Keys
    {
      FieldsAgree() && ConnsAgree()
    }

    ghost predicate Valid()
      reads this, abs.conns.Keys
    {
      Agrees() && Inv(abs)
    }

    method MaybeOpenNewConnections()
      requires Agrees()
      modifies this`numOpen, this`openerCh, this`abs
      ensures abs == PoolState.MaybeOpenNewConnections(old(abs)) && Agrees()
    {
      ghost var s := abs;
      var numRequests := |connRequests|;
      if maxOpen > 0 {
        var numCanOpen := maxOpen - numOpen;
        if numRequests > numCanOpen {
          numRequests := numCanOpen;
        }
      }
      while numRequests > 0
        invariant Wanted(s) > 0 ==> 0 <= numRequests && numOpen == s.numOpen + Wanted(s) - numRequests
        invariant Wanted(s) <= 0 ==> numRequests == Wanted(s) && numOpen == s.numOpen
        invariant openerCh == s.tokens + numOpen - s.numOpen
        invariant closed ==> numOpen == s.numOpen
      {
        numOpen := numOpen + 1; // optimistically
        numRequests := numRequests - 1;
        if closed {
          abs := PoolState.MaybeOpenNewConnections(s);
          return;
        }
        openerCh := openerCh + 1;
      }
      abs := PoolState.MaybeOpenNewConnections(s);
    }

    /** A connection is in use again, at place p. */
    method PutInUse(dc: DriverConn, ghost p: Place)
      requires Agrees() && dc in abs.conns
      modifies this`abs, dc`inUse
      ensures abs == old(abs).(conns := old(abs).conns[dc := old(abs).conns[dc].(inUse := true, place := p)])
      ensures Agrees()
    {
      dc.inUse := true;
      abs := abs.(conns := abs.conns[dc := abs.conns[dc].(inUse := true, place := p)]);
    }

    /** A connection is out of use and in hand. */
    method TakeOutOfUse(dc: DriverConn, now: int)
      requires Agrees() && dc in abs.conns
      modifies this`abs, dc`inUse, dc`returnedAt
      ensures abs == old(abs).(conns :=
                old(abs).conns[dc := old(abs).conns[dc].(inUse := false, returnedAt := now, place := Closing)])
      ensures Agrees()
    {
      dc.inUse := false;
      dc.returnedAt := now;
      abs := abs.(conns := abs.conns[dc := abs.conns[dc].(inUse := false, returnedAt := now, place := Closing)]);
    }

    /** A connection changes hands; none of its fields does. */
    ghost method Hand(dc: DriverConn, p: Place)
      requires Agrees() && dc in abs.conns
      modifies this`abs
      ensures abs == old(abs).(conns := old(abs).conns[dc := old(abs).conns[dc].(place := p)])
      ensures Agrees()
    {
      abs := abs.(conns := abs.conns[dc := abs.conns[dc].(place := p)]);
    }

    /** Take the key out of the request map and send on its channel. */
    method Answer(reqKey: nat, dc: Option<DriverConn>, err: Option<Err>)
      requires Agrees() && reqKey in waiting && (dc.Some? <==> err.None?) && (dc.Some? ==> dc.value in abs.conns)
      modifies this`abs, this`connRequests, this`waiting, (if dc.Some? then {dc.value} else {})`inUse
      ensures abs == PoolState.Answer(old(abs), dc, err, reqKey) && Agrees()
    {
      if err.None? {
        PutInUse(dc.value, InChan(reqKey));
      }
      connRequests := connRequests - {reqKey}; // remove from pending requests
      waiting := waiting[reqKey := waiting[reqKey].(chan := Sent(dc, err))];
      abs := abs.(requests := connRequests, waiting := waiting);
    }

    /** Several connections change hands at once. */
    ghost method HandAll(cs: set<DriverConn>, p: Place)
      requires Agrees()
      modifies this`abs
      ensures abs == old(abs).(conns := MoveAll(old(abs).conns, cs, p)) && Agrees()
    {
      abs := abs.(conns := MoveAll(abs.conns, cs, p));
    }

    method PutConnDBLocked(dc: Option<DriverConn>, err: Option<Err>) returns (added: bool, ghost pick: nat)
      requires Agrees()
      requires dc.Some? <==> err.None?
      requires dc.Some? ==> dc.value in abs.conns
      requires !closed ==> connRequests <= waiting.Keys
      modifies this, if dc.Some? then {dc.value} else {}
      ensures !old(closed) && old(connRequests) != {} ==> pick in old(connRequests)
      ensures abs == PoolState.PutConnDBLocked(old(abs), dc, err, pick).0
      ensures added == PoolState.PutConnDBLocked(old(abs), dc, err, pick).1
      ensures Agrees()
    {
      pick := 0;
      if connRequests != {} {
        pick :| pick in connRequests;
      }
      if closed {
        return false, pick;
      }
      if maxOpen > 0 && numOpen > maxOpen {
        return false, pick;
      }
      if |connRequests| > 0 {
        var reqKey :| reqKey in connRequests;
        pick := reqKey;
        Answer(reqKey, dc, err);
        return true, pick;
      } else if err.None? && !closed {
        if MaxIdleConns(maxIdleCount) > |freeConn| {
          Hand(dc.value, Idle);
          freeConn := freeConn + [dc.value];
          abs := abs.(free := freeConn);
          return true, pick;
        }
        stats := stats.(maxIdleClosed := stats.maxIdleClosed + 1);
        abs := abs.(stats := stats);
      }
      return false, pick;
    }

    // --- conn ----------------------------------------------------------------------------

    method ConnBegin(ctxDone: bool, strategy: Strategy, now: int) returns (r: Begin)
      requires Valid()
      modifies this, abs.conns.Keys
      ensures |old(freeConn)| > 0 ==> old(freeConn[0]) in old(abs.conns)
      ensures abs == PoolState.ConnBegin(old(abs), ctxDone, strategy, now).0
      ensures r == PoolState.ConnBegin(old(abs), ctxDone, strategy, now).1
      ensures r.DBClosed? <==> old(closed)
      ensures r.ContextDone? <==> !old(closed) && ctxDone
      ensures !old(closed) && !ctxDone && strategy == CachedOrNewConn && old(freeConn) != [] ==>
        var dc := old(freeConn[0]);
        r == if maxLifetime > 0 && dc.createdAt + maxLifetime < now then CachedExpired(dc) else Cached(dc)
      ensures !old(closed) && !ctxDone && !(strategy == CachedOrNewConn && old(freeConn) != []) ==>
        r == if maxOpen > 0 && old(numOpen) >= maxOpen then MustWait(old(nextRequest)) else MustDial
      ensures Valid()
    {
      hide Inv, WithinLimit;
      ConnBeginInv(abs, ctxDone, strategy, now);
      ghost var t := PoolState.ConnBegin(abs, ctxDone, strategy, now).0;
      if closed {
        return DBClosed;
      }
      if ctxDone {
        return ContextDone;
      }
      var lifetime := maxLifetime;
      var numFree := |freeConn|;
      if strategy == CachedOrNewConn && numFree > 0 {
        r := PopIdle(freeConn[0], lifetime, now);
        return;
      }
      if maxOpen > 0 && numOpen >= maxOpen {
        var reqKey := Enqueue(strategy, lifetime);
        return MustWait(reqKey);
      }
      numOpen := numOpen + 1; // optimistically
      abs := t;
      return MustDial;
    }

    /** A caller has dc in its hands, unless it has expired. */
    method Claim(dc: DriverConn, check: bool, lifetime: int, now: int) returns (expired: bool)
      requires Agrees() && dc in abs.conns
      modifies this`abs, this`stats
      ensures abs == PoolState.Claim(old(abs), dc, check, lifetime, now).0
      ensures expired == PoolState.Claim(old(abs), dc, check, lifetime, now).1
      ensures expired <==> check && lifetime > 0 && dc.createdAt + lifetime < now
      ensures Agrees()
    {
      expired := check && Expired(dc.createdAt, lifetime, now);
      if expired {
        stats := CountLifetime(stats, 1);
        abs := abs.(stats := stats);
      }
      Hand(dc, if expired then Closing else Held);
    }

    /** The idle connection at the head is the caller's, unless it has expired. */
    method PopIdle(dc: DriverConn, lifetime: int, now: int) returns (r: Begin)
      requires Agrees() && |freeConn| > 0 && freeConn[0] == dc && dc in abs.conns
      requires lifetime == maxLifetime && !closed
      modifies this`freeConn, this`stats, this`abs, dc`inUse
      ensures abs == PoolState.ConnBegin(old(abs), false, CachedOrNewConn, now).0
      ensures r == PoolState.ConnBegin(old(abs), false, CachedOrNewConn, now).1
      ensures r == if maxLifetime > 0 && dc.createdAt + maxLifetime < now then CachedExpired(dc) else Cached(dc)
      ensures Agrees()
    {
      hide WithinLimit;
      freeConn := freeConn[1..];
      abs := abs.(free := freeConn);
      PutInUse(dc, abs.conns[dc].place);
      var expired := Claim(dc, true, lifetime, now);
      r := if expired then CachedExpired(dc) else Cached(dc);
    }

    method Enqueue(strategy: Strategy, lifetime: int) returns (reqKey: nat)
      requires Agrees() && lifetime == maxLifetime && !closed && maxOpen > 0 && numOpen >= maxOpen
      requires strategy == CachedOrNewConn ==> freeConn == []
      requires |freeConn| > 0 ==> freeConn[0] in abs.conns
      modifies this`connRequests, this`nextRequest, this`waiting, this`stats, this`abs
      ensures abs == PoolState.ConnBegin(old(abs), false, strategy, 0).0
      ensures MustWait(reqKey) == PoolState.ConnBegin(old(abs), false, strategy, 0).1
      ensures Agrees()
    {
      hide WithinLimit;
      abs := PoolState.ConnBegin(abs, false, strategy, 0).0;
      reqKey := nextRequest;
      nextRequest := nextRequest + 1;
      connRequests := connRequests + {reqKey};
      waiting := waiting[reqKey := Waiter(strategy, lifetime, Empty, false)];
      stats := stats.(waitCount := stats.waitCount + 1);
    }

    method DialFailed()
      requires Valid() && abs.dials > 0
      modifies this
      ensures abs == PoolState.DialFailed(old(abs)) && Valid()
    {
      hide Inv, WithinLimit, PoolState.MaybeOpenNewConnections;
      DialFailedInv(abs);
      numOpen := numOpen - 1; // correct for earlier optimism
      abs := abs.(numOpen := numOpen, dials := abs.dials - 1);
      MaybeOpenNewConnections();
    }

    method DialSucceeded(now: int) returns (dc: DriverConn)
      requires Valid() && abs.dials > 0
      modifies this
      ensures fresh(dc) && dc !in old(abs).conns
      ensures abs == PoolState.DialSucceeded(old(abs), dc, now) && Valid()
    {
      hide Inv, WithinLimit;
      dc := new DriverConn(now, true);
      DialSucceededInv(abs, dc, now);
      NewDep(abs, dc);
      AddDepLocked(dc, dc);
      abs := PoolState.DialSucceeded(abs, dc, now);
    }

    /** The waiter's channel is ready. */
    method Receive(key: nat, now: int) returns (r: Received)
      requires Valid() && key in waiting && !waiting[key].cancelled && waiting[key].chan != Empty
      modifies this`waiting, this`abs, this`stats
      ensures PoolState.Receive.requires(old(abs), key, now)
      ensures abs == PoolState.Receive(old(abs), key, now).0
      ensures r == PoolState.Receive(old(abs), key, now).1
      ensures r == GotClosed <==> old(waiting)[key].chan == Shut
      ensures r.GotErr? ==> old(waiting)[key].chan == Sent(None, Some(r.err))
      ensures r.GotConn? || r.GotExpired? ==>
        var w := old(waiting)[key];
        && w.chan == Sent(Some(r.dc), None)
        && At(abs, r.dc, if r.GotExpired? then Closing else Held)
        && (r.GotExpired? <==> w.strategy == CachedOrNewConn && w.lifetime > 0 && r.dc.createdAt + w.lifetime < now)
      ensures Valid()
    {
      hide Inv, WithinLimit, RecordOk;
      ReceiveInv(abs, key, now);
      CallFacts(abs, WaiterReceives(key, now));
      var w := waiting[key];
      waiting := waiting - {key};
      abs := abs.(waiting := waiting);
      if w.chan.Shut? {
        return GotClosed;
      }
      var dc, err := w.chan.conn, w.chan.err;
      if dc.None? {
        return GotErr(err.value);
      }
      var expired := Claim(dc.value, w.strategy == CachedOrNewConn && err.None?, w.lifetime, now);
      return if expired then GotExpired(dc.value) else GotConn(dc.value);
    }

    method CancelBegin(key: nat)
      requires Valid() && key in waiting && !waiting[key].cancelled
      modifies this`connRequests, this`waiting, this`abs
      ensures abs == PoolState.CancelBegin(old(abs), key) && Valid()
    {
      hide Inv, WithinLimit;
      CancelBeginInv(abs, key);
      connRequests := connRequests - {key};
      waiting := waiting[key := waiting[key].(cancelled := true)];
      abs := PoolState.CancelBegin(abs, key);
    }

    method CancelEnd(key: nat) returns (r: Option<DriverConn>)
      requires Valid() && key in waiting && waiting[key].cancelled
      modifies this`waiting, this`abs
      ensures PoolState.CancelEnd.requires(old(abs), key)
      ensures abs == PoolState.CancelEnd(old(abs), key).0
      ensures r == PoolState.CancelEnd(old(abs), key).1
      ensures r.Some? <==> old(waiting)[key].chan.Sent? && old(waiting)[key].chan.conn.Some?
      ensures r.Some? ==> old(waiting)[key].chan.conn == r && At(abs, r.value, Held)
      ensures Valid()
    {
      hide Inv, WithinLimit;
      CallFacts(abs, WaiterDrains(key));
      CancelEndInv(abs, key);
      var ch := waiting[key].chan;
      waiting := waiting - {key};
      abs := abs.(waiting := waiting);
      r := None;
      if ch.Sent? && ch.conn.Some? {
        Hand(ch.conn.value, Held);
        r := ch.conn;
      }
    }

    // --- putConn -------------------------------------------------------------------------

    method PutConn(dc: DriverConn, err: Option<Err>, now: int) returns (r: PutResult, ghost pick: nat)
      requires Valid() && dc in abs.conns && (dc.inUse ==> abs.conns[dc].place == Held)
      modifies this, dc
      ensures PoolState.PutConn.requires(old(abs), dc, err, now, pick)
      ensures abs == PoolState.PutConn(old(abs), dc, err, now, pick).0
      ensures r == PoolState.PutConn(old(abs), dc, err, now, pick).1
      ensures Valid()
      ensures r == NeverOut <==> old(abs).conns[dc].place != Held
      ensures old(abs).conns[dc].place == Held ==>
        && (r == MustClose <==> PoolAnswers.Unwanted(old(abs), old(abs).conns[dc], err, now))
        && (r == MustClose <==> At(abs, dc, Closing))
        && (r == Reused <==> At(abs, dc, Idle) || At(abs, dc, InChan(pick)))
    {
      hide Inv, WithinLimit, OneAnswer, PoolState.MaybeOpenNewConnections, PoolState.PutConnDBLocked;
      ghost var s := abs;
      RequestFacts(s);
      RecordFact(s, dc);
      pick := 0;
      if connRequests != {} {
        pick :| pick in connRequests;
      }
      if !dc.inUse {
        return NeverOut, pick;
      }
      var e := TakeIn(dc, err, now);
      if e == Some(ErrBadConn) {
        MaybeOpenNewConnections();
        PutConnInv(s, dc, err, now, pick);
        PutLands(s, dc, err, now, pick);
        return MustClose, pick;
      }
      var added;
      added, pick := PutConnDBLocked(Some(dc), None);
      PutConnInv(s, dc, err, now, pick);
      PutLands(s, dc, err, now, pick);
      return if added then Reused else MustClose, pick;
    }

    /** The returned connection is out of use; an expired one counts as bad. */
    method TakeIn(dc: DriverConn, err: Option<Err>, now: int) returns (e: Option<Err>)
      requires Agrees() && dc in abs.conns
      modifies this`abs, this`stats, dc`inUse, dc`returnedAt
      ensures abs == PoolState.TakeIn(old(abs), dc, err, now).0
      ensures e == PoolState.TakeIn(old(abs), dc, err, now).1
      ensures Agrees()
    {
      ghost var s := abs;
      e := err;
      if e != Some(ErrBadConn) && Expired(dc.createdAt, maxLifetime, now) {
        stats := CountLifetime(stats, 1);
        e := Some(ErrBadConn);
      }
      assert e == PoolState.TakeIn(s, dc, err, now).1;
      abs := s.(stats := stats);
      TakeOutOfUse(dc, now);
    }

    // --- Close ---------------------------------------------------------------------------

    method AddDepLocked(x: DriverConn, d: DriverConn)
      modifies this`dep
      ensures dep == AddDep(old(dep), x, d)
    {
      dep := AddTo(dep, x, d);
    }

    method RemoveDepLocked(x: DriverConn, d: DriverConn) returns (r: DepResult)
      modifies this`dep
      ensures (dep, r) == RemoveDep(old(dep), x, d)
    {
      dep, r := RemoveFrom(dep, x, d);
    }

    method CloseMark(dc: DriverConn) returns (ok: bool)
      requires Valid() && (At(abs, dc, Held) || At(abs, dc, Closing))
      modifies this`abs, dc`closed
      ensures abs == PoolState.CloseMark(old(abs), dc).0
      ensures ok == PoolState.CloseMark(old(abs), dc).1
      ensures ok && Valid()
    {
      hide Inv, WithinLimit;
      RecordFact(abs, dc);
      CloseMarkInv(abs, dc);
      if dc.closed {
        return false;
      }
      dc.closed := true;
      abs := PoolState.CloseMark(abs, dc).0;
      return true;
    }

    method CloseDep(dc: DriverConn) returns (r: DepResult)
      requires Valid() && At(abs, dc, Marked)
      modifies this`abs, this`dep, dc`dbmuClosed
      ensures abs == PoolState.CloseDep(old(abs), dc).0
      ensures r == PoolState.CloseDep(old(abs), dc).1
      ensures r == RunFinalClose && Valid()
    {
      hide Inv, WithinLimit;
      SelfDepFact(abs, dc);
      CloseDepInv(abs, dc);
      dc.dbmuClosed := true;
      r := RemoveDepLocked(dc, dc);
      abs := PoolState.CloseDep(abs, dc).0;
    }

    method DriverClose(dc: DriverConn)
      requires Valid() && At(abs, dc, Finalizing)
      modifies this`abs, dc`finalClosed
      ensures abs == PoolState.DriverClose(old(abs), dc) && Valid()
    {
      hide Inv, WithinLimit;
      DriverCloseInv(abs, dc);
      dc.finalClosed := true;
      abs := PoolState.DriverClose(abs, dc);
    }

    method FinalCount(dc: DriverConn)
      requires Valid() && At(abs, dc, Finalized)
      modifies this
      ensures abs == PoolState.FinalCount(old(abs), dc) && Valid()
    {
      hide Inv, WithinLimit, PoolState.MaybeOpenNewConnections;
      FinalCountInv(abs, dc);
      numOpen := numOpen - 1;
      abs := abs.(conns := abs.conns - {dc}, numOpen := numOpen);
      MaybeOpenNewConnections();
    }

    // --- opener --------------------------------------------------------------------------

    method OpenerTake()
      requires Valid() && openerCh > 0
      modifies this`openerCh, this`abs
      ensures abs == PoolState.OpenerTake(old(abs)) && Valid()
    {
      hide Inv, WithinLimit;
      OpenerTakeInv(abs);
      openerCh := openerCh - 1;
      abs := PoolState.OpenerTake(abs);
    }

    /** openNewConnection once the driver has answered. */
    method OpenNewConnection(dialled: Result<(), Err>, now: int)
      returns (ghost res: Result<DriverConn, Err>, ghost pick: nat)
      requires Valid() && abs.openerDials > 0
      modifies this
      ensures dialled.Fail? ==> res == Fail(dialled.error)
      ensures dialled.Ok? ==> res.Ok? && res.value !in old(abs).conns
      ensures OpenerDone.requires(old(abs), res, now, pick)
      ensures abs == OpenerDone(old(abs), res, now, pick) && Valid()
    {
      hide Inv, WithinLimit, OneAnswer, OpenerDone;
      if closed {
        var dc := new DriverConn(now, false);
        res := if dialled.Fail? then Fail(dialled.error) else Ok(dc);
        pick := 0;
        DialledTooLate(res, now);
      } else if dialled.Fail? {
        pick := DialledInVain(dialled.error, now);
        res := Fail(dialled.error);
      } else {
        var dc;
        dc, pick := Dialled(now);
        res := Ok(dc);
      }
    }

    /** The pool was closed meanwhile: the driver connection, if any, is closed right away. */
    method DialledTooLate(ghost res: Result<DriverConn, Err>, ghost now: int)
      requires Valid() && abs.openerDials > 0 && closed && (res.Ok? ==> res.value !in abs.conns)
      modifies this`numOpen, this`abs
      ensures abs == OpenerDone(old(abs), res, now, 0) && Valid()
    {
      hide Inv, WithinLimit, OneAnswer, PoolState.PutConnDBLocked, PoolState.MaybeOpenNewConnections;
      OpenerDoneInv(abs, res, now, 0);
      numOpen := numOpen - 1;
      abs := OpenerDone(abs, res, now, 0);
    }

    method DialledInVain(err: Err, now: int) returns (ghost pick: nat)
      requires Valid() && abs.openerDials > 0 && !closed
      modifies this
      ensures OpenerDone.requires(old(abs), Fail(err), now, pick)
      ensures abs == OpenerDone(old(abs), Fail(err), now, pick) && Valid()
    {
      hide Inv, WithinLimit, OneAnswer, PoolState.PutConnDBLocked, PoolState.MaybeOpenNewConnections;
      ghost var s := abs;
      RequestFacts(s);
      numOpen := numOpen - 1;
      abs := s.(openerDials := s.openerDials - 1, numOpen := numOpen);
      var _, k := PutConnDBLocked(None, Some(err));
      pick := k;
      MaybeOpenNewConnections();
      OpenerDoneInv(s, Fail(err), now, pick);
    }

    method Dialled(now: int) returns (dc: DriverConn, ghost pick: nat)
      requires Valid() && abs.openerDials > 0 && !closed
      modifies this
      ensures fresh(dc) && dc !in old(abs).conns
      ensures OpenerDone.requires(old(abs), Ok(dc), now, pick)
      ensures abs == OpenerDone(old(abs), Ok(dc), now, pick) && Valid()
    {
      hide Inv, WithinLimit, OneAnswer, PoolState.PutConnDBLocked, PoolState.MaybeOpenNewConnections, OpenerDone,
        AddDep;
      ghost var s := abs;
      RequestFacts(s);
      dc := Create(now);
      ghost var s1 := abs;
      var added, k := PutConnDBLocked(Some(dc), None);
      pick := k;
      OpenerDoneShape(s, s1, dc, now, pick);
      if added {
        Register(dc, s);
      } else {
        Forget(dc, s);
      }
      OpenerDoneInv(s, Ok(dc), now, pick);
    }

    /** The pool keeps the connection: it depends on itself from now on. */
    method Register(dc: DriverConn, ghost s: State)
      requires Agrees() && Inv(s) && dc !in s.conns && abs.dep == s.dep
      modifies this`dep, this`abs
      ensures abs == old(abs).(dep := s.dep[dc := {dc}])
      ensures Agrees()
    {
      hide Inv, AddDep;
      NewDep(s, dc);
      AddDepLocked(dc, dc);
      abs := abs.(dep := dep);
    }

    method Create(now: int) returns (dc: DriverConn)
      requires Agrees() && abs.openerDials > 0
      modifies this`abs
      ensures fresh(dc) && dc !in old(abs).conns
      ensures abs == old(abs).(openerDials := old(abs).openerDials - 1,
                               conns := old(abs).conns[dc := ConnRec(now, now, false, false, false, false, Closing)])
      ensures Agrees()
      ensures forall c :: c in old(abs).conns ==> Recorded(c, old(abs).conns[c])
    {
      dc := new DriverConn(now, false);
      abs := abs.(openerDials := abs.openerDials - 1,
                  conns := abs.conns[dc := ConnRec(now, now, false, false, false, false, Closing)]);
    }

    /** The pool does not want what the opener dialled. */
    method Forget(dc: DriverConn, ghost s: State)
      requires FieldsAgree()
      requires forall c :: c in s.conns ==> Recorded(c, s.conns[c])
      modifies this`numOpen, this`abs
      ensures abs == old(abs).(conns := s.conns, numOpen := old(abs).numOpen - 1)
      ensures Agrees()
    {
      numOpen := numOpen - 1;
      abs := abs.(conns := s.conns, numOpen := numOpen);
    }

    // --- limits --------------------------------------------------------------------------

    method SetMaxIdleConns(n: int, ghost fromSync: bool) returns (closing: seq<DriverConn>)
      requires Valid() && (fromSync ==> abs.pendingSyncs > 0)
      modifies this`maxIdleCount, this`freeConn, this`stats, this`abs
      ensures abs == PoolState.SetMaxIdleConns(old(abs), n, fromSync).0
      ensures closing == PoolState.SetMaxIdleConns(old(abs), n, fromSync).1
      ensures Valid()
    {
      hide Inv, WithinLimit, MoveAll, Elems;
      SetMaxIdleConnsInv(abs, n, fromSync);
      if n > 0 {
        maxIdleCount := n;
      } else {
        maxIdleCount := -1; // no idle connections
      }
      if maxOpen > 0 && MaxIdleConns(maxIdleCount) > maxOpen {
        maxIdleCount := maxOpen;
      }
      assert maxIdleCount == ClampIdle(maxOpen, n);
      abs := abs.(maxIdleCount := maxIdleCount,
                  pendingSyncs := if fromSync then abs.pendingSyncs - 1 else abs.pendingSyncs);
      var keep := if |freeConn| > MaxIdleConns(maxIdleCount) then MaxIdleConns(maxIdleCount) else |freeConn|;
      closing := Trim(keep);
    }

    /** The tail of the idle list beyond `keep` is set aside for closing. */
    method Trim(keep: nat) returns (closing: seq<DriverConn>)
      requires Agrees() && keep <= |freeConn|
      modifies this`freeConn, this`stats, this`abs
      ensures var s := old(abs);
        abs == s.(free := s.free[..keep], conns := MoveAll(s.conns, Elems(s.free[keep..]), Closing),
                  stats := s.stats.(maxIdleClosed := s.stats.maxIdleClosed + (|s.free| - keep)))
      ensures closing == old(freeConn)[keep..] && Agrees()
    {
      closing := freeConn[keep..];
      freeConn := freeConn[..keep];
      stats := stats.(maxIdleClosed := stats.maxIdleClosed + |closing|);
      abs := abs.(free := freeConn, stats := stats);
      HandAll(Elems(closing), Closing);
    }

    method SetMaxOpenConns(n: int) returns (syncMaxIdle: bool)
      requires Valid()
      modifies this`maxOpen, this`abs
      ensures abs == PoolState.SetMaxOpenConns(old(abs), n).0
      ensures syncMaxIdle == PoolState.SetMaxOpenConns(old(abs), n).1
      ensures Valid()
    {
      hide Inv;
      SetMaxOpenConnsInv(abs, n);
      maxOpen := n;
      if n < 0 {
        maxOpen := 0;
      }
      syncMaxIdle := maxOpen > 0 && MaxIdleConns(maxIdleCount) > maxOpen;
      abs := PoolState.SetMaxOpenConns(abs, n).0;
    }

    method SetConnMaxLifetime(d: int)
      requires Valid()
      modifies this`maxLifetime, this`abs
      ensures abs == PoolState.SetConnMaxLifetime(old(abs), d) && Valid()
    {
      hide Inv, WithinLimit;
      SetTimesInv(abs, d);
      maxLifetime := if d < 0 then 0 else d;
      abs := PoolState.SetConnMaxLifetime(abs, d);
    }

    method SetConnMaxIdleTime(d: int)
      requires Valid()
      modifies this`maxIdleTime, this`abs
      ensures abs == PoolState.SetConnMaxIdleTime(old(abs), d) && Valid()
    {
      hide Inv, WithinLimit;
      SetTimesInv(abs, d);
      maxIdleTime := if d < 0 then 0 else d;
      abs := PoolState.SetConnMaxIdleTime(abs, d);
    }

    // --- cleaner -------------------------------------------------------------------------

    /** One in-place pass: remove every idle connection created (or returned) before `since`. */
    method PurgePass(byAge: bool, since: int, ghost dead: set<DriverConn>) returns (closing: seq<DriverConn>)
      requires forall c :: c in freeConn ==> (c in dead <==> (if byAge then c.createdAt else c.returnedAt) < since)
      modifies this`freeConn
      ensures freeConn == Purge(old(freeConn), 0, dead).0
      ensures closing == Purge(old(freeConn), 0, dead).1
    {
      closing := [];
      var i := 0;
      while i < |freeConn|
        invariant i <= |freeConn|
        invariant forall c :: c in freeConn ==> c in old(freeConn)
        invariant Purge(old(freeConn), 0, dead).0 == Purge(freeConn, i, dead).0
        invariant Purge(old(freeConn), 0, dead).1 == closing + Purge(freeConn, i, dead).1
        decreases |freeConn| - i
      {
        var c := freeConn[i];
        if (if byAge then c.createdAt else c.returnedAt) < since {
          closing := closing + [c];
          var last := |freeConn| - 1;
          freeConn := freeConn[i := freeConn[last]];
          freeConn := freeConn[..last];
        } else {
          i := i + 1;
        }
      }
    }

    method ConnectionCleanerRunLocked(now: int) returns (closing: seq<DriverConn>)
      requires Valid()
      modifies this`freeConn, this`stats, this`abs
      ensures abs == CleanerRun(old(abs), now).0
      ensures closing == CleanerRun(old(abs), now).1
      ensures Valid()
    {
      hide Inv, WithinLimit, MoveAll, Elems, Purge;
      ghost var s := abs;
      FreeFact(s);
      CleanerRunInv(s, now);
      PurgeMembers(s.free, 0, PastLifetime(s, now));
      closing := [];
      if maxLifetime > 0 {
        closing := PurgePass(true, now - maxLifetime, PastLifetime(s, now));
        stats := stats.(maxLifetimeClosed := stats.maxLifetimeClosed + |closing|);
      } else {
        NothingDead(s.free, 0, PastLifetime(s, now));
      }
      if maxIdleTime > 0 {
        var more := PurgePass(false, now - maxIdleTime, PastIdleTime(s, now));
        closing := closing + more;
        stats := stats.(maxIdleTimeClosed := stats.maxIdleTimeClosed + |more|);
      } else {
        NothingDead(Purge(s.free, 0, PastLifetime(s, now)).0, 0, PastIdleTime(s, now));
        assert closing + [] == closing;
      }
      assert closing == Purge(s.free, 0, PastLifetime(s, now)).1
                        + Purge(Purge(s.free, 0, PastLifetime(s, now)).0, 0, PastIdleTime(s, now)).1;
      abs := abs.(free := freeConn, stats := stats);
      HandAll(Elems(closing), Closing);
    }

    // --- DBClose -------------------------------------------------------------------------

    /** closeDBLocked: mark the connection closed and drop its dependency. */
    method CloseDBLocked(dc: DriverConn) returns (r: Option<DepResult>)
      modifies dc`closed, this`dep
      ensures old(dc.closed) ==> r == None && dc.closed && dep == old(dep)
      ensures !old(dc.closed) ==> dc.closed && r == Some(RemoveDep(old(dep), dc, dc).1)
                                  && dep == RemoveDep(old(dep), dc, dc).0
    {
      if dc.closed {
        return None; // duplicate driverConn close
      }
      dc.closed := true;
      var d := RemoveDepLocked(dc, dc);
      return Some(d);
    }

    method DBClose() returns (closing: seq<DriverConn>)
      requires Valid()
      modifies this, freeConn
      ensures abs == PoolState.DBClose(old(abs)).0
      ensures closing == PoolState.DBClose(old(abs)).1
      ensures Valid()
    {
      hide Inv, PoolState.DBClose;
      DBCloseInv(abs);
      if closed {
        ClosedAlready(abs);
        return [];
      }
      FreeFact(abs);
      IdleFacts(abs);
      closing := CloseOpen();
    }

    /** What DBClose does under the mutex when it is the first. */
    method CloseOpen() returns (closing: seq<DriverConn>)
      requires Agrees() && !closed && Distinct(freeConn)
      requires forall c :: c in freeConn ==> c in abs.conns && !abs.conns[c].closed && c in abs.dep && abs.dep[c] == {c}
      modifies this, freeConn
      ensures abs == PoolState.DBClose(old(abs)).0
      ensures closing == PoolState.DBClose(old(abs)).1
      ensures Agrees()
    {
      hide WithinLimit, ShutAll, CloseIdle, Elems;
      CloseAllIdle();
      closing := freeConn;
      freeConn := [];
      closed := true;
      abs := abs.(free := freeConn, closed := closed);
      ShutRequests();
    }

    /** closeDBLocked on one idle connection. */
    method CloseOneIdle(dc: DriverConn)
      requires Agrees() && dc in abs.conns && !dc.closed && dc in dep && dep[dc] == {dc}
      modifies this`dep, this`abs, dc`closed
      ensures abs == old(abs).(conns := old(abs).conns[dc := old(abs).conns[dc].(closed := true, place := Finalizing)],
                               dep := old(abs).dep - {dc})
      ensures Agrees()
    {
      var r := CloseDBLocked(dc);
      abs := abs.(conns := abs.conns[dc := abs.conns[dc].(closed := true, place := Finalizing)], dep := dep);
    }

    /** The loop over the idle list. */
    method CloseAllIdle()
      requires Agrees() && Distinct(freeConn)
      requires forall c :: c in freeConn ==> c in abs.conns && !abs.conns[c].closed && c in abs.dep && abs.dep[c] == {c}
      modifies this`dep, this`abs, freeConn`closed
      ensures abs == old(abs).(conns := CloseIdle(old(abs).conns, Elems(freeConn)),
                               dep := old(abs).dep - Elems(freeConn))
      ensures Agrees()
    {
      hide CloseIdle, Elems;
      ghost var s := abs;
      var i := 0;
      CloseIdleNone(s.conns, s.dep);
      while i < |freeConn|
        invariant i <= |freeConn| && Agrees()
        invariant abs == s.(conns := CloseIdle(s.conns, Elems(freeConn[..i])), dep := s.dep - Elems(freeConn[..i]))
      {
        var dc := freeConn[i];
        CloseIdleOneMore(s.conns, freeConn, i);
        CloseOneIdle(dc);
        i := i + 1;
      }
      assert freeConn[..i] == freeConn;
    }

    /** The loop over the request map: every pending request's channel is closed. */
    method ShutRequests()
      requires Agrees()
      modifies this`waiting, this`abs
      ensures abs == old(abs).(waiting := ShutAll(old(abs).waiting, old(abs).requests)) && Agrees()
    {
      var keys := connRequests;
      while keys != {}
        invariant keys <= connRequests && abs == old(abs)
        invariant waiting == ShutAll(old(waiting), connRequests - keys)
        decreases |keys|
      {
        var k :| k in keys;
        keys := keys - {k};
        if k in waiting {
          waiting := waiting[k := waiting[k].(chan := Shut)];
        }
        assert connRequests - keys == (connRequests - (keys + {k})) + {k};
      }
      assert connRequests - keys == connRequests;
      abs := abs.(waiting := waiting);
    }

    // --- openDB --------------------------------------------------------------------------

    constructor (connectionPool: int)
      ensures Valid() && abs == OpenDB(connectionPool)
    {
      abs := InitState;
      closed, maxOpen, maxIdleCount, maxLifetime, maxIdleTime := false, 0, 0, 0, 0;
      numOpen, freeConn, connRequests, nextRequest, dep, openerCh := 0, [], {}, 0, map[], 0;
      stats, waiting := Counters(0, 0, 0, 0), map[];
      new;
      assert Inv(InitState);
      hide Inv, PoolState.SetMaxOpenConns, PoolState.SetMaxIdleConns;
      var sync := SetMaxOpenConns(connectionPool);
      if sync {
        var none := SetMaxIdleConns(connectionPool, true);
      }
      var none := SetMaxIdleConns(connectionPool, false);
    }
  }
}

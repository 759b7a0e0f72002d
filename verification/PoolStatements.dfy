/**
 The pool and the statement machine side by side: whatever the pool does to a connection is a list
 of steps of that connection's own machine, so the close order proved there holds for connections
 as the pool really takes, puts back, discards and closes them.
 */
module PoolStatements {
  import opened Wrappers
  import opened DriverConns
  import opened Deps
  import opened SwapRemove
  import opened PoolState
  import opened PoolInvariant
  import opened PoolRuns
  import opened PoolTheorems
  import C = StmtCloseState
  import CT = StmtCloseTheorems

  /** Who has a connection, in the statement machine's terms. */
  function OwnerOf(p: Place): C.Owner {
    match p
    case Idle => C.Pool
    case Held => C.Caller
    case InChan(_) => C.Caller
    case Finalized => C.Done
    case _ => C.Marked
  }

  /** The machine's state is the one the pool's record shows; nobody is in the middle of a note. */
  predicate Shows(r: ConnRec, t: C.State) {
    t.holder == C.Nobody && t.inUse == r.inUse && t.owner == OwnerOf(r.place)
  }

  // --- what the pool does to one record --------------------------------------------------

  /** The moves of a record, as pairs of owners and in-use flags. */
  datatype Move = Stays | Take | TakeExpired | Discard | Put | PutDiscard | PutAndTake | Finish

  predicate Moves(m: Move, r: ConnRec, r': ConnRec) {
    var from, to := OwnerOf(r.place), OwnerOf(r'.place);
    match m
    case Stays => from == to && r.inUse == r'.inUse
    case Take => from == C.Pool && to == C.Caller && r'.inUse
    case TakeExpired => from == C.Pool && to == C.Marked && r'.inUse
    case Discard => (from == C.Pool || from == C.Caller) && to == C.Marked && r.inUse == r'.inUse
    case Put => from == C.Caller && to == C.Pool && !r'.inUse
    case PutDiscard => from == C.Caller && to == C.Marked && !r'.inUse
    case PutAndTake => from == C.Caller && to == C.Caller && r'.inUse
    case Finish => from == C.Marked && to == C.Done && r.inUse == r'.inUse
  }

  predicate IsPut(m: Move) {
    m.Put? || m.PutDiscard? || m.PutAndTake?
  }

  lemma MaybeOpenKeeps(s: State)
    ensures MaybeOpenNewConnections(s).conns == s.conns
  {
  }

  /** putConnDBLocked on a connection in hand, as it leaves it. */
  lemma PutConnDBLockedRecord(s: State, dc: DriverConn, pick: nat)
    requires dc in s.conns && !s.conns[dc].inUse && s.conns[dc].place == Closing
    requires !s.closed && s.requests != {} ==> pick in s.requests && pick in s.waiting
    ensures var r := PutConnDBLocked(s, Some(dc), None, pick);
      var rec := r.0.conns[dc];
      && r.0.conns == s.conns[dc := rec]
      && (rec.place == Idle || rec.place == Closing ==> !rec.inUse)
      && (rec.place == InChan(pick) ==> rec.inUse)
      && (rec.place == Idle || rec.place == Closing || rec.place == InChan(pick))
      && (r.1 <==> rec.place != Closing)
  {
    hide WithinLimit, OneAnswer, MaxIdleConns;
    assert s.conns[dc := s.conns[dc]] == s.conns;
  }

  lemma PutConnMoves(s: State, dc: DriverConn, err: Option<Err>, now: int, pick: nat, c: DriverConn) returns (m: Move)
    requires dc in s.conns && s.conns[dc].place == Held && s.conns[dc].inUse && c in s.conns
    requires !s.closed && s.requests != {} ==> pick in s.requests && pick in s.waiting
    ensures Moves(m, s.conns[c], PutConn(s, dc, err, now, pick).0.conns[c])
    ensures dc == c ==> IsPut(m)
  {
    hide WithinLimit, OneAnswer, MaybeOpenNewConnections, PutConnDBLocked, Expired;
    var t := TakeIn(s, dc, err, now);
    MaybeOpenKeeps(t.0);
    PutConnDBLockedRecord(t.0, dc, pick);
    var r := PutConn(s, dc, err, now, pick).0.conns[c];
    m := if c != dc then Stays else if r.place.Idle? then Put else if r.place.InChan? then PutAndTake else PutDiscard;
  }

  lemma ConnBeginMoves(s: State, ctxDone: bool, strategy: Strategy, now: int, c: DriverConn) returns (m: Move)
    requires |s.free| > 0 ==> s.free[0] in s.conns && s.conns[s.free[0]].place == Idle
    requires c in s.conns
    ensures Moves(m, s.conns[c], ConnBegin(s, ctxDone, strategy, now).0.conns[c]) && !IsPut(m)
  {
    hide WithinLimit, Expired;
    var r, r' := s.conns[c], ConnBegin(s, ctxDone, strategy, now).0.conns[c];
    m := if OwnerOf(r.place) == OwnerOf(r'.place) then Stays else if r'.place.Held? then Take else TakeExpired;
  }

  lemma ReceiveMoves(s: State, key: nat, now: int, c: DriverConn) returns (m: Move)
    requires Receive.requires(s, key, now) && c in s.conns
    requires var ch := s.waiting[key].chan; ch.Sent? && ch.conn.Some? ==> s.conns[ch.conn.value].place == InChan(key)
    ensures Moves(m, s.conns[c], Receive(s, key, now).0.conns[c]) && !IsPut(m)
  {
    hide WithinLimit, Expired;
    var r, r' := s.conns[c], Receive(s, key, now).0.conns[c];
    m := if OwnerOf(r.place) == OwnerOf(r'.place) then Stays else Discard;
  }

  lemma CancelEndMoves(s: State, key: nat, c: DriverConn)
    requires CancelEnd.requires(s, key) && c in s.conns
    requires var ch := s.waiting[key].chan; ch.Sent? && ch.conn.Some? ==> s.conns[ch.conn.value].place == InChan(key)
    ensures Moves(Stays, s.conns[c], CancelEnd(s, key).0.conns[c])
  {
  }

  lemma OpenerDoneKeeps(s: State, res: Result<DriverConn, Err>, now: int, pick: nat, c: DriverConn)
    requires OpenerDone.requires(s, res, now, pick) && c in s.conns && (res.Ok? ==> res.value !in s.conns)
    ensures c in OpenerDone(s, res, now, pick).conns && OpenerDone(s, res, now, pick).conns[c] == s.conns[c]
  {
    hide WithinLimit, OneAnswer, MaxIdleConns, Wanted;
  }

  lemma SetMaxIdleConnsMoves(s: State, n: int, fromSync: bool, c: DriverConn) returns (m: Move)
    requires (fromSync ==> s.pendingSyncs > 0) && c in s.conns
    requires forall x :: x in s.free ==> x in s.conns && s.conns[x].place == Idle
    ensures Moves(m, s.conns[c], SetMaxIdleConns(s, n, fromSync).0.conns[c]) && !IsPut(m)
  {
    hide WithinLimit, MaxIdleConns, ClampIdle;
    var r, r' := s.conns[c], SetMaxIdleConns(s, n, fromSync).0.conns[c];
    m := if OwnerOf(r.place) == OwnerOf(r'.place) then Stays else Discard;
  }

  lemma CleanerRunMoves(s: State, now: int, c: DriverConn) returns (m: Move)
    requires c in s.conns && Distinct(s.free)
    requires forall x :: x in s.free ==> x in s.conns && s.conns[x].place == Idle
    ensures Moves(m, s.conns[c], CleanerRun(s, now).0.conns[c]) && !IsPut(m)
  {
    CleanerSplits(s, now);
    var closing := CleanerRun(s, now).1;
    assert c in closing ==> c in multiset(closing) && c in multiset(s.free);
    hide WithinLimit, Purge, PastLifetime, PastIdleTime;
    var r, r' := s.conns[c], CleanerRun(s, now).0.conns[c];
    m := if OwnerOf(r.place) == OwnerOf(r'.place) then Stays else Discard;
  }

  lemma DBCloseMoves(s: State, c: DriverConn) returns (m: Move)
    requires c in s.conns
    requires forall x :: x in s.free ==> x in s.conns && s.conns[x].place == Idle
    ensures Moves(m, s.conns[c], DBClose(s).0.conns[c]) && !IsPut(m)
  {
    hide WithinLimit, ShutAll;
    var r, r' := s.conns[c], DBClose(s).0.conns[c];
    m := if OwnerOf(r.place) == OwnerOf(r'.place) then Stays else Discard;
  }

  lemma CloseMarkMoves(s: State, dc: DriverConn, c: DriverConn) returns (m: Move)
    requires dc in s.conns && (s.conns[dc].place == Held || s.conns[dc].place == Closing) && c in s.conns
    ensures Moves(m, s.conns[c], CloseMark(s, dc).0.conns[c]) && !IsPut(m)
  {
    hide WithinLimit;
    m := if OwnerOf(s.conns[c].place) == OwnerOf(CloseMark(s, dc).0.conns[c].place) then Stays else Discard;
  }

  lemma CloseDepMoves(s: State, dc: DriverConn, c: DriverConn)
    requires dc in s.conns && s.conns[dc].place == Marked && c in s.conns
    ensures Moves(Stays, s.conns[c], CloseDep(s, dc).0.conns[c])
  {
    hide WithinLimit, RemoveDep;
  }

  lemma DriverCloseMoves(s: State, dc: DriverConn, c: DriverConn) returns (m: Move)
    requires dc in s.conns && s.conns[dc].place == Finalizing && c in s.conns
    ensures Moves(m, s.conns[c], DriverClose(s, dc).conns[c]) && !IsPut(m)
  {
    hide WithinLimit;
    m := if c == dc then Finish else Stays;
  }

  lemma FinalCountKeeps(s: State, dc: DriverConn)
    ensures FinalCount(s, dc).conns == s.conns - {dc}
  {
    MaybeOpenKeeps(s.(conns := s.conns - {dc}, numOpen := s.numOpen - 1));
    hide MaybeOpenNewConnections, WithinLimit;
  }

  lemma CloseMoves(s: State, e: Event, c: DriverConn) returns (m: Move)
    requires Inv(s) && Enabled(s, e) && InClose(e) && c in s.conns
    ensures c in StepClose(s, e).conns ==> Moves(m, s.conns[c], StepClose(s, e).conns[c])
    ensures !IsPut(m)
  {
    hide Inv, WithinLimit, CloseMark, CloseDep, DriverClose, FinalCount, Moves;
    Unmoved(s.conns[c]);
    m := Stays;
    if e.MarkClosed? {
      m := CloseMarkMoves(s, e.dc, c);
    } else if e.DropDep? {
      CloseDepMoves(s, e.dc, c);
    } else if e.CloseDriverConn? {
      m := DriverCloseMoves(s, e.dc, c);
    } else {
      FinalCountKeeps(s, e.dc);
    }
  }

  // --- and every step of it ----------------------------------------------------------------

  lemma IdleFact(s: State)
    requires Inv(s)
    ensures Distinct(s.free)
    ensures forall c :: c in s.free ==> c in s.conns && s.conns[c].place == Idle
  {
  }

  lemma ConnMoves(s: State, e: Event, c: DriverConn) returns (m: Move)
    requires Inv(s) && Enabled(s, e) && InConn(e) && c in s.conns
    ensures c in StepConn(s, e).conns && Moves(m, s.conns[c], StepConn(s, e).conns[c]) && !IsPut(m)
  {
    CallFacts(s, e);
    IdleFact(s);
    if (e.WaiterReceives? || e.WaiterDrains?) && s.waiting[e.key].chan.Sent? {
      ChannelFact(s, e.key);
    }
    if e.DialFails? {
      MaybeOpenKeeps(s.(numOpen := s.numOpen - 1, dials := s.dials - 1));
    }
    hide Inv, WithinLimit, ConnBegin, Receive, CancelEnd, MaybeOpenNewConnections, Moves, Distinct;
    Unmoved(s.conns[c]);
    m := Stays;
    if e.ConnEnter? {
      m := ConnBeginMoves(s, e.ctxDone, e.strategy, e.now, c);
    } else if e.WaiterReceives? {
      m := ReceiveMoves(s, e.key, e.now, c);
    } else if e.WaiterDrains? {
      CancelEndMoves(s, e.key, c);
    }
  }

  lemma Unmoved(r: ConnRec)
    ensures Moves(Stays, r, r)
  {
  }

  lemma PutMoves(s: State, e: Event, c: DriverConn) returns (m: Move)
    requires Inv(s) && Enabled(s, e) && InPut(e) && c in s.conns
    ensures c in StepPut(s, e).conns && Moves(m, s.conns[c], StepPut(s, e).conns[c])
    ensures IsPut(m) <==> e.PutBack? && e.dc == c
  {
    CallFacts(s, e);
    RecordFact(s, c);
    if e.PutBack? {
      RecordFact(s, e.dc);
    }
    hide Inv, WithinLimit, OneAnswer, PutConn, OpenerDone, Moves, PickOk;
    Unmoved(s.conns[c]);
    m := Stays;
    if e.PutBack? {
      m := PutOrNot(s, e.dc, e.err, e.now, e.pick, c);
    } else if e.OpenerAnswered? {
      OpenerDoneKeeps(s, e.res, e.now, e.pick, c);
    }
  }

  lemma PutOrNot(s: State, dc: DriverConn, err: Option<Err>, now: int, pick: nat, c: DriverConn) returns (m: Move)
    requires dc in s.conns && s.conns[dc].place == Held && s.conns[dc].inUse && c in s.conns
    requires !s.closed && s.requests != {} ==> pick in s.requests && pick in s.waiting
    ensures Moves(m, s.conns[c], PutConn(s, dc, err, now, pick).0.conns[c])
    ensures IsPut(m) <==> dc == c
  {
    m := PutConnMoves(s, dc, err, now, pick, c);
    if dc != c {
      OthersUnmoved(s, dc, err, now, pick, c);
      Unmoved(s.conns[c]);
      m := Stays;
    }
  }

  lemma OthersUnmoved(s: State, dc: DriverConn, err: Option<Err>, now: int, pick: nat, c: DriverConn)
    requires PutConn.requires(s, dc, err, now, pick) && c in s.conns && c != dc && s.conns[dc].inUse
    ensures PutConn(s, dc, err, now, pick).0.conns[c] == s.conns[c]
  {
    hide WithinLimit, OneAnswer, MaybeOpenNewConnections, PutConnDBLocked, Expired;
    var t := TakeIn(s, dc, err, now);
    MaybeOpenKeeps(t.0);
    PutConnDBLockedRecord(t.0, dc, pick);
  }

  lemma AdminMoves(s: State, e: Event, c: DriverConn) returns (m: Move)
    requires Inv(s) && Enabled(s, e) && !InConn(e) && !InPut(e) && !InClose(e) && c in s.conns
    ensures c in StepAdmin(s, e).conns && Moves(m, s.conns[c], StepAdmin(s, e).conns[c]) && !IsPut(m)
  {
    IdleFact(s);
    hide Inv, WithinLimit, SetMaxIdleConns, CleanerRun, DBClose, Moves, Distinct;
    Unmoved(s.conns[c]);
    m := Stays;
    if e.ChangeMaxIdle? {
      m := SetMaxIdleConnsMoves(s, e.n, e.fromSync, c);
    } else if e.CleanerWakes? {
      m := CleanerRunMoves(s, e.now, c);
    } else if e.CloseDB? {
      m := DBCloseMoves(s, c);
    }
  }

  /** Every step of the pool moves every connection in one of these ways; putting it back puts it. */
  lemma PoolMoves(s: State, e: Event, c: DriverConn) returns (m: Move)
    requires Inv(s) && Enabled(s, e) && c in s.conns
    ensures c in Step(s, e).conns ==> Moves(m, s.conns[c], Step(s, e).conns[c])
    ensures IsPut(m) <==> e.PutBack? && e.dc == c
  {
    hide Inv, Enabled, StepConn, StepPut, StepClose, StepAdmin, Moves;
    if InConn(e) {
      m := ConnMoves(s, e, c);
    } else if InPut(e) {
      m := PutMoves(s, e, c);
    } else if InClose(e) {
      m := CloseMoves(s, e, c);
    } else {
      m := AdminMoves(s, e, c);
    }
  }

  // --- the machine follows -----------------------------------------------------------------

  /** The events by which the pool's owner of a connection moves it; the rest belong to statements. */
  predicate OfOwner(e: C.Event) {
    e.Taken? || e.PutBegins? || e.PutRunsOne? || e.PutEnds? || e.Discarded? || e.CloserCopies?
    || e.CloserClosesOne? || e.CloserClosesConn?
  }

  predicate AllOfOwner(es: seq<C.Event>) {
    forall i :: 0 <= i < |es| ==> OfOwner(es[i])
  }

  lemma NoSteps(t: C.State)
    ensures C.CanRun(t, []) && C.Run(t, []) == t
  {
  }

  /** One more event in front. */
  lemma Front(t: C.State, e: C.Event, rest: seq<C.Event>) returns (es: seq<C.Event>)
    requires C.Enabled(t, e) && C.CanRun(C.Step(t, e), rest) && OfOwner(e) && AllOfOwner(rest)
    ensures C.CanRun(t, es) && C.Run(t, es) == C.Run(C.Step(t, e), rest) && AllOfOwner(es)
    ensures es == [e] + rest
  {
    es := [e] + rest;
    assert es[1..] == rest;
  }

  /** The end of a put: every function on the list runs, then the mutex is released. */
  lemma FinishPut(t: C.State, discard: bool, retake: bool) returns (es: seq<C.Event>)
    requires t.holder == C.Putting && t.owner == C.Caller && !t.inUse && (retake ==> !discard)
    ensures C.CanRun(t, es) && AllOfOwner(es)
    ensures var u := C.Run(t, es);
      && u.holder == C.Nobody
      && u.owner == (if discard then C.Marked else if retake then C.Caller else C.Pool)
      && u.inUse == retake
    decreases |t.onPut|
  {
    hide C.CanRun, C.Run;
    if t.onPut != [] {
      es := FinishPut(C.Step(t, C.PutRunsOne), discard, retake);
      es := Front(t, C.PutRunsOne, es);
    } else {
      var u := C.Step(t, C.PutEnds(discard));
      if retake {
        NoSteps(C.Step(u, C.Taken));
        es := Front(u, C.Taken, []);
      } else {
        NoSteps(u);
        es := [];
      }
      es := Front(t, C.PutEnds(discard), es);
    }
  }

  /** The middle and end of a close: every copied statement, then the connection. */
  lemma FinishClose(t: C.State) returns (es: seq<C.Event>)
    requires t.owner.Closing?
    ensures C.CanRun(t, es) && AllOfOwner(es) && C.PutBegins !in es
    ensures var u := C.Run(t, es); u.owner == C.Done && u.holder == t.holder && u.inUse == t.inUse
    decreases |if t.owner.Closing? then t.owner.todo else {}|
  {
    hide C.CanRun, C.Run;
    if t.owner.todo != {} {
      var ds :| ds in t.owner.todo;
      es := FinishClose(C.Step(t, C.CloserClosesOne(ds)));
      es := Front(t, C.CloserClosesOne(ds), es);
    } else {
      NoSteps(C.Step(t, C.CloserClosesConn));
      es := Front(t, C.CloserClosesConn, []);
    }
  }

  /** A move of the record, step by step. */
  lemma FollowMove(m: Move, r: ConnRec, r': ConnRec, t: C.State) returns (es: seq<C.Event>)
    requires Shows(r, t) && Moves(m, r, r')
    requires r.inUse || !IsPut(m)
    ensures C.CanRun(t, es) && AllOfOwner(es) && Shows(r', C.Run(t, es))
    ensures C.PutBegins in es <==> IsPut(m)
  {
    hide C.CanRun, C.Run;
    match m {
      case Stays =>
        NoSteps(t);
        es := [];
      case Take =>
        NoSteps(C.Step(t, C.Taken));
        es := Front(t, C.Taken, []);
      case TakeExpired =>
        var u := C.Step(t, C.Taken);
        NoSteps(C.Step(u, C.Discarded));
        es := Front(u, C.Discarded, []);
        es := Front(t, C.Taken, es);
      case Discard =>
        NoSteps(C.Step(t, C.Discarded));
        es := Front(t, C.Discarded, []);
      case Finish =>
        es := FinishClose(C.Step(t, C.CloserCopies));
        es := Front(t, C.CloserCopies, es);
      case _ =>
        es := FinishPut(C.Step(t, C.PutBegins), m.PutDiscard?, m.PutAndTake?);
        es := Front(t, C.PutBegins, es);
    }
  }

  predicate Puts(e: Event, c: DriverConn) {
    e.PutBack? && e.dc == c
  }

  /**
   The pool refines the machine of each of its connections: from matching states, whatever step the
   pool makes, the connection's machine can follow with steps of its owner and match again, with a
   put among them exactly if the pool puts the connection back.
   */
  lemma PoolStepIsConnSteps(s: State, e: Event, c: DriverConn, t: C.State) returns (es: seq<C.Event>)
    requires Inv(s) && Enabled(s, e) && c in s.conns && Shows(s.conns[c], t)
    ensures C.CanRun(t, es) && AllOfOwner(es)
    ensures c in Step(s, e).conns ==> Shows(Step(s, e).conns[c], C.Run(t, es))
    ensures C.PutBegins in es <==> Puts(e, c)
  {
    RecordFact(s, c);
    hide Inv, Step, C.CanRun, C.Run, Moves, Shows;
    var m := PoolMoves(s, e, c);
    NoConnectionLost(s, e, c);
    if c in Step(s, e).conns {
      es := FollowMove(m, s.conns[c], Step(s, e).conns[c], t);
    } else {
      NoSteps(t);
      es := [];
    }
  }

  /** A connection begins as its machine begins: with the caller that dialled it. */
  lemma NewConnShows(s: State, dc: DriverConn, now: int)
    requires s.dials > 0
    ensures Shows(DialSucceeded(s, dc, now).conns[dc], C.Dialled(true))
  {
    hide WithinLimit;
  }

  /** Or with the opener, which puts it on the idle list or hands it to a waiter, if it keeps it. */
  lemma OpenedConnShows(s: State, dc: DriverConn, now: int, pick: nat) returns (es: seq<C.Event>)
    requires OpenerDone.requires(s, Ok(dc), now, pick) && dc !in s.conns
    ensures C.CanRun(C.Dialled(false), es) && AllOfOwner(es)
    ensures var t := OpenerDone(s, Ok(dc), now, pick);
      dc in t.conns ==> Shows(t.conns[dc], C.Run(C.Dialled(false), es))
  {
    hide C.CanRun, C.Run, WithinLimit, OneAnswer, PutConnDBLocked;
    var t := C.Dialled(false);
    NoSteps(t);
    es := [];
    if !s.closed {
      var rec := ConnRec(now, now, false, false, false, false, Closing);
      var s1 := s.(openerDials := s.openerDials - 1, conns := s.conns[dc := rec]);
      PutConnDBLockedRecord(s1, dc, pick);
      if PutConnDBLocked(s1, Some(dc), None, pick).0.conns[dc].inUse {
        NoSteps(C.Step(t, C.Taken));
        es := Front(t, C.Taken, []);
      }
    }
  }

  // --- what owners do to statements ----------------------------------------------------------

  /** A closed statement stays closed. */
  lemma {:induction false} ClosedStays(t: C.State, es: seq<C.Event>)
    requires C.CanRun(t, es)
    ensures t.closed <= C.Run(t, es).closed
    decreases |es|
  {
    if es != [] {
      ClosedStays(C.Step(t, es[0]), es[1..]);
    }
  }

  /** A put under way comes to its end only through everything on its list. */
  lemma {:induction false} PutRunsAll(t: C.State, own: seq<C.Event>)
    requires C.CanRun(t, own) && AllOfOwner(own)
    requires t.holder == C.Putting && C.Run(t, own).holder == C.Nobody
    ensures forall ds :: ds in t.onPut ==> ds in C.Run(t, own).closed
    decreases |own|
  {
    if own != [] && t.onPut != [] {
      var t1 := C.Step(t, own[0]);
      assert OfOwner(own[0]) && t1.holder == C.Putting;
      ClosedStays(t1, own[1..]);
      PutRunsAll(t1, own[1..]);
      assert t.onPut == [t.onPut[0]] + t.onPut[1..];
    }
  }

  /** Owner's steps with a put among them close everything that was put off before. */
  lemma {:induction false} PutAmongThem(t: C.State, own: seq<C.Event>)
    requires C.CanRun(t, own) && AllOfOwner(own) && C.PutBegins in own
    requires t.holder == C.Nobody && C.Run(t, own).holder == C.Nobody
    ensures forall ds :: ds in t.onPut ==> ds in C.Run(t, own).closed
    decreases |own|
  {
    var t1 := C.Step(t, own[0]);
    if own[0] == C.PutBegins {
      PutRunsAll(t1, own[1..]);
    } else {
      assert OfOwner(own[0]) && t1.holder == C.Nobody && t1.onPut == t.onPut;
      PutAmongThem(t1, own[1..]);
    }
  }

  // --- whole runs ------------------------------------------------------------------------

  /** What the users of statements do between two steps of the pool, and the owner's part of a step. */
  datatype Round = Round(stmts: seq<C.Event>, own: seq<C.Event>)

  function Flat(rounds: seq<Round>): seq<C.Event> {
    if rounds == [] then [] else rounds[0].stmts + (rounds[0].own + Flat(rounds[1..]))
  }

  /** Steps of statements alone, which leave the pool's mutex free in the end. */
  ghost predicate OfStmtsOnly(t: C.State, es: seq<C.Event>) {
    && C.CanRun(t, es) && C.Run(t, es).holder == C.Nobody
    && (forall i :: 0 <= i < |es| ==> !OfOwner(es[i]))
  }

  /** Any such steps at any time: what the users do may depend on all there is to see. */
  ghost predicate Users(sched: (nat, C.State) -> seq<C.Event>) {
    forall k: nat, t: C.State :: t.holder == C.Nobody ==> OfStmtsOnly(t, sched(k, t))
  }

  ghost predicate RoundRuns(t: C.State, round: Round) {
    C.CanRun(t, round.stmts) && C.CanRun(C.Run(t, round.stmts), round.own)
  }

  ghost function AfterRound(t: C.State, round: Round): C.State
    requires RoundRuns(t, round)
  {
    C.Run(C.Run(t, round.stmts), round.own)
  }

  /** One round: the users' steps, and the owner's part of the pool's step e. */
  ghost predicate OneRound(e: Event, c: DriverConn, t: C.State, round: Round, stmts: seq<C.Event>) {
    && RoundRuns(t, round) && round.stmts == stmts && OfStmtsOnly(t, stmts)
    && AllOfOwner(round.own) && (C.PutBegins in round.own <==> Puts(e, c))
  }

  /**
   Round by round the machine follows the pool: before every step of the pool it shows the pool's
   record of the connection; then the users do what they want, and the owner does its part of that
   step, with a put in it exactly if the step puts the connection back.
   */
  ghost predicate Follows(s: State, es: seq<Event>, c: DriverConn, t: C.State, rounds: seq<Round>,
                          sched: (nat, C.State) -> seq<C.Event>)
    requires Inv(s) && CanRun(s, es)
    decreases |es|
  {
    && c in s.conns && Shows(s.conns[c], t) && |rounds| == |es|
    && (es == [] || (
          && OneRound(es[0], c, t, rounds[0], sched(|es|, t))
          && (StepInv(s, es[0]);
              Follows(Step(s, es[0]), es[1..], c, AfterRound(t, rounds[0]), rounds[1..], sched))))
  }

  /** The rounds are steps of the machine. */
  ghost predicate Runs(t: C.State, rounds: seq<Round>)
    decreases |rounds|
  {
    rounds == [] || (RoundRuns(t, rounds[0]) && Runs(AfterRound(t, rounds[0]), rounds[1..]))
  }

  /** The machine before round i; with i the number of rounds, after all of them. */
  ghost function MachineAt(t: C.State, rounds: seq<Round>, i: nat): C.State
    requires Runs(t, rounds) && i <= |rounds|
    decreases |rounds|
  {
    if i == 0 then t else MachineAt(AfterRound(t, rounds[0]), rounds[1..], i - 1)
  }

  lemma {:induction false} FlatIsRun(t: C.State, rounds: seq<Round>)
    requires Runs(t, rounds)
    ensures C.CanRun(t, Flat(rounds)) && C.Run(t, Flat(rounds)) == MachineAt(t, rounds, |rounds|)
    decreases |rounds|
  {
    if rounds == [] {
      NoSteps(t);
    } else {
      hide C.CanRun, C.Run;
      var u := C.Run(t, rounds[0].stmts);
      FlatIsRun(AfterRound(t, rounds[0]), rounds[1..]);
      CT.RunThen(u, rounds[0].own, Flat(rounds[1..]));
      CT.RunThen(t, rounds[0].stmts, rounds[0].own + Flat(rounds[1..]));
    }
  }

  /** What following a first step means. */
  lemma FollowsFirst(s: State, es: seq<Event>, c: DriverConn, t: C.State, rounds: seq<Round>,
                     sched: (nat, C.State) -> seq<C.Event>)
    requires Inv(s) && CanRun(s, es) && Follows(s, es, c, t, rounds, sched) && es != []
    ensures Enabled(s, es[0]) && Inv(Step(s, es[0])) && CanRun(Step(s, es[0]), es[1..])
    ensures |rounds| == |es| && OneRound(es[0], c, t, rounds[0], sched(|es|, t))
    ensures Follows(Step(s, es[0]), es[1..], c, AfterRound(t, rounds[0]), rounds[1..], sched)
  {
    hide Inv, Enabled, Step, Shows, OneRound, RoundRuns, AfterRound;
    StepInv(s, es[0]);
  }

  lemma FollowsFreely(s: State, es: seq<Event>, c: DriverConn, t: C.State, rounds: seq<Round>,
                      sched: (nat, C.State) -> seq<C.Event>)
    requires Inv(s) && CanRun(s, es) && Follows(s, es, c, t, rounds, sched)
    ensures t.holder == C.Nobody
  {
    hide Inv, Enabled, Step, CanRun;
  }

  /** Following the pool, the machine shows its record in the end as well. */
  lemma {:induction false} FollowsToTheEnd(s: State, es: seq<Event>, c: DriverConn, t: C.State, rounds: seq<Round>,
                                           sched: (nat, C.State) -> seq<C.Event>)
    requires Inv(s) && CanRun(s, es) && Follows(s, es, c, t, rounds, sched)
    ensures Runs(t, rounds) && |rounds| == |es|
    ensures c in Run(s, es).conns && Shows(Run(s, es).conns[c], MachineAt(t, rounds, |rounds|))
    decreases |es|
  {
    if es == [] {
      hide Inv, Enabled, Step, Shows;
    } else {
      hide Inv, Enabled, Step, Shows, CanRun, AfterRound, RoundRuns, Follows;
      FollowsFirst(s, es, c, t, rounds, sched);
      FollowsToTheEnd(Step(s, es[0]), es[1..], c, AfterRound(t, rounds[0]), rounds[1..], sched);
    }
  }

  /** Statements come and go without moving the connection. */
  lemma {:induction false} StmtsKeepOwner(t: C.State, es: seq<C.Event>)
    requires C.CanRun(t, es) && forall i :: 0 <= i < |es| ==> !OfOwner(es[i])
    ensures C.Run(t, es).owner == t.owner && C.Run(t, es).inUse == t.inUse
    decreases |es|
  {
    if es != [] {
      StmtsKeepOwner(C.Step(t, es[0]), es[1..]);
    }
  }

  lemma StmtsKeepShows(r: ConnRec, t: C.State, es: seq<C.Event>)
    requires Shows(r, t) && OfStmtsOnly(t, es)
    ensures Shows(r, C.Run(t, es))
  {
    StmtsKeepOwner(t, es);
    hide C.CanRun, C.Run;
  }

  lemma StmtsRun(t: C.State, es: seq<C.Event>)
    requires OfStmtsOnly(t, es)
    ensures C.CanRun(t, es)
  {
  }

  lemma UsersAct(sched: (nat, C.State) -> seq<C.Event>, k: nat, r: ConnRec, t: C.State)
    requires Users(sched) && Shows(r, t)
    ensures OfStmtsOnly(t, sched(k, t)) && Shows(r, C.Run(t, sched(k, t)))
  {
    hide C.CanRun, C.Run;
    assert OfStmtsOnly(t, sched(k, t));
    StmtsKeepShows(r, t, sched(k, t));
  }

  /**
   Over whole runs: whatever the pool does and whatever the users of its statements do in between,
   the statement machine of each connection can follow, step by step, until its slot is given back.
   */
  lemma {:induction false} PoolRunIsConnRun(s: State, es: seq<Event>, c: DriverConn, t: C.State,
                                            sched: (nat, C.State) -> seq<C.Event>) returns (rounds: seq<Round>)
    requires Inv(s) && CanRun(s, es) && c in s.conns && Shows(s.conns[c], t)
    requires Users(sched) && GiveSlotBack(c) !in es
    ensures Follows(s, es, c, t, rounds, sched)
    decreases |es|
  {
    if es == [] {
      rounds := [];
    } else {
      hide Inv, Enabled, Step, Shows, C.CanRun, C.Run, Users, OfStmtsOnly, AllOfOwner;
      UsersAct(sched, |es|, s.conns[c], t);
      var u := C.Run(t, sched(|es|, t));
      StepInv(s, es[0]);
      NoConnectionLost(s, es[0], c);
      var own := PoolStepIsConnSteps(s, es[0], c, u);
      var first := Round(sched(|es|, t), own);
      StmtsRun(t, first.stmts);
      var rest := PoolRunIsConnRun(Step(s, es[0]), es[1..], c, AfterRound(t, first), sched);
      rounds := [first] + rest;
      assert rounds[1..] == rest;
    }
  }

  /**
   Every put of the run does its work: what was put off until the connection was put back, that time
   or earlier, is closed from then on.
   */
  lemma {:induction false} PutClosesPutOff(s: State, es: seq<Event>, c: DriverConn, t: C.State, rounds: seq<Round>,
                                           sched: (nat, C.State) -> seq<C.Event>, i: nat)
    requires Inv(s) && CanRun(s, es) && Follows(s, es, c, t, rounds, sched)
    requires i < |es| && Puts(es[i], c)
    ensures Runs(t, rounds) && C.CanRun(MachineAt(t, rounds, i), rounds[i].stmts)
    ensures forall ds :: ds in C.Run(MachineAt(t, rounds, i), rounds[i].stmts).onPut ==>
                           ds in MachineAt(t, rounds, |rounds|).closed
    decreases |es|
  {
    hide Inv, Enabled, Step, CanRun, Follows, Shows, C.CanRun, C.Run;
    FollowsToTheEnd(s, es, c, t, rounds, sched);
    FollowsFirst(s, es, c, t, rounds, sched);
    var v := AfterRound(t, rounds[0]);
    if i == 0 {
      FollowsToTheEnd(Step(s, es[0]), es[1..], c, v, rounds[1..], sched);
      FollowsFreely(Step(s, es[0]), es[1..], c, v, rounds[1..], sched);
      PutInRound(es[0], c, t, rounds[0], rounds[1..], sched(|es|, t));
    } else {
      PutClosesPutOff(Step(s, es[0]), es[1..], c, v, rounds[1..], sched, i - 1);
    }
  }

  /** A put in the first round. */
  lemma PutInRound(e: Event, c: DriverConn, t: C.State, first: Round, rest: seq<Round>, stmts: seq<C.Event>)
    requires Puts(e, c) && OneRound(e, c, t, first, stmts) && AfterRound(t, first).holder == C.Nobody
    requires Runs(AfterRound(t, first), rest)
    ensures forall ds :: ds in C.Run(t, stmts).onPut ==> ds in MachineAt(AfterRound(t, first), rest, |rest|).closed
  {
    hide C.CanRun, C.Run;
    PutAmongThem(C.Run(t, stmts), first.own);
    FlatIsRun(AfterRound(t, first), rest);
    ClosedStays(AfterRound(t, first), Flat(rest));
  }

  /**
   The close order in the pool: from when a caller holds the connection and nothing is prepared on it
   yet, whatever the pool and the users do, the machine that follows is asked at most once to close
   each statement and the connection, and for nothing after the connection; the connection's close
   has been asked for exactly if the pool's record says so; and if the record also says that it was
   not in use, every statement is closed.
   */
  lemma CloseOrderInPool(s: State, es: seq<Event>, c: DriverConn, rounds: seq<Round>,
                         sched: (nat, C.State) -> seq<C.Event>)
    requires Inv(s) && CanRun(s, es) && At(s, c, Held)
    requires Follows(s, es, c, C.Dialled(true), rounds, sched)
    ensures Runs(C.Dialled(true), rounds) && c in Run(s, es).conns
    ensures var end, r := MachineAt(C.Dialled(true), rounds, |rounds|), Run(s, es).conns[c];
      && (forall i, j :: 0 <= i < j < |end.log| ==> end.log[i] != end.log[j])
      && (forall i :: 0 <= i < |end.log| - 1 ==> end.log[i] != C.ConnClose)
      && (C.ConnClose in end.log <==> r.finalClosed)
      && (r.finalClosed && !r.inUse ==> CT.AllClosed(end))
  {
    hide Inv, CanRun, Run, Follows, C.CanRun, C.Run, C.Dialled, Runs, MachineAt, CT.AllClosed;
    RunInv(s, es);
    FollowsToTheEnd(s, es, c, C.Dialled(true), rounds, sched);
    FlatIsRun(C.Dialled(true), rounds);
    CT.CloseOrder(true, Flat(rounds));
    CT.DialledInv(true);
    CT.RunInv(C.Dialled(true), Flat(rounds));
    RecordFact(Run(s, es), c);
    DoneShows(Run(s, es).conns[c], MachineAt(C.Dialled(true), rounds, |rounds|));
    if Run(s, es).conns[c].finalClosed && !Run(s, es).conns[c].inUse {
      CT.ClosedUnusedClosesAll(true, Flat(rounds));
    }
  }

  /** The record says that the driver connection is closed exactly if the machine has closed it. */
  lemma DoneShows(r: ConnRec, t: C.State)
    requires RecordOk(r) && Shows(r, t) && CT.Inv(t)
    ensures r.finalClosed <==> t.finalClosed
    ensures t.finalClosed <==> C.ConnClose in t.log
    ensures t.inUse == r.inUse
  {
  }

  /** A held connection with nothing prepared on it is where its machine starts. */
  lemma HeldShows(r: ConnRec)
    requires r.place == Held && r.inUse
    ensures Shows(r, C.Dialled(true))
  {
  }
}

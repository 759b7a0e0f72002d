/**
 The slots a closed pool loses. DBClose closes the request channels but leaves their keys in the
 map, and every later call of maybeOpenNewConnections that sees a key and room under the limit
 takes a slot and returns before it sends a token for it.
 */
module PoolLeak {
  import opened Wrappers
  import opened DriverConns
  import opened Deps
  import opened SwapRemove
  import opened PoolState
  import opened PoolInvariant
  import opened PoolRuns
  import opened PoolTheorems

  /** A key is in the map, and the limit leaves room beside numOpen others. */
  predicate Room(s: State, numOpen: int) {
    s.requests != {} && (s.maxOpen <= 0 || numOpen < s.maxOpen)
  }

  /** putConn will not reuse the connection whatever the pool wants. */
  predicate Discards(s: State, dc: DriverConn, err: Option<Err>, now: int)
    requires dc in s.conns
  {
    err == Some(ErrBadConn) || Expired(s.conns[dc].createdAt, s.maxLifetime, now)
  }

  /** The steps of a closed pool that lose a slot: a slot given back, a dial failed, a put that discards. */
  predicate Leaks(s: State, e: Event) {
    s.closed &&
    match e
    case GiveSlotBack(_) => Room(s, s.numOpen - 1)
    case DialFails => Room(s, s.numOpen - 1)
    case PutBack(dc, err, now, _) => dc in s.conns && Discards(s, dc, err, now) && Room(s, s.numOpen)
    case _ => false
  }

  function LeakOf(s: State, e: Event): nat {
    if Leaks(s, e) then 1 else 0
  }

  lemma MaybeOpenLeak(s: State)
    ensures MaybeOpenNewConnections(s).leaked == s.leaked + (if s.closed && Room(s, s.numOpen) then 1 else 0)
    ensures MaybeOpenNewConnections(s).closed == s.closed
  {
  }

  lemma PutConnLeak(s: State, dc: DriverConn, err: Option<Err>, now: int, pick: nat)
    requires PutConn.requires(s, dc, err, now, pick) && s.conns[dc].inUse
    ensures PutConn(s, dc, err, now, pick).0.leaked
              == s.leaked + (if s.closed && Discards(s, dc, err, now) && Room(s, s.numOpen) then 1 else 0)
  {
    MaybeOpenLeak(TakeIn(s, dc, err, now).0);
    hide MaybeOpenNewConnections, WithinLimit, OneAnswer;
  }

  lemma PutLeak(s: State, e: Event)
    requires Inv(s) && Enabled(s, e) && InPut(e)
    ensures StepPut(s, e).leaked == s.leaked + LeakOf(s, e)
  {
    CallFacts(s, e);
    if e.PutBack? {
      RecordFact(s, e.dc);
      PutConnLeak(s, e.dc, e.err, e.now, e.pick);
    }
    if e.OpenerAnswered? && !s.closed {
      OpenerDoneLeak(s, e.res, e.now, e.pick);
    }
    hide Inv, PutConn, WithinLimit, OneAnswer, MaybeOpenNewConnections, PutConnDBLocked, Room, Discards, Expired;
  }

  /** The opener calls it on an open pool only. */
  lemma OpenerDoneLeak(s: State, res: Result<DriverConn, Err>, now: int, pick: nat)
    requires OpenerDone.requires(s, res, now, pick) && !s.closed
    ensures OpenerDone(s, res, now, pick).leaked == s.leaked
  {
    hide WithinLimit, OneAnswer, MaxIdleConns;
  }

  lemma ConnLeak(s: State, e: Event)
    requires Inv(s) && Enabled(s, e) && InConn(e)
    ensures StepConn(s, e).leaked == s.leaked + LeakOf(s, e)
  {
    CallFacts(s, e);
    if e.DialFails? {
      MaybeOpenLeak(s.(numOpen := s.numOpen - 1, dials := s.dials - 1));
    }
    hide Inv, WithinLimit, MaybeOpenNewConnections, Expired;
  }

  lemma CloseLeak(s: State, e: Event)
    requires Inv(s) && Enabled(s, e) && InClose(e)
    ensures StepClose(s, e).leaked == s.leaked + LeakOf(s, e)
  {
    if e.GiveSlotBack? {
      MaybeOpenLeak(s.(conns := s.conns - {e.dc}, numOpen := s.numOpen - 1));
    }
    hide Inv, WithinLimit, MaybeOpenNewConnections, RemoveDep;
  }

  lemma AdminLeak(s: State, e: Event)
    requires Inv(s) && Enabled(s, e) && !InConn(e) && !InPut(e) && !InClose(e)
    ensures StepAdmin(s, e).leaked == s.leaked + LeakOf(s, e)
  {
    hide Inv, WithinLimit, Purge, MoveAll, CloseIdle, ShutAll, MaxIdleConns, ClampIdle;
  }

  /** A step loses a slot if and only if it is one of those, and then exactly one. */
  lemma StepLeaksIff(s: State, e: Event)
    requires Inv(s) && Enabled(s, e)
    ensures Step(s, e).leaked == s.leaked + LeakOf(s, e)
  {
    hide Inv, Enabled, StepConn, StepPut, StepClose, StepAdmin, LeakOf;
    if InConn(e) {
      ConnLeak(s, e);
    } else if InPut(e) {
      PutLeak(s, e);
    } else if InClose(e) {
      CloseLeak(s, e);
    } else {
      AdminLeak(s, e);
    }
  }

  /** How many steps of a run lose a slot. */
  ghost function LeakCount(s: State, es: seq<Event>): nat
    requires Inv(s) && CanRun(s, es)
    decreases |es|
  {
    if es == [] then 0
    else
      StepInv(s, es[0]);
      LeakOf(s, es[0]) + LeakCount(Step(s, es[0]), es[1..])
  }

  /** Over any run the lost slots are exactly those steps: none are found again, none lost otherwise. */
  lemma {:induction false} RunLeaksIff(s: State, es: seq<Event>)
    requires Inv(s) && CanRun(s, es)
    ensures Run(s, es).leaked == s.leaked + LeakCount(s, es)
    decreases |es|
  {
    if es != [] {
      hide Inv, Enabled, Step, LeakOf;
      StepInv(s, es[0]);
      StepLeaksIff(s, es[0]);
      RunLeaksIff(Step(s, es[0]), es[1..]);
    }
  }

  // --- it happens --------------------------------------------------------------------------

  /** A closed pool of size one with a key left in the map and its only connection in hand. */
  ghost predicate ClosedAndWanted(s: State, c: DriverConn, p: Place) {
    && Inv(s) && s.closed && s.maxOpen == 1 && s.numOpen == 1 && s.requests != {} && s.leaked == 0
    && At(s, c, p)
  }

  /** The four parts of Close; the last one gives the slot back, and loses it at once. */
  lemma CloseLosesSlot(s: State, c: DriverConn) returns (es: seq<Event>, end: State)
    requires ClosedAndWanted(s, c, Closing)
    ensures CanRun(s, es) && Run(s, es) == end && end.leaked == 1
  {
    hide Inv, CanRun, Run, Step, Room;
    MarkKeeps(s, c);
    var s1 := Step(s, MarkClosed(c));
    DropKeeps(s1, c);
    var s2 := Step(s1, DropDep(c));
    DriverCloseKeeps(s2, c);
    var s3 := Step(s2, CloseDriverConn(c));
    LastRoom(s3);
    StepInv(s3, GiveSlotBack(c));
    StepLeaksIff(s3, GiveSlotBack(c));
    end := Step(s3, GiveSlotBack(c));
    RunNone(end);
    es := Front(s3, GiveSlotBack(c), [], end);
    es := Front(s2, CloseDriverConn(c), es, end);
    es := Front(s1, DropDep(c), es, end);
    es := Front(s, MarkClosed(c), es, end);
  }

  lemma MarkKeeps(s: State, c: DriverConn)
    requires ClosedAndWanted(s, c, Closing)
    ensures ClosedAndWanted(Step(s, MarkClosed(c)), c, Marked)
  {
    StepInv(s, MarkClosed(c));
    RecordFact(s, c);
    hide Inv, StepConn, StepPut, StepAdmin, WithinLimit;
  }

  lemma DropKeeps(s: State, c: DriverConn)
    requires ClosedAndWanted(s, c, Marked)
    ensures ClosedAndWanted(Step(s, DropDep(c)), c, Finalizing)
  {
    StepInv(s, DropDep(c));
    hide Inv, StepConn, StepPut, StepAdmin, WithinLimit, RemoveDep;
  }

  lemma DriverCloseKeeps(s: State, c: DriverConn)
    requires ClosedAndWanted(s, c, Finalizing)
    ensures ClosedAndWanted(Step(s, CloseDriverConn(c)), c, Finalized)
  {
    StepInv(s, CloseDriverConn(c));
    hide Inv, StepConn, StepPut, StepAdmin, WithinLimit;
  }

  lemma LastRoom(s: State)
    requires s.maxOpen == 1 && s.numOpen == 1 && s.requests != {}
    ensures Room(s, s.numOpen - 1)
  {
  }

  /** The caller that dialled puts the connection back after DBClose. */
  lemma PutAfterClose(s: State, c: DriverConn)
    requires ClosedAndWanted(s, c, Held)
    ensures Enabled(s, PutBack(c, None, 0, 0)) && ClosedAndWanted(Step(s, PutBack(c, None, 0, 0)), c, Closing)
  {
    var e := PutBack(c, None, 0, 0);
    hide Inv, Enabled, StepConn, StepClose, StepAdmin, PutConn, WithinLimit, OneAnswer, Room;
    RecordFact(s, c);
    AnyPick(s, c);
    StepInv(s, e);
    CallFacts(s, e);
    NoRoom(s);
    StepLeaksIff(s, e);
    PutToClosed(s, c);
  }

  lemma AnyPick(s: State, c: DriverConn)
    requires s.closed && At(s, c, Held)
    ensures Enabled(s, PutBack(c, None, 0, 0))
  {
  }

  lemma NoRoom(s: State)
    requires s.maxOpen == 1 && s.numOpen == 1
    ensures !Room(s, s.numOpen)
  {
  }

  lemma PutToClosed(s: State, c: DriverConn)
    requires s.closed && s.maxOpen == 1 && s.numOpen == 1 && c in s.conns && s.conns[c].inUse
    requires PutConn.requires(s, c, None, 0, 0)
    ensures var t := PutConn(s, c, None, 0, 0).0;
      && t.closed && t.maxOpen == 1 && t.numOpen == 1 && t.requests == s.requests
      && c in t.conns && t.conns[c].place == Closing
  {
    hide WithinLimit, OneAnswer, Expired;
  }

  lemma CloseWhileWanted(s: State, c: DriverConn)
    requires Inv(s) && !s.closed && s.maxOpen == 1 && s.numOpen == 1 && s.requests != {} && At(s, c, Held)
    ensures ClosedAndWanted(Step(s, CloseDB), c, Held)
  {
    StepInv(s, CloseDB);
    OpenLeaksNone(s);
    HeldNotIdle(s, c);
    hide Inv, StepConn, StepPut, StepClose, WithinLimit, ShutAll;
  }

  lemma OpenLeaksNone(s: State)
    requires Inv(s) && !s.closed
    ensures s.leaked == 0
  {
  }

  lemma HeldNotIdle(s: State, c: DriverConn)
    requires Inv(s) && At(s, c, Held)
    ensures c !in s.free
  {
  }

  /** A second caller queues while the connection is held. */
  lemma AskWhileHeld(s: State, c: DriverConn)
    requires Lone(s, 1) && At(s, c, Held)
    ensures var s' := Step(s, ConnEnter(false, CachedOrNewConn, 0));
      Inv(s') && !s'.closed && s'.maxOpen == 1 && s'.numOpen == 1 && s'.requests != {} && At(s', c, Held)
  {
    StepInv(s, ConnEnter(false, CachedOrNewConn, 0));
    AskWaits(s);
    hide Inv, StepPut, StepClose, StepAdmin, WithinLimit;
  }

  lemma DialIsHeld(s: State, c: DriverConn)
    requires Lone(s, 1) && s.dials == 1 && s.conns == map[]
    ensures Enabled(s, DialSucceeds(c, 0)) && At(Step(s, DialSucceeds(c, 0)), c, Held)
  {
    hide Inv, StepPut, StepClose, StepAdmin, WithinLimit;
  }

  lemma AskEnabled(s: State, strategy: Strategy)
    ensures Enabled(s, ConnEnter(false, strategy, 0)) && Enabled(s, CloseDB)
  {
  }

  /**
   A pool of size one: a caller holds the connection, another one waits, the pool is closed, the
   connection is put back and closed. Its slot is lost.
   */
  lemma ClosedPoolLeaks(c: DriverConn) returns (es: seq<Event>)
    ensures Schedule(1, es) && After(1, es).leaked == 1
  {
    OpenDBInv(1);
    hide Inv, CanRun, Run, Step, OpenDB, Enabled;
    var s0 := OpenDB(1);
    var ask := ConnEnter(false, CachedOrNewConn, 0);
    AskDials(s0);
    AskEnabled(s0, CachedOrNewConn);
    var s1 := Step(s0, ask);
    DialHolds(s1, c);
    DialIsHeld(s1, c);
    var s2 := Step(s1, DialSucceeds(c, 0));
    AskEnabled(s2, CachedOrNewConn);
    AskWhileHeld(s2, c);
    var s3 := Step(s2, ask);
    AskEnabled(s3, CachedOrNewConn);
    CloseWhileWanted(s3, c);
    var s4 := Step(s3, CloseDB);
    PutAfterClose(s4, c);
    var end;
    es, end := CloseLosesSlot(Step(s4, PutBack(c, None, 0, 0)), c);
    es := Front(s4, PutBack(c, None, 0, 0), es, end);
    es := Front(s3, CloseDB, es, end);
    es := Front(s2, ask, es, end);
    es := Front(s1, DialSucceeds(c, 0), es, end);
    es := Front(s0, ask, es, end);
  }
}

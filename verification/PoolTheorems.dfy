/** What the pool promises, for every run. */
module PoolTheorems {
  import opened Wrappers
  import opened DriverConns
  import opened Deps
  import opened SwapRemove
  import opened PoolState
  import opened PoolInvariant
  import opened PoolRuns
  import PoolAnswers

  // --- the open limit --------------------------------------------------------------------

  /**
   No step takes the count above the limit, or further above it: with the limit lowered under a
   busy pool, the surplus can only shrink.
   */
  lemma OpenLimitStep(s: State, e: Event)
    requires Inv(s) && Enabled(s, e)
    ensures var s' := Step(s, e);
      s'.maxOpen > 0 ==> s'.numOpen <= s.numOpen || s'.numOpen <= s'.maxOpen
    ensures !e.ChangeMaxOpen? ==> Step(s, e).maxOpen == s.maxOpen
  {
    hide Inv, MaybeOpenNewConnections, PutConnDBLocked, ConnBegin, DialFailed, DialSucceeded, Receive, CancelBegin,
      CancelEnd, PutConn, CloseMark, CloseDep, DriverClose, FinalCount, OpenerTake, OpenerDone, SetMaxIdleConns,
      SetConnMaxLifetime, SetConnMaxIdleTime, CleanerRun, DBClose;
  }

  /** The limits stay as openDB set them. */
  predicate FixedLimit(es: seq<Event>) {
    forall i :: 0 <= i < |es| ==> !es[i].ChangeMaxOpen?
  }

  lemma {:induction false} OpenLimitRun(s: State, es: seq<Event>)
    requires Inv(s) && CanRun(s, es) && FixedLimit(es)
    requires s.maxOpen > 0 ==> s.numOpen <= s.maxOpen
    ensures var s' := Run(s, es);
      s'.maxOpen == s.maxOpen && (s.maxOpen > 0 ==> s'.numOpen <= s.maxOpen)
    decreases |es|
  {
    if es != [] {
      assert !es[0].ChangeMaxOpen?;
      OpenLimitStep(s, es[0]);
      StepInv(s, es[0]);
      OpenLimitRun(Step(s, es[0]), es[1..]);
    }
  }

  /**
   In every run of a pool opened with a positive size: the established connections, the dials
   under way and the queued tokens together stay within it, so the token queue never fills and
   the send in maybeOpenNewConnections never blocks if the size fits the queue.
   */
  lemma OpenLimit(connectionPool: int, es: seq<Event>)
    requires connectionPool > 0 && Schedule(connectionPool, es) && FixedLimit(es)
    ensures var s := After(connectionPool, es);
      && |s.conns| + s.dials + s.openerDials + s.tokens <= connectionPool
      && (connectionPool <= CONNECTION_REQUEST_QUEUE_SIZE ==> s.tokens <= CONNECTION_REQUEST_QUEUE_SIZE)
  {
    OpenDBInv(connectionPool);
    OpenLimitRun(OpenDB(connectionPool), es);
    RunInv(OpenDB(connectionPool), es);
    hide OwnershipOk, WaitersOk, RequestsOk, CachedWaitersSeeNone, LimitsOk, OpenDB, Run, CanRun;
  }

  // --- no stranded waiter ----------------------------------------------------------------

  /** Either the limit is used up, or enough openings are under way for all who wait. */
  ghost predicate NoStranded(s: State) {
    || s.closed
    || s.requests == {}
    || (s.maxOpen > 0 && s.numOpen >= s.maxOpen)
    || s.tokens + s.openerDials >= |s.requests|
  }

  /** Whatever the state was, maybeOpenNewConnections leaves nobody stranded. */
  lemma MaybeOpenServes(s: State)
    ensures NoStranded(MaybeOpenNewConnections(s))
  {
  }

  lemma ConnEnterServes(s: State, e: Event)
    requires Inv(s) && Enabled(s, e) && NoStranded(s) && e.ConnEnter?
    ensures NoStranded(Step(s, e))
  {
    hide Inv, StepPut, StepClose, StepAdmin;
  }

  lemma CancelServes(s: State, e: Event)
    requires Inv(s) && Enabled(s, e) && NoStranded(s) && e.WaiterCancels?
    ensures NoStranded(Step(s, e))
  {
    SubsetSize(s.requests - {e.key}, s.requests);
    hide Inv, StepPut, StepClose, StepAdmin;
  }

  lemma {:induction false} SubsetSize(a: set<nat>, b: set<nat>)
    requires a <= b
    ensures |a| <= |b|
    decreases |a|
  {
    if a != {} {
      var x :| x in a;
      SubsetSize(a - {x}, b - {x});
    }
  }

  lemma PutBackServes(s: State, e: Event)
    requires Inv(s) && Enabled(s, e) && NoStranded(s) && e.PutBack?
    ensures NoStranded(Step(s, e))
  {
    hide Inv, StepConn, StepClose, StepAdmin, OneAnswer;
    if s.conns[e.dc].inUse {
      MaybeOpenServes(TakeIn(s, e.dc, e.err, e.now).0);
    }
  }

  lemma OpenerFailedServes(s: State, e: Event)
    requires Inv(s) && Enabled(s, e) && NoStranded(s) && e.OpenerAnswered? && (s.closed || e.res.Fail?)
    ensures NoStranded(Step(s, e))
  {
    CallFacts(s, e);
    hide Inv, StepConn, StepClose, StepAdmin, PutConn, OneAnswer, WithinLimit, PutConnDBLocked, MaybeOpenNewConnections;
    if !s.closed {
      MaybeOpenServes(PutConnDBLocked(s.(openerDials := s.openerDials - 1, numOpen := s.numOpen - 1),
                                      None, Some(e.res.error), e.pick).0);
    }
  }

  /**
   The opener's connection: a served request needs one opening less; a connection that is not
   wanted is only thrown away above the limit, where the limit stays used up.
   */
  lemma OpenerOpenedServes(s: State, e: Event)
    requires Inv(s) && Enabled(s, e) && NoStranded(s) && e.OpenerAnswered? && e.res.Ok? && !s.closed
    ensures NoStranded(Step(s, e))
  {
    CallFacts(s, e);
    hide Inv, StepConn, StepClose, StepAdmin, PutConn, OneAnswer, WithinLimit, MaybeOpenNewConnections;
  }

  /** Giving a slot or a failed dial back ends in maybeOpenNewConnections. */
  lemma GiveBackServes(s: State, e: Event)
    requires Inv(s) && Enabled(s, e) && (e.GiveSlotBack? || e.DialFails?)
    ensures NoStranded(Step(s, e))
  {
    hide Inv, StepPut, StepAdmin, MaybeOpenNewConnections;
    if e.GiveSlotBack? {
      MaybeOpenServes(s.(conns := s.conns - {e.dc}, numOpen := s.numOpen - 1));
    } else {
      MaybeOpenServes(s.(numOpen := s.numOpen - 1, dials := s.dials - 1));
    }
  }

  lemma ShrinkServes(s: State, e: Event)
    requires Inv(s) && Enabled(s, e) && NoStranded(s)
    requires e.CloseDB? || (e.ChangeMaxOpen? && 0 < e.n <= s.maxOpen)
    ensures NoStranded(Step(s, e))
  {
    hide Inv, CloseIdle, ShutAll, StepConn, StepPut, StepClose;
  }

  ghost predicate SameDemand(s: State, s': State) {
    && s'.closed == s.closed && s'.maxOpen == s.maxOpen && s'.numOpen == s.numOpen && s'.requests == s.requests
    && s'.tokens + s'.openerDials == s.tokens + s.openerDials
  }

  /** Events that neither ask for, give up nor open a connection. */
  predicate Passing(e: Event) {
    || e.DialSucceeds? || e.WaiterReceives? || e.WaiterDrains? || e.MarkClosed? || e.DropDep? || e.CloseDriverConn?
    || e.OpenerTakesToken?
  }

  lemma PassingConn(s: State, e: Event)
    requires Inv(s) && Enabled(s, e) && Passing(e) && InConn(e)
    ensures SameDemand(s, Step(s, e))
  {
    hide Inv, StepPut, StepClose, StepAdmin, ConnBegin, DialFailed, CancelBegin;
  }

  lemma PassingOther(s: State, e: Event)
    requires Inv(s) && Enabled(s, e) && Passing(e) && !InConn(e)
    ensures SameDemand(s, Step(s, e))
  {
    hide Inv, StepConn, StepAdmin, PutConn, OpenerDone, FinalCount;
  }

  /** Events that only trim the idle list or change its limits. */
  predicate Trimming(e: Event) {
    e.ChangeMaxIdle? || e.ChangeLifetime? || e.ChangeIdleTime? || e.CleanerWakes?
  }

  lemma TrimmingStep(s: State, e: Event)
    requires Inv(s) && Enabled(s, e) && Trimming(e)
    ensures SameDemand(s, Step(s, e)) && Untouched(s, Step(s, e))
  {
    hide Inv, StepConn, StepPut, StepClose, MaxIdle, MoveAll, Purge;
  }

  /** The waiters and the request keys are as they were. */
  ghost predicate Untouched(s: State, s': State) {
    s'.waiting == s.waiting && s'.nextRequest == s.nextRequest
  }

  lemma NoStrandedStep(s: State, e: Event)
    requires Inv(s) && Enabled(s, e) && NoStranded(s)
    requires e.ChangeMaxOpen? ==> 0 < e.n <= s.maxOpen
    ensures NoStranded(Step(s, e))
  {
    hide Step, Enabled, Inv;
    match e {
      case ConnEnter(_, _, _) => ConnEnterServes(s, e);
      case WaiterCancels(_) => CancelServes(s, e);
      case PutBack(_, _, _, _) => PutBackServes(s, e);
      case OpenerAnswered(_, _, _) =>
        if s.closed || e.res.Fail? {
          OpenerFailedServes(s, e);
        } else {
          OpenerOpenedServes(s, e);
        }
      case GiveSlotBack(_) => GiveBackServes(s, e);
      case DialFails => GiveBackServes(s, e);
      case ChangeMaxOpen(_) => ShrinkServes(s, e);
      case CloseDB => ShrinkServes(s, e);
      case _ =>
        if Trimming(e) {
          TrimmingStep(s, e);
        } else if InConn(e) {
          PassingConn(s, e);
        } else {
          PassingOther(s, e);
        }
    }
  }

  /** No schedule strands a waiter, as long as nobody raises the open limit. */
  lemma {:induction false} NoStrandedRun(s: State, es: seq<Event>)
    requires Inv(s) && CanRun(s, es) && FixedLimit(es) && NoStranded(s)
    ensures NoStranded(Run(s, es))
    decreases |es|
  {
    if es != [] {
      assert !es[0].ChangeMaxOpen?;
      StepInv(s, es[0]);
      NoStrandedStep(s, es[0]);
      NoStrandedRun(Step(s, es[0]), es[1..]);
    }
  }

  /** From openDB on, with the limit left alone, nobody is ever stranded. */
  lemma NoStrandedWaiter(connectionPool: int, es: seq<Event>)
    requires Schedule(connectionPool, es) && FixedLimit(es)
    ensures NoStranded(After(connectionPool, es))
  {
    OpenDBInv(connectionPool);
    NoStrandedRun(OpenDB(connectionPool), es);
  }

  /** More is open than idle: that is a connection elsewhere, a dial, a token or an opener dial. */
  lemma NotAllIdle(s: State)
    requires Inv(s) && !s.closed
    ensures s.numOpen >= |s.free|
    ensures s.numOpen > |s.free| <==>
              s.dials + s.tokens + s.openerDials > 0 || exists c :: c in s.conns && s.conns[c].place != Idle
  {
    IdleSplit(s);
    CountFact(s);
    hide Inv;
    if |OffIdle(s)| > 0 {
      var c :| c in OffIdle(s);
      assert c in s.conns && s.conns[c].place != Idle;
    }
    if exists c :: c in s.conns && s.conns[c].place != Idle {
      var c :| c in s.conns && s.conns[c].place != Idle;
      assert c in OffIdle(s);
    }
  }

  lemma CountFact(s: State)
    requires Inv(s) && !s.closed
    ensures s.numOpen == |s.conns| + s.dials + s.tokens + s.openerDials
  {
  }

  /**
   A waiter has somebody to wait for (a connection held, delivered or on its way through Close, or
   an opening under way) exactly if more is open than idle. For one that would have taken an idle
   connection this is always so.
   */
  lemma WaiterHasServer(s: State, key: nat)
    requires Inv(s) && NoStranded(s) && !s.closed && key in s.requests
    ensures key in s.waiting
    ensures s.numOpen > |s.free| <==>
              s.dials + s.tokens + s.openerDials > 0 || exists c :: c in s.conns && s.conns[c].place != Idle
    ensures s.waiting[key].strategy == CachedOrNewConn ==> s.numOpen > |s.free|
  {
    NotAllIdle(s);
    PendingFact(s, key);
    if s.waiting[key].strategy == CachedOrNewConn {
      CachedSeesNoneIdle(s, key);
    }
  }

  lemma CachedSeesNoneIdle(s: State, key: nat)
    requires Inv(s) && NoStranded(s) && !s.closed
    requires key in s.requests && key in s.waiting && s.waiting[key].strategy == CachedOrNewConn
    ensures s.free == [] && s.numOpen > 0
  {
    assert |s.requests| > 0;
  }

  /**
   Raising the limit serves nobody by itself: with everything that is open in use and a caller
   waiting, the raised limit leaves room that no opener token fills.
   */
  lemma RaisedLimitStrands(c: DriverConn) returns (es: seq<Event>)
    ensures Schedule(1, es)
    ensures NoStranded(After(1, es))
    ensures !NoStranded(SetMaxOpenConns(After(1, es), 2).0)
  {
    OpenDBInv(1);
    var s0 := OpenDB(1);
    var ask := ConnEnter(false, CachedOrNewConn, 0);
    AskDials(s0);
    var s1 := Step(s0, ask);
    DialHolds(s1, c);
    var s2 := Step(s1, DialSucceeds(c, 0));
    AskWaits(s2);
    LoneEnabled(s0, s1, s2, c);
    hide Inv, CanRun, Run, Step, OpenDB, Enabled, NoStranded, SetMaxOpenConns;
    RunThree(s0, s1, s2, ask, DialSucceeds(c, 0), ask);
    es := [ask, DialSucceeds(c, 0), ask];
    OneWaiterStrands(Run(s0, es));
  }

  lemma LoneEnabled(s0: State, s1: State, s2: State, c: DriverConn)
    requires Lone(s1, 1) && s1.dials == 1 && s1.conns == map[]
    ensures Enabled(s0, ConnEnter(false, CachedOrNewConn, 0)) && Enabled(s2, ConnEnter(false, CachedOrNewConn, 0))
    ensures Enabled(s1, DialSucceeds(c, 0))
  {
  }

  lemma OneWaiterStrands(s: State)
    requires !s.closed && s.maxOpen == 1 && s.numOpen == 1 && s.tokens == 0 && s.openerDials == 0 && |s.requests| == 1
    ensures NoStranded(s) && !NoStranded(SetMaxOpenConns(s, 2).0)
  {
  }

  /** A pool of size one with nothing idle and nobody waiting. */
  ghost predicate Lone(s: State, numOpen: nat) {
    && Inv(s) && !s.closed && s.maxOpen == 1 && s.numOpen == numOpen
    && s.free == [] && s.requests == {} && s.tokens == 0 && s.openerDials == 0
  }

  lemma AskDials(s: State)
    requires s == OpenDB(1) && Inv(s)
    ensures Lone(s, 0) && Lone(Step(s, ConnEnter(false, CachedOrNewConn, 0)), 1)
    ensures var s' := Step(s, ConnEnter(false, CachedOrNewConn, 0)); s'.dials == 1 && s'.conns == map[]
  {
    StepInv(s, ConnEnter(false, CachedOrNewConn, 0));
    hide Inv, StepPut, StepClose, StepAdmin;
  }

  lemma DialHolds(s: State, c: DriverConn)
    requires Lone(s, 1) && s.dials == 1 && s.conns == map[]
    ensures Lone(Step(s, DialSucceeds(c, 0)), 1)
  {
    StepInv(s, DialSucceeds(c, 0));
    hide Inv, StepPut, StepClose, StepAdmin;
  }

  lemma AskWaits(s: State)
    requires Lone(s, 1)
    ensures var s' := Step(s, ConnEnter(false, CachedOrNewConn, 0));
      && !s'.closed && s'.maxOpen == 1 && s'.numOpen == 1 && s'.tokens == 0 && s'.openerDials == 0
      && |s'.requests| == 1
  {
    hide Inv, StepPut, StepClose, StepAdmin;
    assert ({} + {s.nextRequest}) == {s.nextRequest};
  }

  lemma RunThree(s0: State, s1: State, s2: State, a: Event, b: Event, c: Event)
    requires Inv(s0) && Enabled(s0, a) && s1 == Step(s0, a)
    requires Inv(s1) && Enabled(s1, b) && s2 == Step(s1, b)
    requires Inv(s2) && Enabled(s2, c)
    ensures CanRun(s0, [a, b, c]) && Run(s0, [a, b, c]) == Step(s2, c)
  {
    hide Inv, Enabled, Step, CanRun, Run;
    StepInv(s2, c);
    RunNone(Step(s2, c));
    RunCons(s2, c, []);
    assert [c] + [] == [c];
    RunCons(s1, b, [c]);
    assert [b] + [c] == [b, c];
    RunCons(s0, a, [b, c]);
    assert [a] + [b, c] == [a, b, c];
  }

  lemma RunNone(s: State)
    requires Inv(s)
    ensures CanRun(s, []) && Run(s, []) == s
  {
    hide Inv;
  }

  lemma RunCons(s: State, e: Event, es: seq<Event>)
    requires Inv(s) && Enabled(s, e) && Inv(Step(s, e)) && CanRun(Step(s, e), es)
    ensures CanRun(s, [e] + es) && Run(s, [e] + es) == Run(Step(s, e), es)
  {
    hide Inv, Enabled, Step;
    assert ([e] + es)[1..] == es;
  }

  /** One more event in front of a run. */
  lemma Front(s: State, e: Event, rest: seq<Event>, end: State) returns (es: seq<Event>)
    requires Inv(s) && Enabled(s, e) && Inv(Step(s, e)) && CanRun(Step(s, e), rest) && Run(Step(s, e), rest) == end
    ensures CanRun(s, es) && Run(s, es) == end && es == [e] + rest
  {
    es := [e] + rest;
    RunCons(s, e, rest);
  }

  /**
   Changing the limit of an open pool with waiters beyond the openings under way keeps them
   served exactly if the new limit is positive and already used up.
   */
  lemma LimitChangeStrands(s: State, n: int)
    requires Inv(s) && !s.closed && |s.requests| > s.tokens + s.openerDials
    ensures NoStranded(SetMaxOpenConns(s, n).0) <==> 0 < n <= s.numOpen
  {
    hide OwnershipOk, WaitersOk, RequestsOk, CachedWaitersSeeNone, LimitsOk, CountOk;
  }

  // --- exclusive ownership -----------------------------------------------------------------

  ghost predicate Delivered(s: State, key: nat, c: DriverConn) {
    key in s.waiting && s.waiting[key].chan.Sent? && s.waiting[key].chan.conn == Some(c)
  }

  /**
   After any run: the idle list has no duplicates, nothing on it is in use, closed or in a
   channel, and each of its connections depends exactly on itself; no two channels hold the same
   connection, and a connection in a channel is in use and not closed.
   */
  lemma ExclusiveOwnership(s: State, es: seq<Event>)
    requires Inv(s) && CanRun(s, es)
    ensures var t := Run(s, es);
      && (forall i, j :: 0 <= i < j < |t.free| ==> t.free[i] != t.free[j])
      && (forall c :: c in t.free ==>
            && c in t.conns && !t.conns[c].inUse && !t.conns[c].closed
            && c in t.dep && t.dep[c] == {c})
      && (forall c, k :: c in t.free && Delivered(t, k, c) ==> false)
      && (forall c, k1, k2 :: Delivered(t, k1, c) && Delivered(t, k2, c) ==> k1 == k2)
      && (forall c, k :: Delivered(t, k, c) ==> c in t.conns && t.conns[c].inUse && !t.conns[c].closed)
  {
    RunInv(s, es);
    hide CanRun, Run;
  }

  /** Putting a held connection back is never refused. */
  lemma PutNotRefused(t: State, c: DriverConn, err: Option<Err>, now: int, pick: nat)
    requires Inv(t) && At(t, c, Held) && PutConn.requires(t, c, err, now, pick)
    ensures PutConn(t, c, err, now, pick).1 != NeverOut
  {
    RecordFact(t, c);
    hide Inv, MaybeOpenNewConnections, PutConnDBLocked, TakeIn, WithinLimit, OneAnswer;
  }

  /** Closing one is never a duplicate close. */
  lemma CloseNotDuplicate(t: State, c: DriverConn)
    requires Inv(t) && (At(t, c, Held) || At(t, c, Closing))
    ensures CloseMark(t, c).1
  {
    RecordFact(t, c);
    hide Inv, WithinLimit;
  }

  /** Dropping its dependency is never unpaired and always leads to finalClose. */
  lemma DropIsPaired(t: State, c: DriverConn)
    requires Inv(t) && At(t, c, Marked)
    ensures CloseDep(t, c).1 == RunFinalClose
  {
    SelfDepFact(t, c);
    hide Inv, WithinLimit;
  }

  /** DBClose never meets a closed idle connection. */
  lemma IdleIsClosable(t: State, c: DriverConn)
    requires Inv(t) && c in t.free
    ensures c in t.conns && !t.conns[c].closed && RemoveDep(t.dep, c, c).1 == RunFinalClose
  {
    IdlePlace(t, c);
    RecordFact(t, c);
    SelfDepFact(t, c);
    hide Inv;
  }

  lemma IdlePlace(t: State, c: DriverConn)
    requires Inv(t) && c in t.free
    ensures c in t.conns && t.conns[c].place == Idle
  {
  }

  /** After any run, whoever it left a connection with can go on without panic or error. */
  lemma OwnersNeverFail(s: State, es: seq<Event>, c: DriverConn, err: Option<Err>, now: int, pick: nat)
    requires Inv(s) && CanRun(s, es)
    ensures var t := Run(s, es);
      && (At(t, c, Held) && PutConn.requires(t, c, err, now, pick) ==> PutConn(t, c, err, now, pick).1 != NeverOut)
      && (At(t, c, Held) || At(t, c, Closing) ==> CloseMark(t, c).1)
      && (At(t, c, Marked) ==> CloseDep(t, c).1 == RunFinalClose)
      && (c in t.free ==> c in t.conns && !t.conns[c].closed && RemoveDep(t.dep, c, c).1 == RunFinalClose)
  {
    hide Inv, CanRun, Run, PutConn, CloseMark, CloseDep, RemoveDep;
    RunInv(s, es);
    var t := Run(s, es);
    if At(t, c, Held) && PutConn.requires(t, c, err, now, pick) {
      PutNotRefused(t, c, err, now, pick);
    }
    if At(t, c, Held) || At(t, c, Closing) {
      CloseNotDuplicate(t, c);
    }
    if At(t, c, Marked) {
      DropIsPaired(t, c);
    }
    if c in t.free {
      IdleIsClosable(t, c);
    }
  }

  // --- conservation ----------------------------------------------------------------------

  /**
   The open count is never below the idle ones, and what Stats calls in use is exactly the
   connections elsewhere, the dials, the tokens and the leaked slots; an open pool leaks none.
   */
  lemma InUseCount(s: State, es: seq<Event>)
    requires Inv(s) && CanRun(s, es)
    ensures var t := Run(s, es);
      && t.numOpen - |t.free| ==
           |OffIdle(t)| + t.dials + t.tokens + t.openerDials + t.leaked
      && (!t.closed ==> t.leaked == 0)
  {
    RunInv(s, es);
    var t := Run(s, es);
    hide CanRun, Run;
    IdleSplit(t);
    hide OwnershipOk, WaitersOk, RequestsOk, CachedWaitersSeeNone, LimitsOk;
  }

  function OffIdle(t: State): set<DriverConn> {
    set c | c in t.conns && t.conns[c].place != Idle
  }

  lemma IdleSplit(t: State)
    requires Inv(t)
    ensures |t.conns| == |t.free| + |OffIdle(t)|
  {
    IdleSets(t);
    FreeFact(t);
    DistinctSize(t.free);
    hide Inv, OffIdle;
    assert Elems(t.free) == set x | x in t.free;
    assert |Elems(t.free) + OffIdle(t)| == |Elems(t.free)| + |OffIdle(t)|;
    assert |t.conns| == |t.conns.Keys|;
  }

  lemma IdleSets(t: State)
    requires Inv(t)
    ensures Elems(t.free) !! OffIdle(t) && Elems(t.free) + OffIdle(t) == t.conns.Keys
  {
  }

  lemma ConnKeepsAll(s: State, e: Event)
    requires Inv(s) && Enabled(s, e) && InConn(e)
    ensures s.conns.Keys <= StepConn(s, e).conns.Keys
  {
    CallFacts(s, e);
    hide Inv, ConnBegin, DialFailed, DialSucceeded, Receive, CancelBegin, CancelEnd, WithinLimit;
  }

  lemma PutKeepsAll(s: State, e: Event)
    requires Inv(s) && Enabled(s, e) && InPut(e)
    ensures s.conns.Keys <= StepPut(s, e).conns.Keys
  {
    CallFacts(s, e);
    hide Inv, PutConn, OpenerTake, OpenerDone, WithinLimit, OneAnswer;
  }

  lemma CloseKeepsOthers(s: State, e: Event, c: DriverConn)
    requires Inv(s) && Enabled(s, e) && InClose(e) && c in s.conns
    ensures c in StepClose(s, e).conns || (e == GiveSlotBack(c) && s.conns[c].finalClosed)
  {
    RecordFact(s, c);
    hide Inv, CloseMark, CloseDep, DriverClose, FinalCount, WithinLimit;
  }

  lemma AdminKeepsAll(s: State, e: Event)
    requires Inv(s) && Enabled(s, e) && !InConn(e) && !InPut(e) && !InClose(e)
    ensures s.conns.Keys <= StepAdmin(s, e).conns.Keys
  {
    hide Inv, SetMaxIdleConns, SetMaxOpenConns, SetConnMaxLifetime, SetConnMaxIdleTime, CleanerRun, DBClose,
      WithinLimit;
  }

  /** A connection only leaves the books by giving its slot back at the end of finalClose. */
  lemma NoConnectionLost(s: State, e: Event, c: DriverConn)
    requires Inv(s) && Enabled(s, e) && c in s.conns
    ensures c in Step(s, e).conns || (e == GiveSlotBack(c) && s.conns[c].finalClosed)
  {
    hide Inv, Enabled, StepConn, StepPut, StepClose, StepAdmin;
    if InConn(e) {
      ConnKeepsAll(s, e);
    } else if InPut(e) {
      PutKeepsAll(s, e);
    } else if InClose(e) {
      CloseKeepsOthers(s, e, c);
    } else {
      AdminKeepsAll(s, e);
    }
  }

  // --- the request protocol ----------------------------------------------------------------

  /**
   The waiters after a step: keys are fresh, only the waiter itself leaves, and a channel only
   ever changes from empty, while its key is in the request map.
   */
  ghost predicate ChannelsKept(s: State, s': State, leaving: set<nat>) {
    && s.nextRequest <= s'.nextRequest
    && (forall k :: k in s'.waiting && k !in s.waiting ==> k == s.nextRequest && s'.waiting[k].chan == Empty)
    && (forall k :: k in s.waiting && k !in leaving ==> k in s'.waiting)
    && (forall k :: k in s.waiting && k in s'.waiting && s'.waiting[k].chan != s.waiting[k].chan ==>
          s.waiting[k].chan == Empty && !s.waiting[k].cancelled && k in s.requests)
  }

  function Leaving(e: Event): set<nat> {
    if e.WaiterReceives? || e.WaiterDrains? then {e.key} else {}
  }

  lemma OneAnswerKept(s: State, s': State, pick: nat)
    requires OneAnswer(s, s', pick)
    requires !s.closed && s.requests != {} ==>
               pick in s.requests && (pick in s.waiting ==> s.waiting[pick].chan == Empty && !s.waiting[pick].cancelled)
    ensures ChannelsKept(s, s', {})
  {
  }

  lemma ReturnKept(s: State, e: Event)
    requires Inv(s) && Enabled(s, e) && (e.PutBack? || e.OpenerAnswered?)
    ensures ChannelsKept(s, Step(s, e), {})
  {
    if !s.closed && s.requests != {} {
      PendingFact(s, e.pick);
    }
    hide Inv, PutConn, OpenerDone, WithinLimit, StepConn, StepClose, StepAdmin, OneAnswer, ChannelsKept;
    OneAnswerKept(s, Step(s, e), e.pick);
  }

  lemma ConnEnterKept(s: State, e: Event)
    requires Inv(s) && Enabled(s, e) && e.ConnEnter?
    ensures ChannelsKept(s, Step(s, e), {})
  {
    FreshKey(s);
    hide Inv, StepPut, StepClose, StepAdmin, DialFailed, DialSucceeded, Receive, CancelBegin, CancelEnd, WithinLimit;
  }

  lemma FreshKey(s: State)
    requires Inv(s)
    ensures s.nextRequest !in s.waiting && s.nextRequest !in s.requests
  {
  }

  lemma CloseKept(s: State, e: Event)
    requires Inv(s) && Enabled(s, e) && e.CloseDB?
    ensures ChannelsKept(s, Step(s, e), {})
  {
    if !s.closed {
      forall k | k in s.requests ensures k in s.waiting && s.waiting[k].chan == Empty && !s.waiting[k].cancelled {
        PendingFact(s, k);
      }
    }
    hide Inv, CloseIdle, StepConn, StepPut, StepClose;
  }

  lemma WaiterKept(s: State, e: Event)
    requires Inv(s) && Enabled(s, e) && (e.WaiterReceives? || e.WaiterCancels? || e.WaiterDrains?)
    ensures ChannelsKept(s, Step(s, e), Leaving(e))
  {
    hide Inv, StepPut, StepClose, StepAdmin, DialFailed, DialSucceeded, ConnBegin, WithinLimit;
  }

  /** Events that touch no request, no channel and not the idle list. */
  predicate Aloof(e: Event) {
    e.DialFails? || e.DialSucceeds? || InClose(e) || e.OpenerTakesToken? || e.ChangeMaxOpen?
  }

  lemma AloofStep(s: State, e: Event)
    requires Inv(s) && Enabled(s, e) && Aloof(e)
    ensures Untouched(s, Step(s, e)) && Step(s, e).free == s.free
  {
    hide Inv, Wanted, ConnBegin, Receive, CancelBegin, CancelEnd, PutConn, OpenerDone, SetMaxIdleConns, CleanerRun,
      DBClose, SetConnMaxLifetime, SetConnMaxIdleTime, RemoveDep, WithinLimit;
  }

  /**
   No channel is answered twice, answered after it was closed, closed after it was answered, or
   touched once its waiter has cancelled; request keys never repeat.
   */
  lemma AnsweredAtMostOnce(s: State, e: Event)
    requires Inv(s) && Enabled(s, e)
    ensures ChannelsKept(s, Step(s, e), Leaving(e))
  {
    hide Inv, Enabled, Step;
    match e {
      case ConnEnter(_, _, _) => ConnEnterKept(s, e);
      case PutBack(_, _, _, _) => ReturnKept(s, e);
      case OpenerAnswered(_, _, _) => ReturnKept(s, e);
      case CloseDB => CloseKept(s, e);
      case WaiterReceives(_, _) => WaiterKept(s, e);
      case WaiterCancels(_) => WaiterKept(s, e);
      case WaiterDrains(_) => WaiterKept(s, e);
      case _ =>
        if Trimming(e) {
          TrimmingStep(s, e);
        } else {
          AloofStep(s, e);
        }
    }
  }

  /**
   A connection in a channel stays there for its waiter, who can take it at once, cancelled or
   not: cancelled, the waiter is left holding it and puts it back.
   */
  lemma DeliveryIsTaken(s: State, c: DriverConn, now: int)
    requires Inv(s) && c in s.conns && s.conns[c].place.InChan?
    ensures var k := s.conns[c].place.key;
      && k in s.waiting
      && (s.waiting[k].cancelled ==>
            Enabled(s, WaiterDrains(k)) && At(Step(s, WaiterDrains(k)), c, Held))
      && (!s.waiting[k].cancelled ==>
            && Enabled(s, WaiterReceives(k, now))
            && (At(Step(s, WaiterReceives(k, now)), c, Held) || At(Step(s, WaiterReceives(k, now)), c, Closing)))
  {
  }

  /** Once answered or closed a channel stays as it is for as long as its waiter is there. */
  lemma {:induction false} AnswerIsFinal(s: State, es: seq<Event>, k: nat)
    requires Inv(s) && CanRun(s, es)
    requires k in s.waiting && s.waiting[k].chan != Empty
    ensures var t := Run(s, es); k in t.waiting ==> t.waiting[k].chan == s.waiting[k].chan
    decreases |es|
  {
    if es != [] {
      hide Inv, Enabled, Step;
      var s1 := Step(s, es[0]);
      StepInv(s, es[0]);
      AnsweredAtMostOnce(s, es[0]);
      if k in s1.waiting {
        AnswerIsFinal(s1, es[1..], k);
      } else {
        KnownKey(s, k);
        KeyNeverReturns(s1, es[1..], k);
      }
    }
  }

  lemma KnownKey(s: State, k: nat)
    requires Inv(s) && k in s.waiting
    ensures k < s.nextRequest
  {
  }

  /** A key that has been given out and left is never waited on again. */
  lemma {:induction false} KeyNeverReturns(s: State, es: seq<Event>, k: nat)
    requires Inv(s) && CanRun(s, es)
    requires k < s.nextRequest && k !in s.waiting
    ensures k !in Run(s, es).waiting
    decreases |es|
  {
    if es != [] {
      hide Inv, Enabled, Step;
      StepInv(s, es[0]);
      AnsweredAtMostOnce(s, es[0]);
      KeyNeverReturns(Step(s, es[0]), es[1..], k);
    }
  }

  /**
   No schedule loses a connection: after any run it is still on the books, where ExclusiveOwnership
   says who has it, unless its finalClose has given the slot back in that run.
   */
  lemma {:induction false} NoScheduleLosesAConnection(s: State, es: seq<Event>, c: DriverConn)
    requires Inv(s) && CanRun(s, es) && c in s.conns
    ensures c in Run(s, es).conns || GiveSlotBack(c) in es
    decreases |es|
  {
    if es != [] {
      hide Inv, Enabled, Step;
      StepInv(s, es[0]);
      NoConnectionLost(s, es[0], c);
      if c in Step(s, es[0]).conns {
        NoScheduleLosesAConnection(Step(s, es[0]), es[1..], c);
      }
    }
  }

  // --- idle list and cleaner ---------------------------------------------------------------

  predicate TooOld(s: State, c: DriverConn, now: int)
    requires c in s.conns
  {
    s.maxLifetime > 0 && s.conns[c].createdAt + s.maxLifetime < now
  }

  predicate TooLongIdle(s: State, c: DriverConn, now: int)
    requires c in s.conns
  {
    s.maxIdleTime > 0 && s.conns[c].returnedAt + s.maxIdleTime < now
  }

  /** The list to be closed is the too old and then the rest of the too long idle. */
  ghost predicate TakenApart(s: State, now: int, closing: seq<DriverConn>, n: int)
    requires forall c :: c in s.free ==> c in s.conns
  {
    && 0 <= n <= |closing|
    && (forall c :: c in s.free ==> (c in closing[..n] <==> TooOld(s, c, now)))
    && (forall c :: c in s.free ==> (c in closing[n..] <==> !TooOld(s, c, now) && TooLongIdle(s, c, now)))
  }

  /**
   The cleaner takes from the idle list exactly what is too old or too long idle, loses nothing,
   counts each closing once and by its reason, and leaves everything else alone.
   */
  lemma CleanerTakesExactlyTheExpired(s: State, now: int)
    requires Inv(s)
    ensures forall c :: c in s.free ==> c in s.conns
    ensures var t, closing := CleanerRun(s, now).0, CleanerRun(s, now).1;
      var n := t.stats.maxLifetimeClosed - s.stats.maxLifetimeClosed;
      && multiset(t.free) + multiset(closing) == multiset(s.free)
      && TakenApart(s, now, closing, n)
      && t.stats == s.stats.(maxLifetimeClosed := s.stats.maxLifetimeClosed + n,
                             maxIdleTimeClosed := s.stats.maxIdleTimeClosed + |closing| - n)
      && t.conns.Keys == s.conns.Keys
      && (forall c :: c in s.conns ==>
            t.conns[c] == if c in closing then s.conns[c].(place := Closing) else s.conns[c])
      && t == s.(free := t.free, conns := t.conns, stats := t.stats)
    ensures Enabled(s, CleanerWakes(now)) ==> Step(s, CleanerWakes(now)) == CleanerRun(s, now).0
  {
    hide Inv, Purge, PastLifetime, PastIdleTime, MoveAll, TakenApart, WithinLimit;
    FreeFact(s);
    CleanerSplits(s, now);
    PurgedByReason(s, now);
    PoolAnswers.MovedAre(s.conns, CleanerRun(s, now).1, Closing);
  }

  lemma PurgedByReason(s: State, now: int)
    requires forall c :: c in s.free ==> c in s.conns
    ensures var a := Purge(s.free, 0, PastLifetime(s, now));
      TakenApart(s, now, a.1 + Purge(a.0, 0, PastIdleTime(s, now)).1, |a.1|)
  {
    hide Purge;
    var a := Purge(s.free, 0, PastLifetime(s, now));
    var b := Purge(a.0, 0, PastIdleTime(s, now));
    PurgePartition(s.free, 0, PastLifetime(s, now));
    PurgePartition(a.0, 0, PastIdleTime(s, now));
    var closing := a.1 + b.1;
    assert closing[..|a.1|] == a.1 && closing[|a.1|..] == b.1;
    forall c | c in s.free
      ensures c in a.1 <==> TooOld(s, c, now)
      ensures c in b.1 <==> !TooOld(s, c, now) && TooLongIdle(s, c, now)
    {
      InOneOf(s.free, a.0, a.1, c);
      InOneOf(a.0, b.0, b.1, c);
    }
  }

  lemma InOneOf(s: seq<DriverConn>, a: seq<DriverConn>, b: seq<DriverConn>, c: DriverConn)
    requires multiset(s) == multiset(a) + multiset(b)
    ensures c in s <==> c in a || c in b
  {
    assert c in s <==> c in multiset(s);
  }

  /** The connection is with the caller that took it, in use: to be worked with, or closed as expired. */
  ghost predicate WithTaker(s: State, c: DriverConn) {
    (At(s, c, Held) || At(s, c, Closing)) && s.conns[c].inUse
  }

  /** The idle list after a step is the old one with at most the head taken, the tail trimmed, or one added. */
  ghost predicate QueueStep(s: State, e: Event, s': State) {
    || s'.free == s.free
    || (e.ConnEnter? && e.strategy == CachedOrNewConn && |s.free| > 0 && s'.free == s.free[1..]
        && WithTaker(s', s.free[0]))
    || (e.PutBack? && s.requests == {} && |s.free| < MaxIdle(s) && s'.free == s.free + [e.dc])
    || (e.OpenerAnswered? && e.res.Ok? && s.requests == {} && |s.free| < MaxIdle(s)
        && s'.free == s.free + [e.res.value])
    || (e.ChangeMaxIdle? && s'.free <= s.free && |s'.free| == MaxIdle(s'))
    || (e.CloseDB? && s'.free == [])
    || e.CleanerWakes?
  }

  /** The idle list is a bounded first-in first-out queue, trimmed at the tail. */
  lemma IdleListIsQueue(s: State, e: Event)
    requires Inv(s) && Enabled(s, e)
    ensures QueueStep(s, e, Step(s, e))
    ensures |Step(s, e).free| <= MaxIdle(Step(s, e))
    ensures var s' := Step(s, e);
      s'.maxOpen > 0 && s'.pendingSyncs == 0 ==> MaxIdle(s') <= s'.maxOpen
  {
    StepInv(s, e);
    LimitFacts(Step(s, e));
    hide Inv, Enabled, Step, MaxIdle;
    if Aloof(e) {
      AloofStep(s, e);
    } else if e.PutBack? {
      PutBackQueueStep(s, e);
    } else if e.OpenerAnswered? {
      OpenerQueueStep(s, e);
    } else {
      OtherQueueStep(s, e);
    }
  }

  lemma PutBackQueueStep(s: State, e: Event)
    requires Inv(s) && Enabled(s, e) && e.PutBack?
    ensures QueueStep(s, e, Step(s, e))
  {
    hide Inv, StepConn, StepClose, StepAdmin, WithinLimit, OneAnswer;
  }

  lemma OpenerQueueStep(s: State, e: Event)
    requires Inv(s) && Enabled(s, e) && e.OpenerAnswered?
    ensures QueueStep(s, e, Step(s, e))
  {
    hide Inv, StepConn, StepClose, StepAdmin, WithinLimit, OneAnswer;
  }

  lemma OtherQueueStep(s: State, e: Event)
    requires Inv(s) && Enabled(s, e) && !Aloof(e) && !e.PutBack? && !e.OpenerAnswered?
    ensures QueueStep(s, e, Step(s, e))
  {
    CallFacts(s, e);
    hide Inv, Purge, MoveAll, CleanerRun, StepPut, StepClose, DialFailed, DialSucceeded, SetMaxOpenConns, WithinLimit;
  }

  lemma LimitFacts(s: State)
    requires Inv(s)
    ensures |s.free| <= MaxIdle(s)
    ensures s.maxOpen > 0 && s.pendingSyncs == 0 ==> MaxIdle(s) <= s.maxOpen
  {
  }
}

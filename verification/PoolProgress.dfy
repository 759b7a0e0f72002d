/**
 Can a waiter be answered at all? Exactly when enough of the pool is not idle: the events that go on
 by themselves (holders put back or close, waiters receive, the opener and the dials come to an end)
 then have an order that answers it, and otherwise none.
 */
module PoolProgress {
  import opened Wrappers
  import opened DriverConns
  import opened Deps
  import opened PoolState
  import opened PoolInvariant
  import opened PoolRuns
  import opened PoolTheorems
  import PoolLeak

  /** Work already begun goes on: no new caller, no change of a limit, no cleaner, no DBClose. */
  predicate GoesOn(e: Event) {
    (InConn(e) && !e.ConnEnter?) || InPut(e) || InClose(e)
  }

  predicate AllGoOn(es: seq<Event>) {
    forall i :: 0 <= i < |es| ==> GoesOn(es[i])
  }

  /** The request has been sent an answer; with `want`, a connection and not an error. */
  predicate Answered(s: State, key: nat, want: bool) {
    key in s.waiting && s.waiting[key].chan.Sent? && (want ==> s.waiting[key].chan.conn.Some?)
  }

  ghost predicate Answers(s: State, key: nat, want: bool, es: seq<Event>)
    requires Inv(s)
  {
    CanRun(s, es) && AllGoOn(es) && Answered(Run(s, es), key, want)
  }

  ghost predicate Pending(s: State, key: nat) {
    Inv(s) && !s.closed && key in s.requests
  }

  /** The open count is within the limit; it may be above one that was lowered while the pool was busy. */
  predicate Within(s: State) {
    s.maxOpen > 0 ==> s.numOpen <= s.maxOpen
  }

  /**
   When an answer can be reached: something is not idle, and the idle connections leave room under the
   limit; an error can also come from an opening under way when they just fill it.
   */
  predicate Reach(s: State, want: bool) {
    && s.numOpen > |s.free|
    && (s.maxOpen <= 0 || |s.free| < s.maxOpen
        || (!want && |s.free| == s.maxOpen && s.tokens + s.openerDials > 0))
  }

  /** A connection the driver may hand out. */
  predicate Spare(s: State, c0: Option<DriverConn>) {
    c0.Some? ==> c0.value !in s.conns
  }

  function DriverSays(c0: Option<DriverConn>): Result<DriverConn, Err> {
    if c0.Some? then Ok(c0.value) else Fail(ErrOther(0))
  }

  // --- one step nearer -----------------------------------------------------------------------

  lemma Nearer(s: State, e: Event, key: nat, want: bool, rest: seq<Event>) returns (es: seq<Event>)
    requires Inv(s) && Enabled(s, e) && GoesOn(e) && Inv(Step(s, e)) && Answers(Step(s, e), key, want, rest)
    ensures Answers(s, key, want, es)
  {
    hide Inv, Enabled, Step, Answered, GoesOn;
    es := [e] + rest;
    RunCons(s, e, rest);
  }

  lemma Arrived(s: State, e: Event, key: nat, want: bool) returns (es: seq<Event>)
    requires Inv(s) && Enabled(s, e) && GoesOn(e) && Answered(Step(s, e), key, want)
    ensures Answers(s, key, want, es)
  {
    hide Inv, Enabled, Step, Answered, GoesOn;
    StepInv(s, e);
    RunNone(Step(s, e));
    es := Nearer(s, e, key, want, []);
  }

  /** A passing event, no dial among them, changes neither demand nor supply. */
  predicate Moving(e: Event) {
    Passing(e) && !e.DialSucceeds?
  }

  ghost predicate SameSupply(s: State, t: State) {
    SameDemand(s, t) && t.free == s.free && t.conns.Keys == s.conns.Keys
  }

  lemma MovingConn(s: State, e: Event)
    requires Inv(s) && Enabled(s, e) && Moving(e) && InConn(e)
    ensures Step(s, e).free == s.free && Step(s, e).conns.Keys == s.conns.Keys
  {
    CallFacts(s, e);
    hide Inv, StepPut, StepClose, StepAdmin, ConnBegin, DialFailed, DialSucceeded, CancelBegin, WithinLimit, Expired;
  }

  lemma MovingOther(s: State, e: Event)
    requires Inv(s) && Enabled(s, e) && Moving(e) && !InConn(e)
    ensures Step(s, e).free == s.free && Step(s, e).conns.Keys == s.conns.Keys
  {
    hide Inv, StepConn, StepAdmin, PutConn, OpenerDone, FinalCount, RemoveDep, WithinLimit;
  }

  /** So the request stays pending, and what can be reached stays so. */
  lemma MovingKeeps(s: State, e: Event, key: nat)
    requires Pending(s, key) && Enabled(s, e) && Moving(e)
    ensures GoesOn(e) && Pending(Step(s, e), key) && SameSupply(s, Step(s, e))
  {
    hide Inv, Enabled, Step;
    StepInv(s, e);
    if InConn(e) {
      MovingConn(s, e);
      PassingConn(s, e);
    } else {
      MovingOther(s, e);
      PassingOther(s, e);
    }
  }

  // --- within the limit ----------------------------------------------------------------------

  /** The opener's dial ends, and its connection or its error answers the request. */
  lemma ByOpener(s: State, key: nat, c0: Option<DriverConn>) returns (es: seq<Event>)
    requires Pending(s, key) && Within(s) && Spare(s, c0) && s.openerDials > 0
    ensures Answers(s, key, c0.Some?, es)
  {
    hide Inv, Enabled, Step, Answered, GoesOn, Answers;
    var e := OpenerAnswered(DriverSays(c0), 0, key);
    OpenerAnswers(s, key, c0);
    es := Arrived(s, e, key, c0.Some?);
  }

  lemma OpenerAnswers(s: State, key: nat, c0: Option<DriverConn>)
    requires Pending(s, key) && Spare(s, c0) && s.openerDials > 0
    requires s.maxOpen > 0 ==> s.numOpen <= s.maxOpen || (c0.None? && s.numOpen == s.maxOpen + 1)
    ensures var e := OpenerAnswered(DriverSays(c0), 0, key);
      Enabled(s, e) && GoesOn(e) && Answered(Step(s, e), key, c0.Some?)
  {
    PendingFact(s, key);
    CallFacts(s, OpenerAnswered(DriverSays(c0), 0, key));
    hide Inv, StepConn, StepClose, StepAdmin, PutConn, OneAnswer, WithinLimit, Wanted;
  }

  lemma ByToken(s: State, key: nat, c0: Option<DriverConn>) returns (es: seq<Event>)
    requires Pending(s, key) && Within(s) && Spare(s, c0) && s.tokens + s.openerDials > 0
    ensures Answers(s, key, c0.Some?, es)
  {
    hide Inv, Enabled, Step, Answers, Moving, GoesOn;
    if s.openerDials > 0 {
      es := ByOpener(s, key, c0);
    } else {
      TokenTaken(s);
      MovingKeeps(s, OpenerTakesToken, key);
      es := ByOpener(Step(s, OpenerTakesToken), key, c0);
      es := Nearer(s, OpenerTakesToken, key, c0.Some?, es);
    }
  }

  lemma TokenTaken(s: State)
    requires Inv(s) && s.tokens > 0
    ensures Enabled(s, OpenerTakesToken) && Moving(OpenerTakesToken) && Step(s, OpenerTakesToken).openerDials > 0
  {
    hide Inv, StepConn, StepClose, StepAdmin, PutConn, OpenerDone, WithinLimit;
  }

  /** A holder puts its connection back, and the request gets it. */
  lemma ByHolder(s: State, key: nat, c: DriverConn, want: bool) returns (es: seq<Event>)
    requires Pending(s, key) && Within(s) && At(s, c, Held)
    ensures Answers(s, key, want, es)
  {
    hide Inv, Enabled, Step, Answered, GoesOn, Answers;
    var e := PutBack(c, None, s.conns[c].createdAt, key);
    PutAnswers(s, key, c, want);
    es := Arrived(s, e, key, want);
  }

  lemma PutAnswers(s: State, key: nat, c: DriverConn, want: bool)
    requires Pending(s, key) && Within(s) && At(s, c, Held)
    ensures var e := PutBack(c, None, s.conns[c].createdAt, key);
      Enabled(s, e) && GoesOn(e) && Answered(Step(s, e), key, want)
  {
    var e := PutBack(c, None, s.conns[c].createdAt, key);
    PendingFact(s, key);
    RecordFact(s, c);
    CallFacts(s, e);
    hide Inv, StepConn, StepClose, StepAdmin, OpenerDone, OneAnswer, WithinLimit, MaybeOpenNewConnections;
  }

  /** A delivered connection is received, or drained by its cancelled waiter, and then put back. */
  lemma ByDelivered(s: State, key: nat, c: DriverConn, want: bool) returns (es: seq<Event>)
    requires Pending(s, key) && Within(s) && c in s.conns && s.conns[c].place.InChan?
    ensures Answers(s, key, want, es)
  {
    hide Inv, Enabled, Step, Answers, Moving, GoesOn;
    var e := TakenOut(s, c);
    MovingKeeps(s, e, key);
    es := ByHolder(Step(s, e), key, c, want);
    es := Nearer(s, e, key, want, es);
  }

  lemma TakenOut(s: State, c: DriverConn) returns (e: Event)
    requires Inv(s) && c in s.conns && s.conns[c].place.InChan?
    ensures Enabled(s, e) && Moving(e) && At(Step(s, e), c, Held)
  {
    InChannel(s, c);
    var k := s.conns[c].place.key;
    e := if s.waiting[k].cancelled then WaiterDrains(k) else WaiterReceives(k, s.conns[c].createdAt);
    CallFacts(s, e);
    hide Inv, StepPut, StepClose, StepAdmin, ConnBegin, DialFailed, DialSucceeded, CancelBegin, WithinLimit;
  }

  lemma InChannel(s: State, c: DriverConn)
    requires Inv(s) && c in s.conns && s.conns[c].place.InChan?
    ensures var k := s.conns[c].place.key; k in s.waiting && s.waiting[k].chan == Sent(Some(c), None)
  {
  }

  /** A failed dial, or a slot given back, leaves room for an opener token. */
  lemma RoomSends(s: State)
    requires !s.closed && s.requests != {} && (s.maxOpen > 0 ==> s.numOpen < s.maxOpen)
    ensures var t := MaybeOpenNewConnections(s);
      && t.tokens > s.tokens && t.openerDials == s.openerDials && t.conns == s.conns
      && !t.closed && t.requests == s.requests && t.maxOpen == s.maxOpen
  {
  }

  lemma ByDial(s: State, key: nat, c0: Option<DriverConn>) returns (es: seq<Event>)
    requires Pending(s, key) && Within(s) && Spare(s, c0) && s.dials > 0
    ensures Answers(s, key, c0.Some?, es)
  {
    hide Inv, Enabled, Step, Answers, GoesOn;
    DialGivesUp(s, key);
    es := ByToken(Step(s, DialFails), key, c0);
    es := Nearer(s, DialFails, key, c0.Some?, es);
  }

  lemma DialGivesUp(s: State, key: nat)
    requires Pending(s, key) && Within(s) && s.dials > 0
    ensures Enabled(s, DialFails) && GoesOn(DialFails)
    ensures Pending(Step(s, DialFails), key) && Within(Step(s, DialFails))
    ensures Step(s, DialFails).tokens > 0 && Step(s, DialFails).conns == s.conns
  {
    StepInv(s, DialFails);
    OpenLimitStep(s, DialFails);
    RoomSends(s.(numOpen := s.numOpen - 1, dials := s.dials - 1));
    hide Inv, StepPut, StepClose, StepAdmin, MaybeOpenNewConnections, WithinLimit;
  }

  lemma ByFinalized(s: State, key: nat, c: DriverConn, c0: Option<DriverConn>) returns (es: seq<Event>)
    requires Pending(s, key) && Within(s) && Spare(s, c0) && At(s, c, Finalized)
    ensures Answers(s, key, c0.Some?, es)
  {
    hide Inv, Enabled, Step, Answers, GoesOn;
    SlotGivenBack(s, key, c);
    es := ByToken(Step(s, GiveSlotBack(c)), key, c0);
    es := Nearer(s, GiveSlotBack(c), key, c0.Some?, es);
  }

  lemma SlotGivenBack(s: State, key: nat, c: DriverConn)
    requires Pending(s, key) && Within(s) && At(s, c, Finalized)
    ensures Enabled(s, GiveSlotBack(c)) && GoesOn(GiveSlotBack(c))
    ensures var t := Step(s, GiveSlotBack(c));
      Pending(t, key) && Within(t) && t.tokens > 0 && t.conns == s.conns - {c}
  {
    StepInv(s, GiveSlotBack(c));
    OpenLimitStep(s, GiveSlotBack(c));
    RoomSends(s.(conns := s.conns - {c}, numOpen := s.numOpen - 1));
    hide Inv, StepPut, StepConn, StepAdmin, MaybeOpenNewConnections, WithinLimit;
  }

  /** The next part of Close; a holder can begin it at any time. */
  function NextPart(c: DriverConn, p: Place): (Event, Place)
    requires p == Held || p == Closing || p == Marked || p == Finalizing
  {
    match p
    case Marked => (DropDep(c), Finalizing)
    case Finalizing => (CloseDriverConn(c), Finalized)
    case _ => (MarkClosed(c), Marked)
  }

  lemma PartDone(s: State, c: DriverConn, p: Place)
    requires Inv(s) && At(s, c, p) && (p == Held || p == Closing || p == Marked || p == Finalizing)
    ensures var n := NextPart(c, p);
      Enabled(s, n.0) && Moving(n.0) && At(Step(s, n.0), c, n.1)
  {
    RecordFact(s, c);
    hide Inv, StepPut, StepConn, StepAdmin, FinalCount, RemoveDep, WithinLimit;
  }

  function PartsLeft(p: Place): nat {
    match p
    case Held => 4
    case Closing => 3
    case Marked => 2
    case Finalizing => 1
    case _ => 0
  }

  predicate InClosing(p: Place) {
    p == Closing || p == Marked || p == Finalizing || p == Finalized
  }

  lemma {:induction false} ByCloser(s: State, key: nat, c: DriverConn, p: Place, c0: Option<DriverConn>)
    returns (es: seq<Event>)
    requires Pending(s, key) && Within(s) && Spare(s, c0) && At(s, c, p) && InClosing(p)
    ensures Answers(s, key, c0.Some?, es)
    decreases PartsLeft(p)
  {
    hide Inv, Enabled, Step, Answers, Moving, GoesOn, At;
    if p == Finalized {
      es := ByFinalized(s, key, c, c0);
    } else {
      var n := NextPart(c, p);
      PartDone(s, c, p);
      MovingKeeps(s, n.0, key);
      es := ByCloser(Step(s, n.0), key, c, n.1, c0);
      es := Nearer(s, n.0, key, c0.Some?, es);
    }
  }

  lemma ByConn(s: State, key: nat, c: DriverConn, c0: Option<DriverConn>) returns (es: seq<Event>)
    requires Pending(s, key) && Within(s) && Spare(s, c0) && c in s.conns && s.conns[c].place != Idle
    ensures Answers(s, key, c0.Some?, es)
  {
    hide Inv, Answers;
    if s.conns[c].place.Held? {
      es := ByHolder(s, key, c, c0.Some?);
    } else if s.conns[c].place.InChan? {
      es := ByDelivered(s, key, c, c0.Some?);
    } else {
      es := ByCloser(s, key, c, s.conns[c].place, c0);
    }
  }

  lemma WithinLimitAnswered(s: State, key: nat, c0: Option<DriverConn>) returns (es: seq<Event>)
    requires Pending(s, key) && Within(s) && Spare(s, c0) && s.numOpen > |s.free|
    ensures Answers(s, key, c0.Some?, es)
  {
    hide Inv, Answers;
    NotAllIdle(s);
    if s.tokens + s.openerDials > 0 {
      es := ByToken(s, key, c0);
    } else if s.dials > 0 {
      es := ByDial(s, key, c0);
    } else {
      var c :| c in s.conns && s.conns[c].place != Idle;
      es := ByConn(s, key, c, c0);
    }
  }

  // --- above a limit that was lowered --------------------------------------------------------

  /** The request is pending above the limit, and an answer is within reach. */
  ghost predicate Above(s: State, key: nat, c0: Option<DriverConn>) {
    Pending(s, key) && s.maxOpen > 0 && s.numOpen > s.maxOpen && Spare(s, c0) && Reach(s, c0.Some?)
  }

  /** One less is open; the idle list, the limit and the requests are as they were. */
  ghost predicate OneLess(s: State, t: State, openers: nat) {
    && !t.closed && t.maxOpen == s.maxOpen && t.numOpen == s.numOpen - 1 && t.requests == s.requests
    && t.free == s.free && t.conns.Keys <= s.conns.Keys && t.tokens + t.openerDials == openers
  }

  lemma NoRoomSendsNone(s: State)
    requires s.maxOpen > 0 && s.numOpen >= s.maxOpen
    ensures MaybeOpenNewConnections(s) == s
  {
  }

  lemma DialShed(s: State)
    requires Inv(s) && !s.closed && s.maxOpen > 0 && s.numOpen > s.maxOpen && s.dials > 0
    ensures Enabled(s, DialFails) && GoesOn(DialFails) && OneLess(s, Step(s, DialFails), s.tokens + s.openerDials)
  {
    NoRoomSendsNone(s.(numOpen := s.numOpen - 1, dials := s.dials - 1));
    hide Inv, StepPut, StepClose, StepAdmin, MaybeOpenNewConnections, WithinLimit;
  }

  lemma SlotShed(s: State, c: DriverConn)
    requires Inv(s) && !s.closed && s.maxOpen > 0 && s.numOpen > s.maxOpen && At(s, c, Finalized)
    ensures Enabled(s, GiveSlotBack(c)) && GoesOn(GiveSlotBack(c))
    ensures OneLess(s, Step(s, GiveSlotBack(c)), s.tokens + s.openerDials)
  {
    NoRoomSendsNone(s.(conns := s.conns - {c}, numOpen := s.numOpen - 1));
    hide Inv, StepPut, StepConn, StepAdmin, MaybeOpenNewConnections, WithinLimit;
  }

  /** The opener's dial ends above the limit: its connection is refused, or its error reaches nobody. */
  lemma OpenerShed(s: State, key: nat, c0: Option<DriverConn>)
    requires Pending(s, key) && Spare(s, c0) && s.openerDials > 0 && s.maxOpen > 0 && s.numOpen > s.maxOpen
    requires c0.None? ==> s.numOpen > s.maxOpen + 1
    ensures var e := OpenerAnswered(DriverSays(c0), 0, key);
      Enabled(s, e) && GoesOn(e) && OneLess(s, Step(s, e), s.tokens + s.openerDials - 1)
  {
    PendingFact(s, key);
    CallFacts(s, OpenerAnswered(DriverSays(c0), 0, key));
    if c0.None? {
      NoRoomSendsNone(s.(openerDials := s.openerDials - 1, numOpen := s.numOpen - 1));
    }
    hide Inv, StepConn, StepClose, StepAdmin, PutConn, OneAnswer, WithinLimit, MaybeOpenNewConnections;
  }

  /** After one less the way goes on, above the limit or within it. */
  lemma AfterOneLess(s: State, e: Event, key: nat, c0: Option<DriverConn>, openers: nat) returns (es: seq<Event>)
    requires Above(s, key, c0) && Enabled(s, e) && GoesOn(e) && OneLess(s, Step(s, e), openers)
    requires |s.free| == s.maxOpen ==> s.numOpen > s.maxOpen + 1 && openers > 0
    ensures Answers(s, key, c0.Some?, es)
    decreases s.numOpen, 0
  {
    hide Inv, Enabled, Step, Answers, GoesOn;
    StepInv(s, e);
    var t := Step(s, e);
    if t.numOpen > t.maxOpen {
      es := AboveAnswered(t, key, c0);
    } else {
      es := WithinLimitAnswered(t, key, c0);
    }
    es := Nearer(s, e, key, c0.Some?, es);
  }

  /** A connection that is not idle goes through Close. */
  lemma {:induction false} ConnShed(s: State, key: nat, c: DriverConn, p: Place, c0: Option<DriverConn>)
    returns (es: seq<Event>)
    requires Above(s, key, c0) && At(s, c, p) && (p == Held || InClosing(p))
    requires |s.free| == s.maxOpen ==> s.numOpen > s.maxOpen + 1
    ensures Answers(s, key, c0.Some?, es)
    decreases s.numOpen, 1 + PartsLeft(p)
  {
    hide Inv, Enabled, Step, Answers, Moving, GoesOn, At;
    if p == Finalized {
      SlotShed(s, c);
      es := AfterOneLess(s, GiveSlotBack(c), key, c0, s.tokens + s.openerDials);
    } else {
      var n := NextPart(c, p);
      PartDone(s, c, p);
      MovingKeeps(s, n.0, key);
      es := ConnShed(Step(s, n.0), key, c, n.1, c0);
      es := Nearer(s, n.0, key, c0.Some?, es);
    }
  }

  lemma AnyConnShed(s: State, key: nat, c: DriverConn, c0: Option<DriverConn>) returns (es: seq<Event>)
    requires Above(s, key, c0) && c in s.conns && s.conns[c].place != Idle
    requires |s.free| == s.maxOpen ==> s.numOpen > s.maxOpen + 1
    ensures Answers(s, key, c0.Some?, es)
    decreases s.numOpen, 6
  {
    hide Inv, Enabled, Step, Answers, Moving, GoesOn;
    if s.conns[c].place.InChan? {
      var e := TakenOut(s, c);
      MovingKeeps(s, e, key);
      es := ConnShed(Step(s, e), key, c, Held, c0);
      es := Nearer(s, e, key, c0.Some?, es);
    } else {
      es := ConnShed(s, key, c, s.conns[c].place, c0);
    }
  }

  /** The opening that answers with an error, or is one less. */
  lemma OpeningEnds(s: State, key: nat, c0: Option<DriverConn>) returns (es: seq<Event>)
    requires Above(s, key, c0) && s.openerDials > 0
    requires |s.free| == s.maxOpen && s.numOpen > s.maxOpen + 1 ==> s.tokens + s.openerDials > 1
    ensures Answers(s, key, c0.Some?, es)
    decreases s.numOpen, 1
  {
    hide Inv, Enabled, Step, Answered, Answers, GoesOn;
    var e := OpenerAnswered(DriverSays(c0), 0, key);
    if c0.None? && s.numOpen == s.maxOpen + 1 {
      OpenerAnswers(s, key, c0);
      es := Arrived(s, e, key, false);
    } else {
      OpenerShed(s, key, c0);
      es := AfterOneLess(s, e, key, c0, s.tokens + s.openerDials - 1);
    }
  }

  lemma AnyOpeningEnds(s: State, key: nat, c0: Option<DriverConn>) returns (es: seq<Event>)
    requires Above(s, key, c0) && s.tokens + s.openerDials > 0
    requires |s.free| == s.maxOpen && s.numOpen > s.maxOpen + 1 ==> s.tokens + s.openerDials > 1
    ensures Answers(s, key, c0.Some?, es)
    decreases s.numOpen, 2
  {
    hide Inv, Enabled, Step, Answers, Moving, GoesOn;
    if s.openerDials > 0 {
      es := OpeningEnds(s, key, c0);
    } else {
      TokenTaken(s);
      MovingKeeps(s, OpenerTakesToken, key);
      es := OpeningEnds(Step(s, OpenerTakesToken), key, c0);
      es := Nearer(s, OpenerTakesToken, key, c0.Some?, es);
    }
  }

  /** First what is neither idle nor an opening, then the openings. */
  lemma AboveAnswered(s: State, key: nat, c0: Option<DriverConn>) returns (es: seq<Event>)
    requires Above(s, key, c0)
    ensures Answers(s, key, c0.Some?, es)
    decreases s.numOpen, 7
  {
    hide Inv, Enabled, Step, Answers, GoesOn;
    NotAllIdle(s);
    UnitsCount(s);
    if s.tokens + s.openerDials > 0 && c0.None? && s.numOpen == s.maxOpen + 1 {
      es := AnyOpeningEnds(s, key, c0);
    } else if s.dials > 0 {
      DialShed(s);
      es := AfterOneLess(s, DialFails, key, c0, s.tokens + s.openerDials);
    } else if c :| c in s.conns && s.conns[c].place != Idle {
      es := AnyConnShed(s, key, c, c0);
    } else {
      es := AnyOpeningEnds(s, key, c0);
    }
  }

  /** With neither a dial nor a busy connection, all that is not idle is openings. */
  lemma UnitsCount(s: State)
    requires Inv(s) && !s.closed
    ensures s.dials == 0 && (forall c :: c in s.conns ==> s.conns[c].place == Idle) ==>
              s.tokens + s.openerDials == s.numOpen - |s.free|
  {
    IdleSplit(s);
    CountFact(s);
    hide Inv;
    if forall c :: c in s.conns ==> s.conns[c].place == Idle {
      assert OffIdle(s) == {};
    }
  }

  // --- no way --------------------------------------------------------------------------------

  /** All that is open is idle, and the request has not been answered. */
  ghost predicate Stuck(s: State, key: nat) {
    Inv(s) && !s.closed && s.numOpen == |s.free| && (key in s.waiting ==> s.waiting[key].chan == Empty)
  }

  /** All that can go on is that other waiters take errors from their channels, or give up. */
  lemma StuckEvents(s: State, e: Event, key: nat)
    requires Stuck(s, key) && Enabled(s, e) && GoesOn(e)
    ensures e.WaiterReceives? || e.WaiterCancels? || e.WaiterDrains?
    ensures !e.WaiterCancels? && s.waiting[e.key].chan.Sent? ==> s.waiting[e.key].chan.conn.None?
  {
    NotAllIdle(s);
    if (e.WaiterReceives? || e.WaiterDrains?) && s.waiting[e.key].chan.Sent? {
      ChannelFact(s, e.key);
    }
    hide Inv;
  }

  lemma StuckStep(s: State, e: Event, key: nat)
    requires Stuck(s, key) && Enabled(s, e) && GoesOn(e)
    ensures Stuck(Step(s, e), key)
  {
    StuckEvents(s, e, key);
    StepInv(s, e);
    CallFacts(s, e);
    hide Inv, StepPut, StepClose, StepAdmin, ConnBegin, DialFailed, DialSucceeded, Claim, WithinLimit;
  }

  lemma {:induction false} StuckRun(s: State, es: seq<Event>, key: nat)
    requires Stuck(s, key) && CanRun(s, es) && AllGoOn(es)
    ensures Stuck(Run(s, es), key)
    decreases |es|
  {
    if es != [] {
      hide Inv, Enabled, Step, GoesOn;
      StepInv(s, es[0]);
      StuckStep(s, es[0], key);
      StuckRun(Step(s, es[0]), es[1..], key);
    }
  }

  /** The idle connections fill the limit, and nothing that the request wants can come from openings. */
  ghost predicate Full(s: State, key: nat, want: bool) {
    && Inv(s) && !s.closed && s.maxOpen > 0 && |s.free| >= s.maxOpen && !Answered(s, key, want)
    && (want || |s.free| > s.maxOpen || s.tokens + s.openerDials == 0)
  }

  /** What a step leaves as it was when the pool is full. */
  ghost predicate StaysFull(s: State, t: State, key: nat, want: bool) {
    && !t.closed && t.maxOpen == s.maxOpen && t.free == s.free && !Answered(t, key, want)
    && t.tokens + t.openerDials <= s.tokens + s.openerDials
  }

  lemma FullMoving(s: State, e: Event, key: nat, want: bool)
    requires Full(s, key, want) && Enabled(s, e) && Moving(e)
    ensures StaysFull(s, Step(s, e), key, want)
  {
    hide Inv, Step, Enabled;
    AnsweredAtMostOnce(s, e);
    if InConn(e) {
      MovingConn(s, e);
      PassingConn(s, e);
      MovingWaiting(s, e);
    } else {
      MovingOther(s, e);
      PassingOther(s, e);
      AloofStep(s, e);
    }
  }

  lemma MovingWaiting(s: State, e: Event)
    requires Inv(s) && Enabled(s, e) && (e.WaiterReceives? || e.WaiterDrains?)
    ensures Step(s, e).waiting == s.waiting - {e.key}
  {
    CallFacts(s, e);
    hide Inv, StepPut, StepClose, StepAdmin, ConnBegin, DialFailed, DialSucceeded, CancelBegin, WithinLimit, Expired;
  }

  lemma FullDials(s: State, e: Event, key: nat, want: bool)
    requires Full(s, key, want) && Enabled(s, e) && (e.DialFails? || e.DialSucceeds? || e.WaiterCancels?)
    ensures StaysFull(s, Step(s, e), key, want)
  {
    NotAllIdle(s);
    if e.DialFails? {
      NoRoomSendsNone(s.(numOpen := s.numOpen - 1, dials := s.dials - 1));
    }
    hide Inv, StepPut, StepClose, StepAdmin, ConnBegin, Receive, CancelEnd, MaybeOpenNewConnections, WithinLimit;
  }

  lemma FullGivesBack(s: State, c: DriverConn, key: nat, want: bool)
    requires Full(s, key, want) && Enabled(s, GiveSlotBack(c))
    ensures StaysFull(s, Step(s, GiveSlotBack(c)), key, want)
  {
    NotAllIdle(s);
    NoRoomSendsNone(s.(conns := s.conns - {c}, numOpen := s.numOpen - 1));
    hide Inv, StepPut, StepConn, StepAdmin, MaybeOpenNewConnections, WithinLimit;
  }

  lemma FullPuts(s: State, e: Event, key: nat, want: bool)
    requires Full(s, key, want) && Enabled(s, e) && e.PutBack?
    ensures StaysFull(s, Step(s, e), key, want)
  {
    NotAllIdle(s);
    RecordFact(s, e.dc);
    CallFacts(s, e);
    NoRoomSendsNone(TakeIn(s, e.dc, e.err, e.now).0);
    hide Inv, StepClose, StepConn, StepAdmin, MaybeOpenNewConnections, OpenerDone, OneAnswer, WithinLimit, Expired;
  }

  lemma FullOpens(s: State, e: Event, key: nat, want: bool)
    requires Full(s, key, want) && Enabled(s, e) && e.OpenerAnswered?
    ensures StaysFull(s, Step(s, e), key, want)
  {
    NotAllIdle(s);
    CallFacts(s, e);
    if e.res.Ok? {
      ConnRefused(s, e.res.value, e.now, e.pick);
    } else {
      ErrorHandedOut(s, e.res.error, e.now, e.pick);
      ErrorIsNoConn(s, e.res.error, e.pick, key, want);
    }
    hide Inv, StepClose, StepConn, StepAdmin, OpenerDone, OpenerTake, PutConn, PutConnDBLocked, OneAnswer, WithinLimit;
  }

  /** The opener's connection is thrown away above the limit. */
  lemma ConnRefused(s: State, dc: DriverConn, now: int, pick: nat)
    requires OpenerDone.requires(s, Ok(dc), now, pick) && !s.closed && s.maxOpen > 0 && s.numOpen > s.maxOpen
    ensures OpenerDone(s, Ok(dc), now, pick) == s.(openerDials := s.openerDials - 1, numOpen := s.numOpen - 1)
  {
    hide WithinLimit, OneAnswer;
  }

  /** Its error goes to some waiter or to nobody, and makes no room. */
  lemma ErrorHandedOut(s: State, err: Err, now: int, pick: nat)
    requires OpenerDone.requires(s, Fail(err), now, pick) && !s.closed && s.maxOpen > 0 && s.numOpen > s.maxOpen
    ensures var s1 := s.(openerDials := s.openerDials - 1, numOpen := s.numOpen - 1);
      OpenerDone(s, Fail(err), now, pick) == PutConnDBLocked(s1, None, Some(err), pick).0
  {
    NoRoomSendsNone(PutConnDBLocked(s.(openerDials := s.openerDials - 1, numOpen := s.numOpen - 1),
                                    None, Some(err), pick).0);
    hide WithinLimit, OneAnswer, MaybeOpenNewConnections;
  }

  lemma ErrorIsNoConn(s: State, err: Err, pick: nat, key: nat, want: bool)
    requires !s.closed && s.openerDials > 0 && s.maxOpen > 0 && s.numOpen > s.maxOpen && !Answered(s, key, want)
    requires s.requests != {} ==> pick in s.requests && pick in s.waiting
    requires want || s.numOpen - 1 > s.maxOpen
    ensures var s1 := s.(openerDials := s.openerDials - 1, numOpen := s.numOpen - 1);
      var t := PutConnDBLocked(s1, None, Some(err), pick).0;
      && !t.closed && t.maxOpen == s.maxOpen && t.free == s.free && !Answered(t, key, want)
      && t.tokens == s.tokens && t.openerDials == s.openerDials - 1
  {
    hide WithinLimit, OneAnswer;
  }

  lemma FullStep(s: State, e: Event, key: nat, want: bool)
    requires Full(s, key, want) && Enabled(s, e) && GoesOn(e)
    ensures Full(Step(s, e), key, want)
  {
    hide Inv, Enabled, Step, Answered;
    StepInv(s, e);
    if Moving(e) {
      FullMoving(s, e, key, want);
    } else if e.PutBack? {
      FullPuts(s, e, key, want);
    } else if e.OpenerAnswered? {
      FullOpens(s, e, key, want);
    } else if e.GiveSlotBack? {
      FullGivesBack(s, e.dc, key, want);
    } else {
      FullDials(s, e, key, want);
    }
  }

  lemma {:induction false} FullRun(s: State, es: seq<Event>, key: nat, want: bool)
    requires Full(s, key, want) && CanRun(s, es) && AllGoOn(es)
    ensures Full(Run(s, es), key, want)
    decreases |es|
  {
    if es != [] {
      hide Inv, Enabled, Step, GoesOn, Answered;
      StepInv(s, es[0]);
      FullStep(s, es[0], key, want);
      FullRun(Step(s, es[0]), es[1..], key, want);
    }
  }

  // --- exactly when --------------------------------------------------------------------------

  lemma OutOfReach(s: State, key: nat, want: bool, es: seq<Event>)
    requires Pending(s, key) && !Reach(s, want) && CanRun(s, es) && AllGoOn(es)
    ensures !Answered(Run(s, es), key, want)
  {
    hide Inv, CanRun, Run, AllGoOn;
    NotAllIdle(s);
    PendingFact(s, key);
    if s.numOpen == |s.free| {
      StuckRun(s, es, key);
    } else {
      FullRun(s, es, key, want);
    }
  }

  lemma InReach(s: State, key: nat, c0: Option<DriverConn>) returns (es: seq<Event>)
    requires Pending(s, key) && Spare(s, c0) && Reach(s, c0.Some?)
    ensures Answers(s, key, c0.Some?, es)
  {
    hide Inv, Answers;
    if Within(s) {
      es := WithinLimitAnswered(s, key, c0);
    } else {
      es := AboveAnswered(s, key, c0);
    }
  }

  /**
   A pending request of an open pool, above its limit or within it, can still be answered, without a
   new caller, a change of limits or the cleaner, if and only if an answer is within reach: more is
   open than idle, and the idle connections leave room under the limit, or just fill it while an
   opening is under way.
   */
  lemma AnswerableIff(s: State, key: nat)
    requires Pending(s, key)
    ensures (exists es :: Answers(s, key, false, es)) <==> Reach(s, false)
  {
    hide Inv, Reach, CanRun, Run;
    if Reach(s, false) {
      var es := InReach(s, key, None);
    } else {
      forall es | CanRun(s, es) && AllGoOn(es) ensures !Answers(s, key, false, es) {
        OutOfReach(s, key, false, es);
      }
    }
  }

  /**
   And it can be given a connection, if the driver has one to give, if and only if more is open than
   idle and the idle connections leave room under the limit.
   */
  lemma DeliverableIff(s: State, key: nat, c0: DriverConn)
    requires Pending(s, key) && c0 !in s.conns
    ensures (exists es :: Answers(s, key, true, es)) <==> Reach(s, true)
  {
    hide Inv, Reach, CanRun, Run;
    if Reach(s, true) {
      var es := InReach(s, key, Some(c0));
    } else {
      forall es | CanRun(s, es) && AllGoOn(es) ensures !Answers(s, key, true, es) {
        OutOfReach(s, key, true, es);
      }
    }
  }

  /** Within the limit both come to this: more is open than idle. */
  lemma ReachWithin(s: State, want: bool)
    requires Within(s)
    ensures Reach(s, want) <==> s.numOpen > |s.free|
  {
  }

  /** A fixed limit is kept to. */
  lemma ScheduleFits(connectionPool: int, es: seq<Event>)
    requires Schedule(connectionPool, es) && FixedLimit(es)
    ensures Within(After(connectionPool, es))
  {
    OpenDBInv(connectionPool);
    OpenLimitRun(OpenDB(connectionPool), es);
  }

  /**
   After any schedule under the limit openDB set: every caller that would have taken an idle
   connection can still be answered, and given a connection if the driver has one; one that insists
   on a new connection exactly if more is open than idle.
   */
  lemma WaiterCanBeAnswered(connectionPool: int, es: seq<Event>, key: nat, c0: DriverConn)
    requires Schedule(connectionPool, es) && FixedLimit(es)
    requires !After(connectionPool, es).closed && key in After(connectionPool, es).requests
    ensures var s := After(connectionPool, es);
      && key in s.waiting
      && ((exists more :: Answers(s, key, false, more)) <==> s.numOpen > |s.free|)
      && (c0 !in s.conns ==> ((exists more :: Answers(s, key, true, more)) <==> s.numOpen > |s.free|))
      && (s.waiting[key].strategy == CachedOrNewConn ==> s.numOpen > |s.free|)
  {
    hide Inv, CanRun, Run, Answers, NoStranded, OpenDB, Reach, Within;
    ScheduleFits(connectionPool, es);
    NoStrandedWaiter(connectionPool, es);
    var s := After(connectionPool, es);
    PendingFact(s, key);
    AnswerableIff(s, key);
    if c0 !in s.conns {
      DeliverableIff(s, key, c0);
    }
    ReachWithin(s, false);
    ReachWithin(s, true);
    WaiterHasServer(s, key);
  }

  /** conn makes its caller wait: the limit is used up, and it may not or cannot take an idle connection. */
  predicate MustQueue(s: State, strategy: Strategy) {
    !s.closed && s.maxOpen > 0 && s.numOpen >= s.maxOpen && (strategy == AlwaysNewConn || s.free == [])
  }

  /**
   What a caller can know before it asks: if it would have to wait, it can be answered if and only if
   an answer is within reach already. For one that takes idle connections this is always so.
   */
  lemma AskerCanBeAnsweredIff(s: State, strategy: Strategy, now: int)
    requires Inv(s) && MustQueue(s, strategy)
    ensures var t := Step(s, ConnEnter(false, strategy, now));
      && Inv(t) && s.nextRequest in t.requests
      && ((exists more :: Answers(t, s.nextRequest, false, more)) <==> Reach(s, false))
      && (strategy == CachedOrNewConn ==> Reach(s, false))
  {
    AskQueues(s, strategy, now);
    hide Inv, Answers, Step;
    AnswerableIff(Step(s, ConnEnter(false, strategy, now)), s.nextRequest);
  }

  lemma AskQueues(s: State, strategy: Strategy, now: int)
    requires Inv(s) && MustQueue(s, strategy)
    ensures var t := Step(s, ConnEnter(false, strategy, now));
      && Pending(t, s.nextRequest) && t.numOpen == s.numOpen && t.free == s.free && t.maxOpen == s.maxOpen
      && t.tokens == s.tokens && t.openerDials == s.openerDials
  {
    StepInv(s, ConnEnter(false, strategy, now));
    hide Inv, StepPut, StepClose, StepAdmin, WithinLimit, Claim;
  }

  // --- a caller that insists on a new connection ---------------------------------------------

  /** A pool of size one whose only connection is in a caller's hands. */
  ghost predicate OneHeld(s: State, c: DriverConn) {
    Lone(s, 1) && At(s, c, Held) && MaxIdle(s) == 1
  }

  lemma OneDialled(s: State, c: DriverConn)
    requires s == OpenDB(1) && Inv(s)
    ensures var ask := ConnEnter(false, CachedOrNewConn, 0);
      && Enabled(s, ask) && Inv(Step(s, ask)) && Enabled(Step(s, ask), DialSucceeds(c, 0))
      && OneHeld(Step(Step(s, ask), DialSucceeds(c, 0)), c)
  {
    var ask := ConnEnter(false, CachedOrNewConn, 0);
    AskDials(s);
    PoolLeak.AskEnabled(s, CachedOrNewConn);
    var s1 := Step(s, ask);
    DialHolds(s1, c);
    PoolLeak.DialIsHeld(s1, c);
    KeepsIdleLimit(s, ask);
    KeepsIdleLimit(s1, DialSucceeds(c, 0));
    assert MaxIdle(s) == 1;
    hide Inv, Step, OpenDB, Enabled;
  }

  lemma KeepsIdleLimit(s: State, e: Event)
    requires Inv(s) && Enabled(s, e) && (e.ConnEnter? || e.DialSucceeds?)
    ensures MaxIdle(Step(s, e)) == MaxIdle(s)
  {
    hide Inv, StepPut, StepClose, StepAdmin, WithinLimit, Expired;
  }

  /** A pool of size one, full and idle, with nobody waiting. */
  ghost predicate FullAndIdle(s: State) {
    Inv(s) && !s.closed && s.maxOpen == 1 && s.numOpen == 1 && |s.free| == 1
  }

  lemma PutMakesIdle(s: State, c: DriverConn)
    requires OneHeld(s, c)
    ensures var e := PutBack(c, None, s.conns[c].createdAt, 0);
      Enabled(s, e) && FullAndIdle(Step(s, e))
  {
    var e := PutBack(c, None, s.conns[c].createdAt, 0);
    RecordFact(s, c);
    PutAppends(s, c);
    PutEnabled(s, e);
    StepInv(s, e);
    hide Inv, StepConn, StepClose, StepAdmin, PutConn, OneAnswer, WithinLimit, Enabled;
  }

  lemma PutEnabled(s: State, e: Event)
    requires Inv(s) && e.PutBack? && At(s, e.dc, Held) && s.requests == {}
    ensures Enabled(s, e)
  {
  }

  /** With nobody waiting and nothing idle it goes to the idle list. */
  lemma PutAppends(s: State, c: DriverConn)
    requires OneHeld(s, c) && s.conns[c].inUse
    ensures var r := PutConn(s, c, None, s.conns[c].createdAt, 0).0;
      !r.closed && r.maxOpen == 1 && r.numOpen == 1 && |r.free| == 1
  {
    hide Inv, OneAnswer, WithinLimit, MaybeOpenNewConnections;
  }

  /**
   And for a caller that insists on a new connection it is not always so: the only connection has
   been put back and is idle, the caller queues, and nothing that goes on can answer it.
   */
  lemma NewConnCallerStuck(c: DriverConn) returns (es: seq<Event>, key: nat)
    ensures Schedule(1, es) && FixedLimit(es)
    ensures var s := After(1, es);
      && !s.closed && key in s.requests && s.numOpen == |s.free|
      && (forall more :: !Answers(s, key, false, more))
  {
    OpenDBInv(1);
    hide Inv, CanRun, Run, Step, OpenDB, Enabled, Answers;
    var s0 := OpenDB(1);
    var ask := ConnEnter(false, CachedOrNewConn, 0);
    var insist := ConnEnter(false, AlwaysNewConn, 0);
    OneDialled(s0, c);
    var s1 := Step(s0, ask);
    var s2 := Step(s1, DialSucceeds(c, 0));
    var put := PutBack(c, None, s2.conns[c].createdAt, 0);
    PutMakesIdle(s2, c);
    var s3 := Step(s2, put);
    PoolLeak.AskEnabled(s3, AlwaysNewConn);
    AskerCanBeAnsweredIff(s3, AlwaysNewConn, 0);
    AskQueues(s3, AlwaysNewConn, 0);
    var end := Step(s3, insist);
    key := s3.nextRequest;
    RunNone(end);
    es := Front(s3, insist, [], end);
    es := Front(s2, put, es, end);
    es := Front(s1, DialSucceeds(c, 0), es, end);
    es := Front(s0, ask, es, end);
    assert es == [ask, DialSucceeds(c, 0), put, insist];
  }
}

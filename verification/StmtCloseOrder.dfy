/**
 One driver connection and the statements that pool statements prepared on it. The connection is
 taken, used and put back; statements are prepared on it, later given up by their owner, and the
 connection itself is closed, all in any interleaving. The pool's mutex is held over several steps
 by putConn and by noteUnusedDriverStatement; the connection's own lock covers one step each.
 */
module StmtCloseState {

  /** A statement's way through Stmt.finalClose: cached, being noted, noted, unregistered. */
  datatype Use = Cached | Noting | Noted | Removed

  /** Who has the connection, and how far its finalClose is. */
  datatype Owner = Pool | Caller | Marked | Closing(todo: set<nat>) | Done

  /** Who holds the pool's mutex across steps. */
  datatype Holder = Nobody | Putting | Checking(ds: nat) | AboutToClose(ds: nat)

  datatype Call = StmtClose(ds: nat) | ConnClose

  datatype State = State(
    inUse: bool,
    onPut: seq<nat>,
    openStmt: set<nat>,
    finalClosed: bool,
    closed: set<nat>,              // driver statements whose closed flag is set
    stmts: map<nat, Use>,
    owner: Owner,
    holder: Holder,
    log: seq<Call>)                // calls into the driver, in order

  /** A connection fresh from the driver: with the caller that dialled it, or dialled by the opener. */
  function Dialled(byCaller: bool): State {
    State(byCaller, [], {}, false, {}, map[], if byCaller then Caller else Pool, Nobody, [])
  }

  datatype Event =
    | Taken
    | Prepares(ds: nat)
    | PutBegins
    | PutRunsOne
    | PutEnds(discard: bool)
    | Discarded
    | NoteBegins(ds: nat)
    | NoteChecks(ds: nat)
    | NoteCloses(ds: nat)
    | Unregisters(ds: nat)
    | CloserCopies
    | CloserClosesOne(ds: nat)
    | CloserClosesConn

  predicate UseIs(s: State, ds: nat, u: Use) {
    ds in s.stmts && s.stmts[ds] == u
  }

  predicate Enabled(s: State, e: Event) {
    match e
    case Taken => s.owner == Pool && s.holder == Nobody
    case Prepares(ds) => s.owner == Caller && s.holder != Putting && ds !in s.stmts
    case PutBegins => s.owner == Caller && s.holder == Nobody
    case PutRunsOne => s.holder == Putting && s.onPut != []
    case PutEnds(_) => s.holder == Putting && s.onPut == []
    // a caller or the pool decides to close; the mutex is not needed for that decision
    case Discarded => (s.owner == Caller || s.owner == Pool) && s.holder != Putting
    case NoteBegins(ds) => UseIs(s, ds, Cached) && s.holder == Nobody
    case NoteChecks(ds) => s.holder == Checking(ds)
    case NoteCloses(ds) => s.holder == AboutToClose(ds)
    case Unregisters(ds) => UseIs(s, ds, Noted)
    case CloserCopies => s.owner == Marked
    case CloserClosesOne(ds) => s.owner.Closing? && ds in s.owner.todo
    case CloserClosesConn => s.owner == Closing({})
  }

  /** driverStmt.Close: the driver hears of it the first time only. */
  function CloseStmt(s: State, ds: nat): State {
    if ds in s.closed then s else s.(closed := s.closed + {ds}, log := s.log + [StmtClose(ds)])
  }

  function Step(s: State, e: Event): State
    requires Enabled(s, e)
  {
    match e
    case Taken => s.(owner := Caller, inUse := true)
    case Prepares(ds) => s.(stmts := s.stmts[ds := Cached], openStmt := s.openStmt + {ds})
    case PutBegins => s.(inUse := false, holder := Putting)
    case PutRunsOne => CloseStmt(s, s.onPut[0]).(onPut := s.onPut[1..])
    case PutEnds(discard) => s.(owner := if discard then Marked else Pool, holder := Nobody)
    case Discarded => s.(owner := Marked)
    case NoteBegins(ds) =>
      if s.inUse then s.(onPut := s.onPut + [ds], stmts := s.stmts[ds := Noted])
      else s.(holder := Checking(ds), stmts := s.stmts[ds := Noting])
    case NoteChecks(ds) =>
      if s.finalClosed then s.(holder := Nobody, stmts := s.stmts[ds := Noted])
      else s.(holder := AboutToClose(ds))
    case NoteCloses(ds) => CloseStmt(s, ds).(holder := Nobody, stmts := s.stmts[ds := Noted])
    case Unregisters(ds) => s.(openStmt := s.openStmt - {ds}, stmts := s.stmts[ds := Removed])
    case CloserCopies => s.(openStmt := {}, owner := Closing(s.openStmt))
    case CloserClosesOne(ds) => CloseStmt(s, ds).(owner := Closing(s.owner.todo - {ds}))
    case CloserClosesConn => s.(finalClosed := true, owner := Done, log := s.log + [ConnClose])
  }

  ghost predicate CanRun(s: State, es: seq<Event>)
    decreases |es|
  {
    es == [] || (Enabled(s, es[0]) && CanRun(Step(s, es[0]), es[1..]))
  }

  ghost function Run(s: State, es: seq<Event>): State
    requires CanRun(s, es)
    decreases |es|
  {
    if es == [] then s else Run(Step(s, es[0]), es[1..])
  }
}

module StmtCloseTheorems {
  import opened StmtCloseState

  /** Nobody has copied the list of open statements yet. */
  predicate BeforeCopy(s: State) {
    s.owner.Pool? || s.owner.Caller? || s.owner.Marked?
  }

  /** Its owner may still close it through noteUnusedDriverStatement. */
  predicate Unnoted(s: State, ds: nat) {
    UseIs(s, ds, Cached) || UseIs(s, ds, Noting)
  }

  /** The driver has been told what the flags say, each thing once, the connection last. */
  ghost predicate LogOk(s: State) {
    && (forall ds :: ds in s.closed <==> StmtClose(ds) in s.log)
    && (forall i, j :: 0 <= i < j < |s.log| ==> s.log[i] != s.log[j])
    && (forall i :: 0 <= i < |s.log| - 1 ==> s.log[i] != ConnClose)
    && (s.finalClosed <==> ConnClose in s.log)
    && (s.finalClosed ==> s.log[|s.log| - 1] == ConnClose)
  }

  ghost predicate HolderOk(s: State) {
    && (s.finalClosed <==> s.owner.Done?)
    && (s.holder == Putting ==> s.owner == Caller && !s.inUse)
    && (s.holder != Putting && s.owner == Caller ==> s.inUse)
    && (s.owner == Pool ==> !s.inUse)
    && (forall ds :: UseIs(s, ds, Noting) <==> s.holder == Checking(ds) || s.holder == AboutToClose(ds))
    && (!s.inUse && s.holder != Putting ==> s.onPut == [])
    && (forall i :: 0 <= i < |s.onPut| ==> UseIs(s, s.onPut[i], Noted) || UseIs(s, s.onPut[i], Removed))
  }

  /** Every statement that may still be closed by its owner is one the connection will close first. */
  ghost predicate CoverOk(s: State) {
    && (forall ds :: ds in s.stmts && BeforeCopy(s) ==>
          && (s.stmts[ds] == Removed || ds in s.openStmt)
          && (Unnoted(s, ds) || ds in s.closed || ds in s.onPut))
    && (forall ds :: s.owner.Closing? && Unnoted(s, ds) ==> ds in s.owner.todo || ds in s.closed)
    && (forall ds :: s.owner.Done? && Unnoted(s, ds) ==> ds in s.closed)
    && s.openStmt <= s.stmts.Keys && s.closed <= s.stmts.Keys
    && (s.owner.Closing? ==> s.owner.todo <= s.stmts.Keys)
  }

  ghost predicate Inv(s: State) {
    LogOk(s) && HolderOk(s) && CoverOk(s)
  }

  /** A close that the driver hears of happens while the connection is open. */
  lemma CloseStmtLog(s: State, ds: nat)
    requires LogOk(s) && (s.finalClosed ==> ds in s.closed)
    ensures LogOk(CloseStmt(s, ds))
  {
    if ds !in s.closed {
      var t := CloseStmt(s, ds);
      assert ConnClose !in s.log;
      assert StmtClose(ds) !in s.log;
      assert forall x :: x in t.log <==> x in s.log || x == StmtClose(ds);
    }
  }

  lemma StepLog(s: State, e: Event)
    requires Inv(s) && Enabled(s, e)
    ensures LogOk(Step(s, e))
  {
    if e.PutRunsOne? {
      CloseStmtLog(s, s.onPut[0]);
    } else if e.NoteCloses? || e.CloserClosesOne? {
      CloseStmtLog(s, e.ds);
    } else if e.CloserClosesConn? {
      assert ConnClose !in s.log;
      var t := Step(s, e);
      assert forall x :: x in t.log <==> x in s.log || x == ConnClose;
    }
  }

  predicate OfMutex(e: Event) {
    e.PutBegins? || e.PutRunsOne? || e.PutEnds? || e.NoteBegins? || e.NoteChecks? || e.NoteCloses?
  }

  lemma StepHolderMutex(s: State, e: Event)
    requires HolderOk(s) && Enabled(s, e) && OfMutex(e)
    ensures HolderOk(Step(s, e))
  {
  }

  lemma StepHolderOther(s: State, e: Event)
    requires HolderOk(s) && Enabled(s, e) && !OfMutex(e)
    ensures HolderOk(Step(s, e))
  {
  }

  lemma StepHolder(s: State, e: Event)
    requires Inv(s) && Enabled(s, e)
    ensures HolderOk(Step(s, e))
  {
    hide LogOk, CoverOk, HolderOk, Enabled, Step;
    if OfMutex(e) {
      StepHolderMutex(s, e);
    } else {
      StepHolderOther(s, e);
    }
  }

  lemma StepCoverMutex(s: State, e: Event)
    requires Inv(s) && Enabled(s, e) && OfMutex(e)
    ensures CoverOk(Step(s, e))
  {
    hide LogOk;
    if e.PutRunsOne? {
      assert s.onPut == [s.onPut[0]] + s.onPut[1..];
    }
  }

  lemma StepCoverOther(s: State, e: Event)
    requires Inv(s) && Enabled(s, e) && !OfMutex(e)
    ensures CoverOk(Step(s, e))
  {
    hide LogOk;
  }

  lemma StepCover(s: State, e: Event)
    requires Inv(s) && Enabled(s, e)
    ensures CoverOk(Step(s, e))
  {
    hide Inv, CoverOk, Enabled, Step;
    if OfMutex(e) {
      StepCoverMutex(s, e);
    } else {
      StepCoverOther(s, e);
    }
  }

  lemma StepInv(s: State, e: Event)
    requires Inv(s) && Enabled(s, e)
    ensures Inv(Step(s, e))
  {
    hide LogOk, HolderOk, CoverOk, Enabled, Step;
    StepLog(s, e);
    StepHolder(s, e);
    StepCover(s, e);
  }

  lemma {:induction false} RunInv(s: State, es: seq<Event>)
    requires Inv(s) && CanRun(s, es)
    ensures Inv(Run(s, es))
    decreases |es|
  {
    if es != [] {
      StepInv(s, es[0]);
      RunInv(Step(s, es[0]), es[1..]);
    }
  }

  /**
   The close order, over every interleaving: the driver is never asked twice to close a statement
   or the connection, and after the connection it is asked for nothing any more.
   */
  lemma CloseOrder(byCaller: bool, es: seq<Event>)
    requires CanRun(Dialled(byCaller), es)
    ensures var log := Run(Dialled(byCaller), es).log;
      && (forall i, j :: 0 <= i < j < |log| ==> log[i] != log[j])
      && (forall i :: 0 <= i < |log| - 1 ==> log[i] != ConnClose)
  {
    assert Inv(Dialled(byCaller));
    RunInv(Dialled(byCaller), es);
  }

  /** No statement is prepared, and none forgotten, once the connection copies its list. */
  ghost predicate Fate(s: State, lost: set<nat>) {
    && (s.owner.Closing? || s.owner.Done?)
    && s.holder != Putting
    && (forall ds :: ds in s.stmts && ds !in lost ==>
          ds in s.closed || (s.owner.Closing? && ds in s.owner.todo))
    && (forall ds :: ds in lost ==> UseIs(s, ds, Removed) && ds !in s.closed)
    && (s.owner.Closing? ==> s.owner.todo !! lost)
  }

  lemma StepFate(s: State, e: Event, lost: set<nat>)
    requires Inv(s) && Enabled(s, e) && Fate(s, lost)
    ensures Fate(Step(s, e), lost) && Step(s, e).stmts.Keys == s.stmts.Keys
  {
    hide LogOk;
  }

  lemma {:induction false} RunFate(s: State, es: seq<Event>, lost: set<nat>)
    requires Inv(s) && CanRun(s, es) && Fate(s, lost)
    ensures Fate(Run(s, es), lost) && Run(s, es).stmts.Keys == s.stmts.Keys
    decreases |es|
  {
    if es != [] {
      hide Inv, Fate, Enabled, Step;
      StepInv(s, es[0]);
      StepFate(s, es[0], lost);
      RunFate(Step(s, es[0]), es[1..], lost);
    }
  }

  ghost predicate AllClosed(s: State) {
    forall ds :: ds in s.stmts ==> ds in s.closed
  }

  /**
   Is every statement closed in the end? Exactly when, at the moment the connection copies its
   list, nothing waiting for the connection to be put back has already left that list.
   */
  lemma AllClosedIff(byCaller: bool, es: seq<Event>, more: seq<Event>)
    requires CanRun(Dialled(byCaller), es) && Enabled(Run(Dialled(byCaller), es), CloserCopies)
    requires CanRun(Step(Run(Dialled(byCaller), es), CloserCopies), more)
    requires Run(Step(Run(Dialled(byCaller), es), CloserCopies), more).finalClosed
    ensures var s := Run(Dialled(byCaller), es);
      AllClosed(Run(Step(s, CloserCopies), more)) <==>
        forall ds :: ds in s.onPut ==> ds in s.openStmt || ds in s.closed
  {
    hide CanRun, Run, AllClosed, Fate, Inv, Step, Enabled;
    DialledInv(byCaller);
    RunInv(Dialled(byCaller), es);
    var s := Run(Dialled(byCaller), es);
    var t := Step(s, CloserCopies);
    StepInv(s, CloserCopies);
    CopyFate(s);
    RunFate(t, more, Lost(s));
    RunInv(t, more);
    FateMeans(Run(t, more), Lost(s));
  }

  lemma DialledInv(byCaller: bool)
    ensures Inv(Dialled(byCaller))
  {
  }

  /** The statements that neither the put nor the connection will close. */
  function Lost(s: State): set<nat> {
    set ds | ds in s.onPut && ds !in s.openStmt && ds !in s.closed
  }

  lemma CopyFate(s: State)
    requires Inv(s) && Enabled(s, CloserCopies)
    ensures Fate(Step(s, CloserCopies), Lost(s))
    ensures Lost(s) == {} <==> forall ds :: ds in s.onPut ==> ds in s.openStmt || ds in s.closed
  {
    hide LogOk;
    assert Lost(s) == {} <==> forall ds :: ds in s.onPut ==> ds !in Lost(s);
  }

  lemma FateMeans(s: State, lost: set<nat>)
    requires Inv(s) && Fate(s, lost) && s.finalClosed
    ensures AllClosed(s) <==> lost == {}
  {
    if lost != {} {
      var ds :| ds in lost;
      assert ds in s.stmts && ds !in s.closed;
    }
  }

  /** A connection that was put back before it is closed closes every statement. */
  lemma PutBackClosesAll(byCaller: bool, es: seq<Event>, more: seq<Event>)
    requires CanRun(Dialled(byCaller), es) && Enabled(Run(Dialled(byCaller), es), CloserCopies)
    requires !Run(Dialled(byCaller), es).inUse
    requires CanRun(Step(Run(Dialled(byCaller), es), CloserCopies), more)
    requires Run(Step(Run(Dialled(byCaller), es), CloserCopies), more).finalClosed
    ensures AllClosed(Run(Step(Run(Dialled(byCaller), es), CloserCopies), more))
  {
    hide CanRun, Run;
    AllClosedIff(byCaller, es, more);
    assert Inv(Dialled(byCaller));
    RunInv(Dialled(byCaller), es);
  }

  /** A connection being closed out of use has everything on its list, or closed already. */
  ghost predicate Covered(s: State) {
    (s.owner.Closing? || s.owner.Done?) && !s.inUse ==>
      forall ds :: ds in s.stmts ==> ds in s.closed || (s.owner.Closing? && ds in s.owner.todo)
  }

  lemma StepCovered(s: State, e: Event)
    requires Inv(s) && Covered(s) && Enabled(s, e)
    ensures Covered(Step(s, e))
  {
    hide LogOk;
  }

  lemma {:induction false} RunCovered(s: State, es: seq<Event>)
    requires Inv(s) && Covered(s) && CanRun(s, es)
    ensures Covered(Run(s, es))
    decreases |es|
  {
    if es != [] {
      hide Inv, Covered, Enabled, Step;
      StepInv(s, es[0]);
      StepCovered(s, es[0]);
      RunCovered(Step(s, es[0]), es[1..]);
    }
  }

  /** Over any run: a connection closed while it is not in use has closed all its statements. */
  lemma ClosedUnusedClosesAll(byCaller: bool, es: seq<Event>)
    requires CanRun(Dialled(byCaller), es)
    requires Run(Dialled(byCaller), es).finalClosed && !Run(Dialled(byCaller), es).inUse
    ensures AllClosed(Run(Dialled(byCaller), es))
  {
    hide CanRun, Run;
    DialledInv(byCaller);
    RunInv(Dialled(byCaller), es);
    RunCovered(Dialled(byCaller), es);
  }

  /**
   The other case happens: a connection found expired when it is taken is closed while it counts
   as in use, so a statement given up in between is neither closed on put nor on the list.
   */
  lemma ExpiredConnLosesStatement() returns (es: seq<Event>)
    ensures CanRun(Dialled(true), es)
    ensures Run(Dialled(true), es).finalClosed && UseIs(Run(Dialled(true), es), 0, Removed)
    ensures !AllClosed(Run(Dialled(true), es))
  {
    hide CanRun, Run;
    var s1 := Step(Dialled(true), Prepares(0));
    var s2 := Step(s1, PutBegins);
    var s3 := Step(s2, PutEnds(false));
    var s4 := Step(s3, Taken);
    var end;
    es, end := GivenUpWhileClosing(Step(s4, Discarded));
    es := Prepend(s4, Discarded, es, end);
    es := Prepend(s3, Taken, es, end);
    es := Prepend(s2, PutEnds(false), es, end);
    es := Prepend(s1, PutBegins, es, end);
    es := Prepend(Dialled(true), Prepares(0), es, end);
  }

  lemma GivenUpWhileClosing(s: State) returns (es: seq<Event>, end: State)
    requires s == State(true, [], {0}, false, {}, map[0 := Cached], Marked, Nobody, [])
    ensures CanRun(s, es) && Run(s, es) == end
    ensures end.finalClosed && UseIs(end, 0, Removed) && 0 !in end.closed
  {
    var s1 := Step(s, NoteBegins(0));
    var s2 := Step(s1, Unregisters(0));
    assert s2.openStmt == {};
    var s3 := Step(s2, CloserCopies);
    end := Step(s3, CloserClosesConn);
    es := Prepend(s3, CloserClosesConn, [], end);
    es := Prepend(s2, CloserCopies, es, end);
    es := Prepend(s1, Unregisters(0), es, end);
    es := Prepend(s, NoteBegins(0), es, end);
  }

  /** One run after the other. */
  lemma {:induction false} RunThen(s: State, es: seq<Event>, more: seq<Event>)
    requires CanRun(s, es) && CanRun(Run(s, es), more)
    ensures CanRun(s, es + more) && Run(s, es + more) == Run(Run(s, es), more)
    decreases |es|
  {
    if es == [] {
      assert es + more == more;
    } else {
      RunThen(Step(s, es[0]), es[1..], more);
      assert (es + more)[1..] == es[1..] + more;
    }
  }

  /** One more step in front of a concrete run. */
  lemma Prepend(s: State, e: Event, rest: seq<Event>, end: State) returns (es: seq<Event>)
    requires Enabled(s, e) && CanRun(Step(s, e), rest) && Run(Step(s, e), rest) == end
    ensures CanRun(s, es) && Run(s, es) == end
  {
    es := [e] + rest;
    assert es[1..] == rest;
  }
}

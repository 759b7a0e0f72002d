/**
 The fields of a driver connection that have to do with prepared statements, updated in place. The
 identity of a driver statement is a number; its closed flag is its membership of `closed`.
 */
module ConnStatements {
  import opened StmtCloseState
  import opened StmtCloseTheorems

  /** What the driver hears when the statements are closed one after the other: of each that is not yet closed. */
  function Heard(closed: set<nat>, list: seq<nat>): seq<Call>
    decreases |list|
  {
    if list == [] then []
    else (if list[0] in closed then [] else [StmtClose(list[0])]) + Heard(closed + {list[0]}, list[1..])
  }

  lemma HeardFirst(calls: seq<Call>, closed: set<nat>, list: seq<nat>)
    requires list != []
    ensures calls + Heard(closed, list)
         == calls + (if list[0] in closed then [] else [StmtClose(list[0])]) + Heard(closed + {list[0]}, list[1..])
  {
    var one := if list[0] in closed then [] else [StmtClose(list[0])];
    assert calls + (one + Heard(closed + {list[0]}, list[1..])) == calls + one + Heard(closed + {list[0]}, list[1..]);
  }

  lemma HeardNone(calls: seq<Call>, closed: set<nat>)
    ensures calls + Heard(closed, []) == calls
  {
  }

  class ConnStmts {
    ghost var abs: State

    var inUse: bool
    var onPut: seq<nat>
    var openStmt: set<nat>
    var finalClosed: bool
    var closed: set<nat>
    var driverCalls: seq<Call>

    ghost predicate Valid()
      reads this
    {
      && abs.inUse == inUse && abs.onPut == onPut && abs.openStmt == openStmt
      && abs.finalClosed == finalClosed && abs.closed == closed && abs.log == driverCalls
      && Inv(abs)
    }

    constructor (inUse: bool)
      ensures Valid() && abs == Dialled(inUse)
    {
      this.inUse, onPut, openStmt, finalClosed, closed, driverCalls := inUse, [], {}, false, {}, [];
      abs := Dialled(inUse);
      new;
      DialledInv(inUse);
    }

    ghost method Take(e: Event)
      requires Inv(abs) && Enabled(abs, e)
      modifies this`abs
      ensures abs == Step(old(abs), e) && Inv(abs)
    {
      StepInv(abs, e);
      abs := Step(abs, e);
    }

    /** driverStmt.Close on the concrete fields. */
    method CloseOnce(ds: nat)
      modifies this`closed, this`driverCalls
      ensures closed == old(closed) + {ds}
      ensures driverCalls == old(driverCalls) + (if ds in old(closed) then [] else [StmtClose(ds)])
    {
      if ds in closed {
        assert driverCalls == driverCalls + [];
        return;
      }
      closed := closed + {ds};
      driverCalls := driverCalls + [StmtClose(ds)];
    }

    method SetInUse()
      requires Valid() && Enabled(abs, Taken)
      modifies this`abs, this`inUse
      ensures Valid() && abs == Step(old(abs), Taken)
    {
      hide Inv;
      Take(Taken);
      inUse := true;
    }

    /** prepareLocked for a pool statement. */
    method Prepare(ds: nat)
      requires Valid() && Enabled(abs, Prepares(ds))
      modifies this`abs, this`openStmt
      ensures Valid() && abs == Step(old(abs), Prepares(ds))
    {
      hide Inv;
      Take(Prepares(ds));
      openStmt := openStmt + {ds};
    }

    method BeginPut()
      requires Valid() && Enabled(abs, PutBegins)
      modifies this`abs, this`inUse
      ensures Valid() && abs == Step(old(abs), PutBegins)
    {
      hide Inv;
      Take(PutBegins);
      inUse := false;
    }

    /** One function of the onPut list. */
    method RunOne()
      requires Valid() && Enabled(abs, PutRunsOne)
      modifies this`abs, this`onPut, this`closed, this`driverCalls
      ensures Valid() && abs == Step(old(abs), PutRunsOne)
      ensures onPut == old(onPut)[1..] && closed == old(closed) + {old(onPut)[0]}
      ensures driverCalls
           == old(driverCalls) + (if old(onPut)[0] in old(closed) then [] else [StmtClose(old(onPut)[0])])
    {
      hide Inv;
      Take(PutRunsOne);
      CloseOnce(onPut[0]);
      onPut := onPut[1..];
      SameLog(driverCalls);
    }

    /** The part of putConn that concerns statements: everything put off until now is closed. */
    method PutConn()
      requires Valid() && Enabled(abs, PutBegins)
      modifies this
      ensures Valid() && abs.owner == Caller && abs.holder == Putting && !inUse && onPut == []
      ensures closed == old(closed) + (set ds | ds in old(onPut))
      ensures driverCalls == old(driverCalls) + Heard(old(closed), old(onPut))
      ensures openStmt == old(openStmt) && abs.stmts == old(abs.stmts)
    {
      hide Inv, Heard;
      ghost var waiting := onPut;
      BeginPut();
      ghost var ran := 0;
      while onPut != []
        invariant Valid() && abs.owner == Caller && abs.holder == Putting && !inUse
        invariant ran <= |waiting| && onPut == waiting[ran..]
        invariant closed == old(closed) + (set ds | ds in waiting[..ran])
        invariant driverCalls + Heard(closed, onPut) == old(driverCalls) + Heard(old(closed), waiting)
        invariant openStmt == old(openStmt) && abs.stmts == old(abs.stmts)
        decreases |onPut|
      {
        assert waiting[..ran + 1] == waiting[..ran] + [waiting[ran]];
        HeardFirst(driverCalls, closed, onPut);
        RunOne();
        ran := ran + 1;
      }
      assert waiting[..ran] == waiting;
      HeardNone(driverCalls, closed);
    }

    method EndPut(ghost discard: bool)
      requires Valid() && Enabled(abs, PutEnds(discard))
      modifies this`abs
      ensures Valid() && abs == Step(old(abs), PutEnds(discard))
    {
      hide Inv;
      Take(PutEnds(discard));
    }

    /** noteUnusedDriverStatement, first part: true means the statement waits for the next put. */
    method Note(ds: nat) returns (later: bool)
      requires Valid() && Enabled(abs, NoteBegins(ds))
      modifies this`abs, this`onPut
      ensures Valid() && abs == Step(old(abs), NoteBegins(ds)) && later == inUse
      ensures onPut == if inUse then old(onPut) + [ds] else old(onPut)
      ensures abs.holder == if inUse then Nobody else Checking(ds)
    {
      hide Inv;
      Take(NoteBegins(ds));
      later := inUse;
      if inUse {
        onPut := onPut + [ds];
      }
    }

    /** Second part, under the connection's lock: is the connection closed already? */
    method NoteCheck(ds: nat) returns (fc: bool)
      requires Valid() && Enabled(abs, NoteChecks(ds))
      modifies this`abs
      ensures Valid() && abs == Step(old(abs), NoteChecks(ds)) && fc == finalClosed
      ensures abs.holder == if fc then Nobody else AboutToClose(ds)
    {
      hide Inv;
      Take(NoteChecks(ds));
      fc := finalClosed;
    }

    /** Third part, only if it is not; the connection may have been closed since it was looked at. */
    method NoteClose(ds: nat)
      requires Valid() && Enabled(abs, NoteCloses(ds))
      modifies this`abs, this`closed, this`driverCalls
      ensures Valid() && abs == Step(old(abs), NoteCloses(ds))
      ensures finalClosed ==> driverCalls == old(driverCalls)
      ensures ds in closed && driverCalls == old(driverCalls) + Heard(old(closed), [ds])
    {
      hide Inv;
      Harmless(abs, ds);
      Take(NoteCloses(ds));
      CloseOnce(ds);
      SameLog(driverCalls);
    }

    method RemoveOpenStmt(ds: nat)
      requires Valid() && Enabled(abs, Unregisters(ds))
      modifies this`abs, this`openStmt
      ensures Valid() && abs == Step(old(abs), Unregisters(ds))
    {
      hide Inv;
      Take(Unregisters(ds));
      openStmt := openStmt - {ds};
    }

    /** finalClose, first lock: the list is copied out and cleared. */
    method CopyOpen() returns (todo: set<nat>)
      requires Valid() && Enabled(abs, CloserCopies)
      modifies this`abs, this`openStmt
      ensures Valid() && abs == Step(old(abs), CloserCopies) && abs.owner == Closing(todo)
    {
      hide Inv;
      Take(CloserCopies);
      todo := openStmt;
      openStmt := {};
    }

    /** One statement of the copy. */
    method CloseCopied(ds: nat)
      requires Valid() && Enabled(abs, CloserClosesOne(ds))
      modifies this`abs, this`closed, this`driverCalls
      ensures Valid() && abs == Step(old(abs), CloserClosesOne(ds))
    {
      hide Inv;
      Take(CloserClosesOne(ds));
      CloseOnce(ds);
      SameLog(driverCalls);
    }

    /** finalClose, second lock: the connection itself. */
    method CloseConn()
      requires Valid() && Enabled(abs, CloserClosesConn)
      modifies this`abs, this`finalClosed, this`driverCalls
      ensures Valid() && abs == Step(old(abs), CloserClosesConn)
    {
      hide Inv;
      Take(CloserClosesConn);
      finalClosed := true;
      driverCalls := driverCalls + [ConnClose];
    }

    /** finalClose when nobody interferes: every open statement is closed, then the connection. */
    method FinalClose()
      requires Valid() && abs.owner == Marked
      modifies this
      ensures Valid() && finalClosed && abs.owner == Done
      ensures closed == old(closed) + old(openStmt) && openStmt == {}
      ensures driverCalls != [] && driverCalls[|driverCalls| - 1] == ConnClose
    {
      hide Inv;
      var todo := CopyOpen();
      while todo != {}
        invariant Valid() && abs.owner == Closing(todo)
        invariant closed + todo == old(closed) + old(openStmt) && openStmt == {}
        decreases |todo|
      {
        var ds :| ds in todo;
        CloseCopied(ds);
        todo := todo - {ds};
      }
      CloseConn();
    }
  }

  /** When the connection has been closed in between, the noted statement was closed with it. */
  lemma Harmless(s: State, ds: nat)
    requires Inv(s) && s.holder == AboutToClose(ds)
    ensures s.finalClosed ==> ds in s.closed
  {
    assert UseIs(s, ds, Noting);
  }

  lemma SameLog(log: seq<Call>)
    ensures log + [] == log
  {
  }
}

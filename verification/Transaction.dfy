/**
 The transaction object with its fields updated in place: one method for each lock operation,
 atomic operation and driver call. The ghost field `abs` is the state machine's state; Valid()
 ties the real fields to it and includes the invariant.
 */
module Transaction {
  import opened Wrappers
  import opened DriverConns
  import opened TxState
  import opened TxTheorems

  class Tx {
    ghost var abs: TxState.Tx

    const keepConnOnRollback: bool
    var done: bool
    var ctxDone: bool
    var readers: nat                // closemu held for read, this often
    var writing: bool               // closemu held exclusively
    var conn: seq<Action>           // what has happened on the connection

    ghost predicate Valid()
      reads this
    {
      && abs.done == done && abs.ctxDone == ctxDone && abs.keepConnOnRollback == keepConnOnRollback
      && |abs.readers| == readers && abs.writer.Some? == writing && abs.log == conn
      && Inv(abs)
    }

    constructor (keepConnOnRollback: bool)
      ensures Valid() && abs == BeginTx(keepConnOnRollback)
      ensures !done && !ctxDone && readers == 0 && !writing && conn == []
    {
      this.keepConnOnRollback := keepConnOnRollback;
      done, ctxDone, readers, writing, conn := false, false, 0, false, [];
      abs := BeginTx(keepConnOnRollback);
      new;
      BeginInv(keepConnOnRollback);
    }

    /** The abstract state takes the step e; the caller keeps Inv by StepInv. */
    ghost method Take(e: Event)
      requires Inv(abs) && Enabled(abs, e)
      modifies this`abs
      ensures abs == Step(old(abs), e) && Inv(abs)
    {
      StepInv(abs, e);
      abs := Step(abs, e);
    }

    method ContextEnds()
      requires Valid()
      modifies this
      ensures Valid() && abs == Step(old(abs), TxState.ContextEnds) && ctxDone
    {
      hide Inv;
      Take(TxState.ContextEnds);
      ctxDone := true;
    }

    /** A caller announces itself: Commit, Rollback or the goroutine behind awaitDone. */
    ghost method Calls(t: nat, kind: Kind)
      requires Valid() && t !in abs.enders
      modifies this`abs
      ensures Valid() && abs == Step(old(abs), EnderCalls(t, kind))
    {
      hide Inv;
      Take(EnderCalls(t, kind));
    }

    /** Commit looks at the context first; false means it gives up with the context's error. */
    method CheckContext(kind: Kind, ghost t: nat) returns (ok: bool)
      requires Valid() && Enabled(abs, EnderChecks(t)) && abs.enders[t].kind == kind
      modifies this`abs
      ensures Valid() && abs == Step(old(abs), EnderChecks(t))
      ensures ok <==> At(abs, t, Passed)
      ensures ok <==> !(kind == CommitCall && ctxDone)
    {
      hide Inv;
      Take(EnderChecks(t));
      ok := !(kind.CommitCall? && ctxDone);
    }

    /** The compare-and-swap on done: exactly one caller ever gets true. */
    method CompareAndSwap(ghost t: nat) returns (won: bool)
      requires Valid() && Enabled(abs, EnderSwaps(t))
      modifies this`abs, this`done
      ensures Valid() && abs == Step(old(abs), EnderSwaps(t))
      ensures won <==> !old(done)
      ensures won <==> At(abs, t, Won)
      ensures done
    {
      hide Inv;
      Take(EnderSwaps(t));
      won := !done;
      done := true;
    }

    method Cancel(ghost t: nat)
      requires Valid() && Enabled(abs, EnderCancels(t))
      modifies this`abs, this`ctxDone
      ensures Valid() && abs == Step(old(abs), EnderCancels(t)) && ctxDone
    {
      hide Inv;
      Take(EnderCancels(t));
      ctxDone := true;
    }

    /** closemu.Lock(): gets through when nobody holds the lock, which is when Enabled says so. */
    method Lock(ghost t: nat)
      requires Valid() && At(abs, t, Cancelled) && readers == 0 && !writing
      modifies this`abs, this`writing
      ensures Valid() && abs == Step(old(abs), EnderLocks(t)) && writing
    {
      hide Inv;
      Take(EnderLocks(t));
      writing := true;
    }

    method Unlock(ghost t: nat)
      requires Valid() && Enabled(abs, EnderUnlocks(t))
      modifies this`abs, this`writing
      ensures Valid() && abs == Step(old(abs), EnderUnlocks(t)) && !writing
    {
      hide Inv;
      Take(EnderUnlocks(t));
      writing := false;
    }

    /** The driver's Commit or Rollback runs and returns err. */
    method EndOnDriver(kind: Kind, err: Option<Err>, ghost t: nat)
      requires Valid() && Enabled(abs, EnderEnds(t, err)) && abs.enders[t].kind == kind
      modifies this`abs, this`conn
      ensures Valid() && abs == Step(old(abs), EnderEnds(t, err))
      ensures kind == CommitCall ==> conn == old(conn) + [DriverCommit(err)]
      ensures kind != CommitCall ==> conn == old(conn) + [DriverRollback(err)]
    {
      hide Inv;
      Take(EnderEnds(t, err));
      conn := conn + [if kind.CommitCall? then DriverCommit(err) else DriverRollback(err)];
    }

    method ClosePrepared(err: Option<Err>, ghost t: nat)
      requires Valid() && At(abs, t, Ended(err))
      modifies this`abs, this`conn
      ensures Valid() && abs == Step(old(abs), EnderCleans(t))
      ensures err == Some(ErrBadConn) ==> conn == old(conn)
      ensures err != Some(ErrBadConn) ==> conn == old(conn) + [Action.ClosePrepared]
    {
      hide Inv;
      Take(EnderCleans(t));
      if err != Some(ErrBadConn) {
        conn := conn + [Action.ClosePrepared];
      } else {
        assert conn == conn + [];
      }
    }

    /** close: the connection goes back to the pool; awaitDone may discard it. */
    method Close(kind: Kind, err: Option<Err>, ghost t: nat) returns (ok: bool)
      requires Valid() && At(abs, t, Cleaned(err)) && abs.enders[t].kind == kind
      modifies this`abs, this`conn
      ensures Valid() && abs == Step(old(abs), EnderReleases(t))
      ensures At(abs, t, Returned(ok))
      ensures kind == AwaitDoneCall && !keepConnOnRollback ==> conn == old(conn) + [Release(Some(ErrBadConn))] && !ok
      ensures kind != AwaitDoneCall || keepConnOnRollback ==>
        conn == old(conn) + [Release(err)] && (ok <==> err == None)
    {
      hide Inv;
      Take(EnderReleases(t));
      var e := err;
      if kind.AwaitDoneCall? && !keepConnOnRollback {
        e := Some(ErrBadConn);
      }
      conn := conn + [Release(e)];
      ok := e == None;
    }

    /**
     The winner's way from the driver call to its return, put together: the connection sees the
     ending that was asked for from the driver call to the release, and nothing else.
     */
    method Finish(kind: Kind, err: Option<Err>, ghost t: nat) returns (ok: bool)
      requires Valid() && At(abs, t, Unlocked) && abs.enders[t].kind == kind
      modifies this`abs, this`conn
      ensures Valid() && At(abs, t, Returned(ok))
      ensures old(conn) <= conn && EndingFrom(conn, |old(conn)|, kind, keepConnOnRollback, err, ok)
    {
      hide Inv, Tail;
      EndOnDriver(kind, err, t);
      ClosePrepared(err, t);
      ok := Close(kind, err, t);
    }

    /** grabConn up to the read lock: nothing happens if the query's own context has ended. */
    ghost method QueryCalls(q: nat, ctxDone: bool)
      requires Valid() && q !in abs.queries
      modifies this`abs
      ensures Valid() && abs == Step(old(abs), TxState.QueryCalls(q, ctxDone))
      ensures QueryAt(abs, q, if ctxDone then Finished else Asking)
    {
      hide Inv;
      Take(TxState.QueryCalls(q, ctxDone));
    }

    /** closemu.RLock(): gets through unless the lock is held exclusively. */
    method ReadLock(ghost q: nat)
      requires Valid() && QueryAt(abs, q, Asking) && !writing
      modifies this`abs, this`readers
      ensures Valid() && abs == Step(old(abs), QueryLocks(q)) && readers == old(readers) + 1
    {
      hide Inv;
      NotYetReading(abs, q);
      Take(QueryLocks(q));
      readers := readers + 1;
    }

    /** isDone, looked at under the read lock: true hands the connection to the query. */
    method CheckDone(ghost q: nat) returns (got: bool)
      requires Valid() && QueryAt(abs, q, Holding)
      modifies this`abs, this`readers
      ensures Valid() && abs == Step(old(abs), QueryChecks(q))
      ensures got <==> QueryAt(abs, q, Using)
      ensures got <==> !done
      ensures readers == if got then old(readers) else old(readers) - 1
    {
      hide Inv;
      Reading(abs, q);
      Take(QueryChecks(q));
      got := !done;
      if !got {
        readers := readers - 1;
      }
    }

    method RunOnConn(q: nat)
      requires Valid() && QueryAt(abs, q, Using)
      modifies this`abs, this`conn
      ensures Valid() && abs == Step(old(abs), QueryRuns(q)) && conn == old(conn) + [RunQuery(q)]
    {
      hide Inv;
      Take(QueryRuns(q));
      conn := conn + [RunQuery(q)];
    }

    /** closemuRUnlockRelease. */
    method ReadUnlock(ghost q: nat)
      requires Valid() && QueryAt(abs, q, Using)
      modifies this`abs, this`readers
      ensures Valid() && abs == Step(old(abs), QueryReleases(q)) && readers == old(readers) - 1
    {
      hide Inv;
      Reading(abs, q);
      Take(QueryReleases(q));
      readers := readers - 1;
    }
  }

  /** A query that asks for the lock does not hold it. */
  lemma NotYetReading(s: TxState.Tx, q: nat)
    requires Inv(s) && QueryAt(s, q, Asking)
    ensures q !in s.readers && |s.readers + {q}| == |s.readers| + 1
  {
  }

  lemma Reading(s: TxState.Tx, q: nat)
    requires Inv(s) && (QueryAt(s, q, Holding) || QueryAt(s, q, Using))
    ensures q in s.readers && |s.readers - {q}| == |s.readers| - 1
  {
  }
}

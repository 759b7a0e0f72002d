/**
 Prepared statements and their dependencies as the source keeps them: the dependency table of the
 pool, and for each statement its closed flag and what it is bound to. One method for each critical
 section, proved to do what the machine of StmtLifeState does.
 */
module Statements {
  import opened Deps
  import opened StmtLifeState
  import opened StmtLifeTheorems

  predicate IsClosed(r: Stmt) {
    r.phase == Marked || r.phase == Closed
  }

  /** The real fields of the statements are what the machine's records say. */
  predicate Flags(stmts: map<nat, Stmt>, kinds: map<nat, Kind>, closed: set<nat>) {
    && kinds.Keys == stmts.Keys && closed <= stmts.Keys
    && (forall s :: s in stmts ==> kinds[s] == stmts[s].kind && (s in closed <==> IsClosed(stmts[s])))
  }

  /** One statement is made, or changes its phase. */
  lemma FlagsUpdate(stmts: map<nat, Stmt>, kinds: map<nat, Kind>, closed: set<nat>, s: nat, r: Stmt)
    requires Flags(stmts, kinds, closed)
    ensures Flags(stmts[s := r], kinds[s := r.kind], if IsClosed(r) then closed + {s} else closed - {s})
    ensures s !in stmts ==> s !in closed
    ensures s in stmts ==> s in kinds && kinds[s := stmts[s].kind] == kinds && kinds[s] == stmts[s].kind
    ensures s in stmts ==> (s in closed <==> IsClosed(stmts[s]))
    ensures s in closed ==> closed + {s} == closed
    ensures s !in closed ==> closed - {s} == closed
  {
  }

  class Registry {
    ghost var abs: State

    var dep: map<nat, set<Dep>>
    var kinds: map<nat, Kind>             // cg and parentStmt of each statement
    var closed: set<nat>                  // statements whose closed flag is set
    var rows: map<nat, nat>               // open Rows and their statements

    ghost predicate Valid()
      reads this
    {
      abs.dep == dep && abs.rows == rows && Flags(abs.stmts, kinds, closed) && Inv(abs)
    }

    constructor ()
      ensures Valid() && abs == NoStmts
    {
      dep, kinds, closed, rows := map[], map[], {}, map[];
      abs := NoStmts;
      new;
      NoStmtsInv();
    }

    ghost method Take(e: Event)
      requires Inv(abs) && Enabled(abs, e)
      modifies this`abs
      ensures abs == Step(old(abs), e) && Inv(abs)
    {
      StepInv(abs, e);
      abs := Step(abs, e);
    }

    /** prepareDC on the pool: the statement keeps itself. */
    method Prepare(s: nat)
      requires Valid() && Enabled(abs, Prepares(s))
      modifies this
      ensures Valid() && abs == Step(old(abs), Prepares(s))
    {
      hide Inv, AddDep, Flags;
      FlagsUpdate(abs.stmts, kinds, closed, s, Stmt(Pooled, Open, false));
      Take(Prepares(s));
      kinds := kinds[s := Pooled];
      dep := AddTo(dep, s, OnStmt(s));
    }

    /** prepareDC in a transaction. */
    method TxPrepare(s: nat)
      requires Valid() && Enabled(abs, TxPrepares(s))
      modifies this
      ensures Valid() && abs == Step(old(abs), TxPrepares(s))
    {
      hide Inv, Flags;
      FlagsUpdate(abs.stmts, kinds, closed, s, Stmt(Bound, Open, false));
      Take(TxPrepares(s));
      kinds := kinds[s := Bound];
    }

    /** StmtContext, under the lock of the statement p: does it become the parent of c? */
    method LookAtParent(c: nat, p: nat) returns (parent: bool)
      requires Valid() && Enabled(abs, ChildLooks(c, p))
      modifies this
      ensures Valid() && abs == Step(old(abs), ChildLooks(c, p))
      ensures parent <==> PhaseIs(abs, c, Registering)
      ensures parent <==> p !in closed && old(kinds)[p] == Pooled
      ensures kinds == old(kinds)[c := if parent then Child(p) else Bound]
    {
      hide Inv, Flags;
      FlagsUpdate(abs.stmts, kinds, closed, p, abs.stmts[p]);
      ghost var rec := Step(abs, ChildLooks(c, p)).stmts[c];
      FlagsUpdate(abs.stmts, kinds, closed, c, rec);
      parent := !(p in closed || kinds[p] != Pooled);
      Take(ChildLooks(c, p));
      kinds := kinds[c := if parent then Child(p) else Bound];
    }

    /** StmtContext, the addDep afterwards: the parent may have been closed by now. */
    method RegisterChild(c: nat)
      requires Valid() && Enabled(abs, ChildRegisters(c))
      modifies this
      ensures Valid() && abs == Step(old(abs), ChildRegisters(c))
    {
      hide Inv, AddDep, Flags;
      HasParent(abs, c);
      FlagsUpdate(abs.stmts, kinds, closed, c, Step(abs, ChildRegisters(c)).stmts[c]);
      Take(ChildRegisters(c));
      dep := AddTo(dep, kinds[c].parent, OnStmt(c));
    }

    /** connStmt's look at the closed flag: false sends the query away. */
    method CheckOpen(q: nat, s: nat) returns (ok: bool)
      requires Valid() && Enabled(abs, QueryChecks(q)) && abs.calls[q].stmt == s
      modifies this`abs
      ensures Valid() && abs == Step(old(abs), QueryChecks(q))
      ensures ok <==> q in abs.calls
      ensures ok <==> s !in closed
    {
      hide Inv, Flags;
      CallFact(abs, q);
      FlagsUpdate(abs.stmts, kinds, closed, s, abs.stmts[s]);
      ok := s !in closed;
      Take(QueryChecks(q));
    }

    /** QueryContext's addDep of the new Rows. */
    method AttachRows(q: nat, s: nat)
      requires Valid() && Enabled(abs, QueryAttaches(q)) && abs.calls[q].stmt == s
      modifies this`abs, this`dep, this`rows
      ensures Valid() && abs == Step(old(abs), QueryAttaches(q))
    {
      hide Inv, AddDep, Flags;
      Take(QueryAttaches(q));
      dep := AddTo(dep, s, OnRows(q));
      rows := rows[q := s];
    }

    /** The release of closed Rows: removeDep never panics, and tells whether to finalise. */
    method CloseRows(q: nat) returns (r: DepResult)
      requires Valid() && Enabled(abs, RowsClose(q))
      modifies this`abs, this`dep, this`rows
      ensures Valid() && abs == Step(old(abs), RowsClose(q))
      ensures r != Unpaired
      ensures r == RunFinalClose <==> old(rows)[q] !in dep
    {
      hide Inv, Flags;
      RowsFact(abs, q);
      Take(RowsClose(q));
      dep, r := RemoveFrom(dep, rows[q], OnRows(q));
      rows := rows - {q};
    }

    /** Stmt.Close: closemu is taken when no query is being made on the statement. */
    ghost method CloseLock(s: nat)
      requires Valid() && Enabled(abs, CloseLocks(s))
      modifies this`abs
      ensures Valid() && abs == Step(old(abs), CloseLocks(s))
    {
      hide Inv, Flags;
      FlagsUpdate(abs.stmts, kinds, closed, s, abs.stmts[s].(phase := Locked));
      Take(CloseLocks(s));
    }

    method CloseMark(s: nat)
      requires Valid() && Enabled(abs, CloseMarks(s))
      modifies this`abs, this`closed
      ensures Valid() && abs == Step(old(abs), CloseMarks(s)) && closed == old(closed) + {s}
    {
      hide Inv, Flags;
      FlagsUpdate(abs.stmts, kinds, closed, s, abs.stmts[s].(phase := Marked));
      Take(CloseMarks(s));
      closed := closed + {s};
    }

    /** The dependency goes: the statement's own, or its parent's; there is none for a bound one. */
    method CloseDrop(s: nat) returns (r: DepResult)
      requires Valid() && Enabled(abs, CloseDrops(s))
      modifies this`abs, this`dep
      ensures Valid() && abs == Step(old(abs), CloseDrops(s))
      ensures r != Unpaired
      ensures kinds[s] == Pooled ==> (r == RunFinalClose <==> s !in dep)
      ensures kinds[s].Child? ==> (r == RunFinalClose <==> kinds[s].parent !in dep)
      ensures kinds[s] == Bound ==> r == Remains && dep == old(dep)
    {
      hide Inv, Flags, RemoveDep;
      OwnFact(abs, s);
      FlagsUpdate(abs.stmts, kinds, closed, s, abs.stmts[s].(phase := Closed));
      RemoveSays(dep, Target(abs, s), OnStmt(s));
      Take(CloseDrops(s));
      match kinds[s]
      case Pooled => dep, r := RemoveFrom(dep, s, OnStmt(s));
      case Child(p) => dep, r := RemoveFrom(dep, p, OnStmt(s));
      case Bound => r := Remains;
    }

    /** finalClose has run. */
    ghost method Finalise(s: nat)
      requires Valid() && Enabled(abs, FinalCloses(s))
      modifies this`abs
      ensures Valid() && abs == Step(old(abs), FinalCloses(s))
      ensures IsPooled(abs, s) ==> Finished(abs, s)
    {
      Take(FinalCloses(s));
    }
  }

  lemma RemoveSays(dep: map<nat, set<Dep>>, x: nat, d: Dep)
    ensures InTable(dep, d, x) ==> RemoveDep(dep, x, d).1 != Unpaired
    ensures InTable(dep, d, x) ==> (RemoveDep(dep, x, d).1 == RunFinalClose <==> x !in RemoveDep(dep, x, d).0)
  {
  }

  lemma HasParent(st: State, c: nat)
    requires Inv(st) && PhaseIs(st, c, Registering)
    ensures st.stmts[c].kind.Child?
  {
  }

  lemma CallFact(st: State, q: nat)
    requires Inv(st) && q in st.calls
    ensures st.calls[q].stmt in st.stmts && !Exclusive(st, st.calls[q].stmt)
  {
  }

  lemma RowsFact(st: State, q: nat)
    requires Inv(st) && q in st.rows
    ensures InTable(st.dep, OnRows(q), st.rows[q])
  {
    assert Keeps(st, OnRows(q), st.rows[q]);
  }

  lemma OwnFact(st: State, s: nat)
    requires Inv(st) && PhaseIs(st, s, Marked)
    ensures st.stmts[s].kind != Bound ==> InTable(st.dep, OnStmt(s), Target(st, s))
  {
    assert st.stmts[s].kind != Bound ==> Keeps(st, OnStmt(s), Target(st, s));
  }
}

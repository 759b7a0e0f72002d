/**
 The life of prepared statements: statements of the pool, statements bound to a transaction, and
 the transaction's children of pool statements; the Rows they produce; and the reference counts
 that decide when a pool statement's driver statements are given up. One event per critical
 section, any number of statements, queries and closers in any interleaving.
 */
module StmtLifeState {
  import opened Deps

  /** Prepared on the pool, bound to a transaction, or a transaction's child of a pool statement. */
  datatype Kind = Pooled | Bound | Child(parent: nat)

  /**
   Registering: StmtContext has looked at the parent but not yet added the dependency.
   Locked: a closer holds the statement's closemu. Marked: closed is set, the dependency is not
   yet removed.
   */
  datatype Phase = Registering | Open | Locked | Marked | Closed

  /** `late`: a child that was registered after a finalClose of its parent had been promised. */
  datatype Stmt = Stmt(kind: Kind, phase: Phase, late: bool)

  /** What can keep a statement: a statement (itself or a child) or a Rows. */
  datatype Dep = OnStmt(id: nat) | OnRows(id: nat)

  /** A call of QueryContext that holds closemu for read, before or after the closed check. */
  datatype Call = Call(stmt: nat, checked: bool)

  /** finalClose calls: promised by removeDep, finished; and how often an entry came back to life. */
  datatype Finals = Finals(due: nat, ran: nat, revived: nat)

  datatype State = State(
    dep: map<nat, set<Dep>>,
    panicked: bool,
    stmts: map<nat, Stmt>,
    calls: map<nat, Call>,
    rows: map<nat, nat>,             // open Rows and the statement each came from
    finals: map<nat, Finals>)

  const NoStmts := State(map[], false, map[], map[], map[], map[])

  datatype Event =
    | Prepares(s: nat)
    | TxPrepares(s: nat)
    | ChildLooks(c: nat, p: nat)
    | ChildRegisters(c: nat)
    | QueryEnters(q: nat, s: nat)
    | QueryChecks(q: nat)
    | QueryFails(q: nat)
    | QueryAttaches(q: nat)
    | RowsClose(q: nat)
    | CloseLocks(s: nat)
    | CloseMarks(s: nat)
    | CloseDrops(s: nat)
    | FinalCloses(s: nat)

  predicate PhaseIs(st: State, s: nat, p: Phase) {
    s in st.stmts && st.stmts[s].phase == p
  }

  /** The statement is finished being made: its user can call it. */
  predicate Usable(st: State, s: nat) {
    s in st.stmts && st.stmts[s].phase != Registering
  }

  /** closemu is held exclusively. */
  predicate Exclusive(st: State, s: nat) {
    PhaseIs(st, s, Locked) || PhaseIs(st, s, Marked)
  }

  predicate Enabled(st: State, e: Event) {
    match e
    case Prepares(s) => s !in st.stmts
    case TxPrepares(s) => s !in st.stmts
    case ChildLooks(c, p) => c !in st.stmts && Usable(st, p)
    case ChildRegisters(c) => PhaseIs(st, c, Registering)
    case QueryEnters(q, s) => q !in st.calls && q !in st.rows && Usable(st, s) && !Exclusive(st, s)
    case QueryChecks(q) => q in st.calls && !st.calls[q].checked
    case QueryFails(q) => q in st.calls && st.calls[q].checked
    case QueryAttaches(q) => q in st.calls && st.calls[q].checked
    case RowsClose(q) => q in st.rows
    case CloseLocks(s) => PhaseIs(st, s, Open) && forall q :: q in st.calls ==> st.calls[q].stmt != s
    case CloseMarks(s) => PhaseIs(st, s, Locked)
    case CloseDrops(s) => PhaseIs(st, s, Marked)
    case FinalCloses(s) => s in st.finals && st.finals[s].due > 0
  }

  function SetPhase(st: State, s: nat, p: Phase): State
    requires s in st.stmts
  {
    st.(stmts := st.stmts[s := st.stmts[s].(phase := p)])
  }

  function FinalsOf(finals: map<nat, Finals>, x: nat): Finals {
    if x in finals then finals[x] else Finals(0, 0, 0)
  }

  /** removeDep has handed out a finalClose of x. */
  predicate Promised(finals: map<nat, Finals>, x: nat) {
    FinalsOf(finals, x).due + FinalsOf(finals, x).ran > 0
  }

  /** addDep(x, d), counting when x had been finished with. */
  function Add(st: State, x: nat, d: Dep): (r: State)
    ensures r == st.(dep := r.dep, finals := r.finals)
    ensures r.dep.Keys == st.dep.Keys + {x}
    ensures r.finals.Keys <= st.finals.Keys + {x}
  {
    var f := FinalsOf(st.finals, x);
    st.(dep := AddDep(st.dep, x, d),
        finals := if x in st.dep then st.finals else st.finals[x := f.(revived := f.revived + 1)])
  }

  /** removeDep(x, d), up to the point where the pool's mutex is released. */
  function Remove(st: State, x: nat, d: Dep): (r: State)
    ensures r == st.(dep := r.dep, panicked := r.panicked, finals := r.finals)
    ensures r.dep.Keys <= st.dep.Keys
    ensures r.finals.Keys <= st.finals.Keys + {x}
  {
    var r := RemoveDep(st.dep, x, d);
    var f := FinalsOf(st.finals, x);
    st.(dep := r.0,
        panicked := st.panicked || r.1 == Unpaired,
        finals := if r.1 == RunFinalClose then st.finals[x := f.(due := f.due + 1)] else st.finals)
  }

  /** Whom a statement's own dependency keeps. */
  function Target(st: State, s: nat): nat
    requires s in st.stmts
  {
    match st.stmts[s].kind
    case Child(p) => p
    case _ => s
  }

  /** Stmt.Close's removeDep: of the statement's own dependency, or of the one on its parent. */
  function Drop(st: State, s: nat): (r: State)
    requires s in st.stmts
    ensures r == st.(dep := r.dep, panicked := r.panicked, finals := r.finals)
    ensures r.dep.Keys <= st.dep.Keys
    ensures r.finals.Keys <= st.finals.Keys + {Target(st, s)}
  {
    match st.stmts[s].kind
    case Pooled => Remove(st, s, OnStmt(s))
    case Child(p) => Remove(st, p, OnStmt(s))
    case Bound => st
  }

  function Step(st: State, e: Event): State
    requires Enabled(st, e)
  {
    match e
    case Prepares(s) => Add(st, s, OnStmt(s)).(stmts := st.stmts[s := Stmt(Pooled, Open, false)])
    case TxPrepares(s) => st.(stmts := st.stmts[s := Stmt(Bound, Open, false)])
    case ChildLooks(c, p) =>
      if st.stmts[p].phase == Marked || st.stmts[p].phase == Closed || st.stmts[p].kind != Pooled
      then st.(stmts := st.stmts[c := Stmt(Bound, Open, false)])
      else st.(stmts := st.stmts[c := Stmt(Child(p), Registering, false)])
    case ChildRegisters(c) =>
      if !st.stmts[c].kind.Child? then st
      else
        var p := st.stmts[c].kind.parent;
        Add(st, p, OnStmt(c)).(stmts := st.stmts[c := Stmt(Child(p), Open, Promised(st.finals, p))])
    case QueryEnters(q, s) => st.(calls := st.calls[q := Call(s, false)])
    case QueryChecks(q) =>
      if PhaseIs(st, st.calls[q].stmt, Closed) then st.(calls := st.calls - {q})
      else st.(calls := st.calls[q := st.calls[q].(checked := true)])
    case QueryFails(q) => st.(calls := st.calls - {q})
    case QueryAttaches(q) =>
      var s := st.calls[q].stmt;
      Add(st, s, OnRows(q)).(rows := st.rows[q := s], calls := st.calls - {q})
    case RowsClose(q) => Remove(st, st.rows[q], OnRows(q)).(rows := st.rows - {q})
    case CloseLocks(s) => SetPhase(st, s, Locked)
    case CloseMarks(s) => SetPhase(st, s, Marked)
    case CloseDrops(s) => SetPhase(Drop(st, s), s, Closed)
    case FinalCloses(s) =>
      var f := st.finals[s];
      st.(finals := st.finals[s := f.(due := f.due - 1, ran := f.ran + 1)])
  }

  ghost predicate CanRun(st: State, es: seq<Event>)
    decreases |es|
  {
    es == [] || (Enabled(st, es[0]) && CanRun(Step(st, es[0]), es[1..]))
  }

  ghost function Run(st: State, es: seq<Event>): State
    requires CanRun(st, es)
    decreases |es|
  {
    if es == [] then st else Run(Step(st, es[0]), es[1..])
  }
}

/** What every interleaving keeps. */
module StmtLifeTheorems {
  import opened StmtLifeState

  /** A statement holds its dependency from the moment it is registered until its closer drops it. */
  predicate Holding(p: Phase) {
    p == Open || p == Locked || p == Marked
  }

  /** d keeps x: x's own open statement, an open registered child, or an open Rows. */
  predicate Keeps(st: State, d: Dep, x: nat) {
    match d
    case OnStmt(y) =>
      && y in st.stmts && Holding(st.stmts[y].phase)
      && (st.stmts[y].kind == Child(x) || (st.stmts[y].kind == Pooled && x == y))
    case OnRows(q) => q in st.rows && st.rows[q] == x
  }

  predicate InTable(dep: map<nat, set<Dep>>, d: Dep, x: nat) {
    x in dep && d in dep[x]
  }

  predicate NoneEmpty(dep: map<nat, set<Dep>>) {
    forall x :: x in dep ==> dep[x] != {}
  }

  /** The table says exactly who keeps whom, without empty entries; nothing was removed twice. */
  ghost predicate TableOk(st: State) {
    && !st.panicked
    && (forall x, d :: InTable(st.dep, d, x) <==> Keeps(st, d, x))
    && NoneEmpty(st.dep)
  }

  predicate IsPooled(st: State, s: nat) {
    s in st.stmts && st.stmts[s].kind == Pooled
  }

  /** A child's parent is a pool statement; only children go through registration. */
  ghost predicate FamiliesOk(stmts: map<nat, Stmt>) {
    && (forall c :: c in stmts && stmts[c].kind.Child? ==>
          stmts[c].kind.parent in stmts && stmts[stmts[c].kind.parent].kind == Pooled)
    && (forall s :: s in stmts && stmts[s].phase == Registering ==> stmts[s].kind.Child? && !stmts[s].late)
  }

  ghost predicate KindsOk(st: State) {
    && FamiliesOk(st.stmts)
    && (forall q :: q in st.calls ==> st.calls[q].stmt in st.stmts && q !in st.rows)
    && (forall q :: q in st.rows ==> st.rows[q] in st.stmts)
  }

  /** Nobody closes a statement while a query is entering it; a checked query finds it open. */
  ghost predicate CallsOk(st: State) {
    forall q :: q in st.calls && st.calls[q].stmt in st.stmts ==>
      var p := st.stmts[st.calls[q].stmt].phase;
      p == Open || (p == Closed && !st.calls[q].checked)
  }

  function Present(dep: map<nat, set<Dep>>, x: nat): nat {
    if x in dep then 1 else 0
  }

  /** Of every entry ever made for x: it is still there, or it has promised one finalClose. */
  ghost predicate Balanced(dep: map<nat, set<Dep>>, finals: map<nat, Finals>) {
    forall x :: var f := FinalsOf(finals, x); f.due + f.ran + Present(dep, x) == f.revived
  }

  ghost predicate CountOk(st: State) {
    && Balanced(st.dep, st.finals)
    && (forall x :: IsPooled(st, x) ==> FinalsOf(st.finals, x).revived >= 1)
  }

  ghost predicate HasLateChild(st: State, s: nat) {
    exists c :: c in st.stmts && st.stmts[c].kind == Child(s) && st.stmts[c].late
  }

  /** The statement is closed, no Rows of it is open, and no child is but late ones. */
  ghost predicate Finished(st: State, s: nat) {
    && PhaseIs(st, s, Closed)
    && (forall q :: q in st.rows ==> st.rows[q] != s)
    && (forall c :: c in st.stmts && st.stmts[c].kind == Child(s) && Holding(st.stmts[c].phase) ==> st.stmts[c].late)
  }

  ghost predicate FinishedOk(st: State) {
    && (forall s :: IsPooled(st, s) && Promised(st.finals, s) ==> Finished(st, s))
    && (forall s :: IsPooled(st, s) ==> (FinalsOf(st.finals, s).revived > 1 <==> HasLateChild(st, s)))
  }

  predicate KeysOk(st: State) {
    st.finals.Keys <= st.stmts.Keys && st.dep.Keys <= st.stmts.Keys
  }

  ghost predicate Inv(st: State) {
    TableOk(st) && KeysOk(st) && KindsOk(st) && CallsOk(st) && CountOk(st) && FinishedOk(st)
  }

  // --- the table -------------------------------------------------------------------------

  lemma AddShape(st: State, x: nat, d: Dep)
    ensures forall y, e :: InTable(Add(st, x, d).dep, e, y) <==> InTable(st.dep, e, y) || (y == x && e == d)
    ensures NoneEmpty(st.dep) ==> NoneEmpty(Add(st, x, d).dep)
    ensures forall y :: FinalsOf(Add(st, x, d).finals, y) ==
              var f := FinalsOf(st.finals, y);
              if y == x && x !in st.dep then f.(revived := f.revived + 1) else f
  {
  }

  lemma RemoveShape(st: State, x: nat, d: Dep)
    requires InTable(st.dep, d, x)
    ensures forall y, e :: InTable(Remove(st, x, d).dep, e, y) <==> InTable(st.dep, e, y) && !(y == x && e == d)
    ensures NoneEmpty(st.dep) ==> NoneEmpty(Remove(st, x, d).dep)
    ensures Remove(st, x, d).panicked == st.panicked
    ensures forall y :: y != x ==> (y in Remove(st, x, d).dep <==> y in st.dep)
    ensures forall y :: FinalsOf(Remove(st, x, d).finals, y) ==
              if y == x && x !in Remove(st, x, d).dep
              then FinalsOf(st.finals, x).(due := FinalsOf(st.finals, x).due + 1) else FinalsOf(st.finals, y)
  {
  }

  /** The three events that add to the table and the two that remove from it. */
  predicate Adds(e: Event) {
    e.Prepares? || e.ChildRegisters? || e.QueryAttaches?
  }

  predicate Removes(e: Event) {
    e.RowsClose? || e.CloseDrops?
  }

  lemma StepTableAdds(st: State, e: Event)
    requires Inv(st) && Enabled(st, e) && Adds(e)
    ensures TableOk(Step(st, e))
  {
    hide CallsOk, CountOk, FinishedOk, Add, InTable;
    match e {
      case Prepares(s) => AddShape(st, s, OnStmt(s));
      case ChildRegisters(c) => AddShape(st, st.stmts[c].kind.parent, OnStmt(c));
      case QueryAttaches(q) => AddShape(st, st.calls[q].stmt, OnRows(q));
    }
  }

  lemma RowsCloseTable(st: State, q: nat)
    requires Inv(st) && q in st.rows
    ensures TableOk(Step(st, RowsClose(q)))
  {
    hide KindsOk, CallsOk, CountOk, FinishedOk, Remove, InTable, Drop;
    assert Keeps(st, OnRows(q), st.rows[q]);
    RemoveShape(st, st.rows[q], OnRows(q));
  }

  /** The closer finds its dependency in the table, and what it drops is just that. */
  lemma DropShape(st: State, s: nat)
    requires Inv(st) && PhaseIs(st, s, Marked) && st.stmts[s].kind != Bound
    ensures InTable(st.dep, OnStmt(s), Target(st, s))
    ensures Drop(st, s) == Remove(st, Target(st, s), OnStmt(s))
  {
    hide KindsOk, CallsOk, CountOk, FinishedOk, Remove;
    assert Keeps(st, OnStmt(s), Target(st, s));
  }

  lemma CloseDropsTable(st: State, s: nat)
    requires Inv(st) && PhaseIs(st, s, Marked)
    ensures TableOk(Step(st, CloseDrops(s)))
  {
    hide KindsOk, CallsOk, CountOk, FinishedOk, Remove, InTable, Drop;
    if st.stmts[s].kind != Bound {
      DropShape(st, s);
      RemoveShape(st, Target(st, s), OnStmt(s));
      BoundOrDropped(st, s);
    } else {
      assert Drop(st, s) == st by {
        BoundDrops(st, s);
      }
    }
  }

  lemma BoundDrops(st: State, s: nat)
    requires s in st.stmts && st.stmts[s].kind == Bound
    ensures Drop(st, s) == st
  {
  }

  lemma BoundOrDropped(st: State, s: nat)
    requires Inv(st) && PhaseIs(st, s, Marked) && st.stmts[s].kind != Bound
    ensures forall x :: Keeps(st, OnStmt(s), x) ==> x == Target(st, s)
  {
  }

  /** Events that change a statement, and events that change a query or its Rows. */
  predicate OfStmts(e: Event) {
    || e.Prepares? || e.TxPrepares? || e.ChildLooks? || e.ChildRegisters?
    || e.CloseLocks? || e.CloseMarks? || e.CloseDrops?
  }

  lemma OneStmtKeeps(st: State, s: nat, u: Stmt)
    requires if s in st.stmts then u.kind == st.stmts[s].kind && Holding(u.phase) && Holding(st.stmts[s].phase)
             else u.kind == Bound || !Holding(u.phase)
    ensures forall x, d :: Keeps(st.(stmts := st.stmts[s := u]), d, x) <==> Keeps(st, d, x)
  {
  }

  /** Making a statement that holds nothing yet and locking or marking an open one change nobody's hold. */
  lemma StmtsKeep(st: State, e: Event)
    requires Enabled(st, e) && !Adds(e) && !Removes(e) && OfStmts(e)
    ensures Step(st, e).dep == st.dep && Step(st, e).panicked == st.panicked
    ensures forall x, d :: Keeps(Step(st, e), d, x) <==> Keeps(st, d, x)
  {
    hide Add, Remove, Drop, Keeps;
    if e.TxPrepares? {
      OneStmtKeeps(st, e.s, Step(st, e).stmts[e.s]);
    } else if e.ChildLooks? {
      OneStmtKeeps(st, e.c, Step(st, e).stmts[e.c]);
    } else {
      OneStmtKeeps(st, e.s, Step(st, e).stmts[e.s]);
    }
  }

  lemma SameKeepers(st: State, t: State)
    requires TableOk(st) && t.dep == st.dep && t.panicked == st.panicked
    requires forall x, d :: Keeps(t, d, x) <==> Keeps(st, d, x)
    ensures TableOk(t)
  {
    hide Keeps, InTable;
  }

  lemma StmtsTable(st: State, e: Event)
    requires Inv(st) && Enabled(st, e) && !Adds(e) && !Removes(e) && OfStmts(e)
    ensures TableOk(Step(st, e))
  {
    hide TableOk, KindsOk, KeysOk, CallsOk, CountOk, FinishedOk, Step, Keeps;
    StmtsKeep(st, e);
    SameKeepers(st, Step(st, e));
  }

  lemma QueriesTable(st: State, e: Event)
    requires Inv(st) && Enabled(st, e) && !Adds(e) && !Removes(e) && !OfStmts(e)
    ensures TableOk(Step(st, e))
  {
    hide KindsOk, CallsOk, CountOk, FinishedOk, InTable, Add, Remove, Drop;
  }

  lemma StepTable(st: State, e: Event)
    requires Inv(st) && Enabled(st, e)
    ensures TableOk(Step(st, e))
  {
    hide Inv, TableOk, Step;
    if Adds(e) {
      StepTableAdds(st, e);
    } else if e.RowsClose? {
      RowsCloseTable(st, e.q);
    } else if e.CloseDrops? {
      CloseDropsTable(st, e.s);
    } else if OfStmts(e) {
      StmtsTable(st, e);
    } else {
      QueriesTable(st, e);
    }
  }

  // --- kinds and calls -------------------------------------------------------------------

  /** One statement is made or changed: its kind fits, and no pool statement stops being one. */
  lemma FamilyUpdate(stmts: map<nat, Stmt>, s: nat, r: Stmt)
    requires FamiliesOk(stmts)
    requires r.kind.Child? ==> r.kind.parent in stmts && stmts[r.kind.parent].kind == Pooled && s != r.kind.parent
    requires r.phase == Registering ==> r.kind.Child? && !r.late
    requires s in stmts ==> r.kind == stmts[s].kind
    ensures FamiliesOk(stmts[s := r])
  {
  }

  lemma StmtsKinds(st: State, e: Event)
    requires Inv(st) && Enabled(st, e) && OfStmts(e)
    ensures KindsOk(Step(st, e))
  {
    hide TableOk, KeysOk, CallsOk, CountOk, FinishedOk, Add, Remove, Drop, FamiliesOk;
    if !e.Prepares? && !e.TxPrepares? && !e.ChildLooks? {
      FamilyFacts(st, e);
    }
    match e {
      case Prepares(s) => FamilyUpdate(st.stmts, s, Stmt(Pooled, Open, false));
      case TxPrepares(s) => FamilyUpdate(st.stmts, s, Stmt(Bound, Open, false));
      case ChildLooks(c, p) => FamilyUpdate(st.stmts, c, Step(st, e).stmts[c]);
      case ChildRegisters(c) => FamilyUpdate(st.stmts, c, Step(st, e).stmts[c]);
      case CloseLocks(s) => FamilyUpdate(st.stmts, s, st.stmts[s].(phase := Locked));
      case CloseMarks(s) => FamilyUpdate(st.stmts, s, st.stmts[s].(phase := Marked));
      case CloseDrops(s) => FamilyUpdate(st.stmts, s, st.stmts[s].(phase := Closed));
    }
  }

  /** The parent of the statement an event is about. */
  lemma FamilyFacts(st: State, e: Event)
    requires KindsOk(st) && Enabled(st, e) && OfStmts(e) && !e.Prepares? && !e.TxPrepares? && !e.ChildLooks?
    ensures var s := if e.ChildRegisters? then e.c else e.s;
      && (st.stmts[s].kind.Child? ==> IsPooled(st, st.stmts[s].kind.parent) && s != st.stmts[s].kind.parent)
      && (st.stmts[s].phase == Registering ==> st.stmts[s].kind.Child?)
  {
  }

  lemma QueriesKinds(st: State, e: Event)
    requires Inv(st) && Enabled(st, e) && !OfStmts(e)
    ensures KindsOk(Step(st, e))
  {
    hide TableOk, KeysOk, CallsOk, CountOk, FinishedOk, Add, Remove, Drop;
  }

  lemma StmtsCalls(st: State, e: Event)
    requires Inv(st) && Enabled(st, e) && OfStmts(e)
    ensures CallsOk(Step(st, e))
  {
    hide TableOk, KeysOk, CountOk, FinishedOk, Add, Remove, Drop;
  }

  lemma QueriesCalls(st: State, e: Event)
    requires Inv(st) && Enabled(st, e) && !OfStmts(e)
    ensures CallsOk(Step(st, e))
  {
    hide TableOk, KeysOk, CountOk, FinishedOk, Add, Remove, Drop;
  }

  lemma StepKeys(st: State, e: Event)
    requires Inv(st) && Enabled(st, e)
    ensures KeysOk(Step(st, e))
  {
    hide TableOk, CallsOk, CountOk, FinishedOk, Add, Remove, Drop;
  }

  lemma StepKinds(st: State, e: Event)
    requires Inv(st) && Enabled(st, e)
    ensures KindsOk(Step(st, e)) && CallsOk(Step(st, e))
  {
    hide Inv, KindsOk, CallsOk, Enabled, Step;
    if OfStmts(e) {
      StmtsKinds(st, e);
      StmtsCalls(st, e);
    } else {
      QueriesKinds(st, e);
      QueriesCalls(st, e);
    }
  }

  // --- the counts ------------------------------------------------------------------------

  lemma AddBalance(st: State, x: nat, d: Dep)
    requires Balanced(st.dep, st.finals)
    ensures Balanced(Add(st, x, d).dep, Add(st, x, d).finals)
    ensures forall y :: FinalsOf(Add(st, x, d).finals, y).revived >= FinalsOf(st.finals, y).revived
  {
    hide Add, InTable, NoneEmpty;
    AddShape(st, x, d);
  }

  lemma RemoveBalance(st: State, x: nat, d: Dep)
    requires Balanced(st.dep, st.finals) && InTable(st.dep, d, x)
    ensures Balanced(Remove(st, x, d).dep, Remove(st, x, d).finals)
    ensures forall y :: FinalsOf(Remove(st, x, d).finals, y).revived == FinalsOf(st.finals, y).revived
  {
    assert x in st.dep;
    hide Remove, NoneEmpty;
    RemoveShape(st, x, d);
  }

  lemma StepBalance(st: State, e: Event)
    requires Inv(st) && Enabled(st, e)
    ensures Balanced(Step(st, e).dep, Step(st, e).finals)
    ensures forall y :: FinalsOf(Step(st, e).finals, y).revived >= FinalsOf(st.finals, y).revived
  {
    hide KeysOk, CallsOk, FinishedOk, Add, Remove, Drop, InTable;
    match e {
      case Prepares(s) => AddBalance(st, s, OnStmt(s));
      case ChildRegisters(c) => AddBalance(st, st.stmts[c].kind.parent, OnStmt(c));
      case QueryAttaches(q) => AddBalance(st, st.calls[q].stmt, OnRows(q));
      case RowsClose(q) =>
        assert Keeps(st, OnRows(q), st.rows[q]);
        RemoveBalance(st, st.rows[q], OnRows(q));
      case CloseDrops(s) =>
        if st.stmts[s].kind == Bound {
          BoundDrops(st, s);
        } else {
          DropShape(st, s);
          RemoveBalance(st, Target(st, s), OnStmt(s));
        }
      case _ =>
    }
  }

  /** Pool statements stay pool statements, and only Prepare makes one. */
  lemma PooledBefore(st: State, e: Event)
    requires KindsOk(st) && Enabled(st, e)
    ensures forall x :: IsPooled(Step(st, e), x) <==> IsPooled(st, x) || e == Prepares(x)
  {
    hide Add, Remove, Drop, FamiliesOk;
  }

  lemma StepCount(st: State, e: Event)
    requires Inv(st) && Enabled(st, e)
    ensures CountOk(Step(st, e))
  {
    hide TableOk, KeysOk, KindsOk, CallsOk, FinishedOk, Balanced, Step;
    StepBalance(st, e);
    PooledBefore(st, e);
    if e.Prepares? {
      FirstEntry(st, e.s);
    }
  }

  lemma FirstEntry(st: State, s: nat)
    requires Inv(st) && s !in st.stmts
    ensures FinalsOf(Step(st, Prepares(s)).finals, s).revived == 1
  {
    hide TableOk, KindsOk, CallsOk, CountOk, FinishedOk;
  }

  // --- what a finalClose means -----------------------------------------------------------

  /** Without an entry there is nobody left: this is what the reference count is for. */
  lemma AbsentFinished(st: State, s: nat)
    requires TableOk(st) && KindsOk(st) && IsPooled(st, s) && s !in st.dep
    ensures Finished(st, s)
  {
    assert forall d :: !Keeps(st, d, s) by {
      assert forall d :: !InTable(st.dep, d, s);
    }
    assert !Keeps(st, OnStmt(s), s);
    forall q | q in st.rows ensures st.rows[q] != s {
      assert !Keeps(st, OnRows(q), s);
    }
    forall c | c in st.stmts && st.stmts[c].kind == Child(s) ensures !Holding(st.stmts[c].phase) {
      assert !Keeps(st, OnStmt(c), s);
    }
  }

  lemma FinishedKeptStmts(st: State, e: Event, s: nat)
    requires Inv(st) && Enabled(st, e) && IsPooled(st, s) && Promised(st.finals, s) && Finished(st, s) && OfStmts(e)
    ensures Finished(Step(st, e), s)
  {
    hide TableOk, KeysOk, CallsOk, CountOk, FinishedOk, Add, Remove, Drop, FamiliesOk;
  }

  lemma FinishedKeptQueries(st: State, e: Event, s: nat)
    requires Inv(st) && Enabled(st, e) && IsPooled(st, s) && Finished(st, s) && !OfStmts(e)
    ensures Finished(Step(st, e), s)
  {
    hide TableOk, KeysOk, CountOk, FinishedOk, Add, Remove, Drop, FamiliesOk;
  }

  /** Once a pool statement is finished with, it stays so: only late children can come. */
  lemma FinishedKept(st: State, e: Event, s: nat)
    requires Inv(st) && Enabled(st, e) && IsPooled(st, s) && Promised(st.finals, s) && Finished(st, s)
    ensures Finished(Step(st, e), s)
  {
    hide Inv, Finished, Step, Enabled;
    if OfStmts(e) {
      FinishedKeptStmts(st, e, s);
    } else {
      FinishedKeptQueries(st, e, s);
    }
  }

  /** What a step does to a statement: at most its phase, unless it is being registered. */
  lemma StmtKept(st: State, e: Event, c: nat)
    requires Enabled(st, e) && c in st.stmts && e != ChildRegisters(c)
    ensures c in Step(st, e).stmts && Step(st, e).stmts[c] == st.stmts[c].(phase := Step(st, e).stmts[c].phase)
  {
    hide Add, Remove, Drop;
  }

  lemma LateKept(st: State, e: Event, s: nat)
    requires Inv(st) && Enabled(st, e) && HasLateChild(st, s)
    ensures HasLateChild(Step(st, e), s)
  {
    hide TableOk, KeysOk, CallsOk, CountOk, FinishedOk, Step;
    var c :| c in st.stmts && st.stmts[c].kind == Child(s) && st.stmts[c].late;
    StmtKept(st, e, c);
  }

  /** A new promise of finalClose comes only from an entry that has just gone. */
  lemma PromiseNeedsAbsence(st: State, e: Event, s: nat)
    requires Inv(st) && Enabled(st, e) && s in Step(st, e).dep
    ensures var f, g := FinalsOf(st.finals, s), FinalsOf(Step(st, e).finals, s);
      g.due + g.ran == f.due + f.ran
  {
    hide KeysOk, KindsOk, CallsOk, FinishedOk, Add, Remove, Drop, InTable;
    match e {
      case Prepares(x) => AddShape(st, x, OnStmt(x));
      case ChildRegisters(c) => AddShape(st, Target(st, c), OnStmt(c));
      case QueryAttaches(q) => AddShape(st, st.calls[q].stmt, OnRows(q));
      case RowsClose(q) =>
        assert Keeps(st, OnRows(q), st.rows[q]);
        RemoveShape(st, st.rows[q], OnRows(q));
      case CloseDrops(x) =>
        if st.stmts[x].kind == Bound {
          BoundDrops(st, x);
        } else {
          DropShape(st, x);
          RemoveShape(st, Target(st, x), OnStmt(x));
        }
      case _ =>
    }
  }

  lemma RemovalRevivesNothing(st: State, e: Event, s: nat)
    requires Inv(st) && Enabled(st, e) && Removes(e)
    ensures FinalsOf(Step(st, e).finals, s).revived == FinalsOf(st.finals, s).revived
  {
    hide KeysOk, CallsOk, FinishedOk, Add, Remove, Drop, InTable;
    if e.RowsClose? {
      assert Keeps(st, OnRows(e.q), st.rows[e.q]);
      RemoveBalance(st, st.rows[e.q], OnRows(e.q));
    } else if st.stmts[e.s].kind == Bound {
      BoundDrops(st, e.s);
    } else {
      DropShape(st, e.s);
      RemoveBalance(st, Target(st, e.s), OnStmt(e.s));
    }
  }

  /** An entry of a pool statement comes back to life only by a late child. */
  lemma RevivalNeedsLateChild(st: State, e: Event, s: nat)
    requires Inv(st) && Enabled(st, e) && IsPooled(st, s)
    requires FinalsOf(Step(st, e).finals, s).revived > FinalsOf(st.finals, s).revived
    ensures HasLateChild(Step(st, e), s)
  {
    hide KeysOk, CallsOk, FinishedOk, Add, Remove, Drop, InTable;
    if e.ChildRegisters? {
      AddShape(st, Target(st, e.c), OnStmt(e.c));
      AbsentFinished(st, s);
      assert Step(st, e).stmts[e.c].late;
    } else if e.QueryAttaches? {
      AddShape(st, st.calls[e.q].stmt, OnRows(e.q));
      AbsentFinished(st, s);
      CheckedIsOpen(st, e.q);
    } else if e.Prepares? {
      AddShape(st, e.s, OnStmt(e.s));
    } else if Removes(e) {
      RemovalRevivesNothing(st, e, s);
    }
  }

  /** And a late child always brings one back, or finds one that another late child has. */
  lemma LateChildMeansRevival(st: State, e: Event, s: nat)
    requires Inv(st) && Enabled(st, e) && IsPooled(st, s) && HasLateChild(Step(st, e), s)
    ensures FinalsOf(Step(st, e).finals, s).revived > 1
  {
    hide TableOk, KeysOk, CallsOk, Finished, Step, Balanced;
    var t := Step(st, e);
    StepBalance(st, e);
    var c :| c in t.stmts && t.stmts[c].kind == Child(s) && t.stmts[c].late;
    if e == ChildRegisters(c) {
      RegisteredLate(st, c, s);
    } else {
      LateBefore(st, e, c);
      assert HasLateChild(st, s);
    }
  }

  lemma RegisteredLate(st: State, c: nat, s: nat)
    requires Inv(st) && PhaseIs(st, c, Registering)
    requires var r := Step(st, ChildRegisters(c)).stmts[c]; r.kind == Child(s) && r.late
    ensures FinalsOf(Step(st, ChildRegisters(c)).finals, s).revived > 1
  {
    hide TableOk, KeysOk, CallsOk, FinishedOk, Add;
    AddShape(st, s, OnStmt(c));
    AddBalance(st, s, OnStmt(c));
  }

  /** A late child that is not just being registered was one before the step. */
  lemma LateBefore(st: State, e: Event, c: nat)
    requires Enabled(st, e) && e != ChildRegisters(c) && c in Step(st, e).stmts && Step(st, e).stmts[c].late
    ensures c in st.stmts && st.stmts[c].late && st.stmts[c].kind == Step(st, e).stmts[c].kind
  {
    hide Add, Remove, Drop;
  }

  lemma CheckedIsOpen(st: State, q: nat)
    requires CallsOk(st) && KindsOk(st) && q in st.calls && st.calls[q].checked
    ensures PhaseIs(st, st.calls[q].stmt, Open)
  {
  }

  lemma StepFinished(st: State, e: Event)
    requires Inv(st) && Enabled(st, e)
    ensures FinishedOk(Step(st, e))
  {
    hide TableOk, KeysOk, KindsOk, CallsOk, CountOk, Finished, HasLateChild, Enabled, Step;
    var t := Step(st, e);
    StepTable(st, e);
    StepKinds(st, e);
    KindsGive(st);
    PooledBefore(st, e);
    forall s | IsPooled(t, s) && Promised(t.finals, s) ensures Finished(t, s) {
      if s !in t.dep {
        AbsentFinished(t, s);
      } else {
        PromiseNeedsAbsence(st, e, s);
        if e == Prepares(s) {
          NoneBefore(st, s);
        } else {
          FinishedKept(st, e, s);
        }
      }
    }
    forall s | IsPooled(t, s) ensures FinalsOf(t.finals, s).revived > 1 <==> HasLateChild(t, s) {
      if e == Prepares(s) {
        NoneBefore(st, s);
        FirstEntry(st, s);
        NoChildYet(st, s);
      } else {
        if FinalsOf(t.finals, s).revived > FinalsOf(st.finals, s).revived {
          RevivalNeedsLateChild(st, e, s);
        } else if HasLateChild(st, s) {
          LateKept(st, e, s);
        }
        if HasLateChild(t, s) {
          LateChildMeansRevival(st, e, s);
        } else {
          StepBalance(st, e);
        }
      }
    }
  }

  lemma NoChildYet(st: State, s: nat)
    requires Inv(st) && s !in st.stmts
    ensures !HasLateChild(Step(st, Prepares(s)), s)
  {
    hide TableOk, KeysOk, CallsOk, CountOk, FinishedOk, Add;
  }

  lemma KindsGive(st: State)
    requires Inv(st)
    ensures KindsOk(st)
  {
  }

  lemma NoneBefore(st: State, s: nat)
    requires Inv(st) && Enabled(st, Prepares(s))
    ensures FinalsOf(st.finals, s) == Finals(0, 0, 0) && s !in st.stmts
  {
  }

  lemma StepInv(st: State, e: Event)
    requires Inv(st) && Enabled(st, e)
    ensures Inv(Step(st, e))
  {
    hide TableOk, KeysOk, KindsOk, CallsOk, CountOk, FinishedOk, Enabled, Step;
    StepTable(st, e);
    StepKeys(st, e);
    StepKinds(st, e);
    StepCount(st, e);
    StepFinished(st, e);
  }

  lemma {:induction false} RunInv(st: State, es: seq<Event>)
    requires Inv(st) && CanRun(st, es)
    ensures Inv(Run(st, es))
    decreases |es|
  {
    if es != [] {
      hide Inv, Enabled, Step;
      StepInv(st, es[0]);
      RunInv(Step(st, es[0]), es[1..]);
    }
  }

  lemma NoStmtsInv()
    ensures Inv(NoStmts)
  {
  }

  // --- the theorems ----------------------------------------------------------------------

  /**
   Over every run of prepares, queries, children and closes: no removeDep is unpaired, no entry is
   empty, and the table lists exactly the open statements, registered children and open Rows.
   */
  lemma DependenciesAreExact(es: seq<Event>)
    requires CanRun(NoStmts, es)
    ensures var st := Run(NoStmts, es);
      && !st.panicked
      && (forall x, d :: InTable(st.dep, d, x) <==> Keeps(st, d, x))
      && NoneEmpty(st.dep)
  {
    hide CanRun, Run;
    NoStmtsInv();
    RunInv(NoStmts, es);
  }

  /**
   When finalClose of a pool statement is about to run: its Close has returned from marking it and
   dropped its own dependency, every Rows it produced is closed, and so is every child but those
   registered after a finalClose had been promised.
   */
  lemma FinalCloseIsLast(es: seq<Event>, s: nat)
    requires CanRun(NoStmts, es)
    ensures var st := Run(NoStmts, es);
      IsPooled(st, s) && Enabled(st, FinalCloses(s)) ==> Finished(st, s)
  {
    hide CanRun, Run;
    NoStmtsInv();
    RunInv(NoStmts, es);
  }

  /** Conversely, a statement that nobody keeps any more has been promised its finalClose. */
  lemma UnkeptIsFinalised(es: seq<Event>, s: nat)
    requires CanRun(NoStmts, es) && IsPooled(Run(NoStmts, es), s)
    ensures var st := Run(NoStmts, es);
      (forall d :: !Keeps(st, d, s)) ==> FinalsOf(st.finals, s).due + FinalsOf(st.finals, s).ran >= 1
  {
    hide CanRun, Run;
    NoStmtsInv();
    RunInv(NoStmts, es);
    var st := Run(NoStmts, es);
    if (forall d :: !Keeps(st, d, s)) && s in st.dep {
      var d :| d in st.dep[s];
      assert InTable(st.dep, d, s);
    }
  }

  /**
   How often: finalClose runs once for every entry that has come and gone, and there is a second
   entry, and so a second finalClose, if and only if a child was registered after a finalClose had
   been promised.
   */
  lemma FinalCloseCount(es: seq<Event>, s: nat)
    requires CanRun(NoStmts, es) && IsPooled(Run(NoStmts, es), s)
    ensures var st := Run(NoStmts, es);
      var f := FinalsOf(st.finals, s);
      && f.due + f.ran + Present(st.dep, s) == f.revived
      && f.revived >= 1
      && (f.revived > 1 <==> HasLateChild(st, s))
  {
    hide CanRun, Run;
    NoStmtsInv();
    RunInv(NoStmts, es);
    hide TableOk, KindsOk, CallsOk;
  }

  /** Once nothing keeps it any more: finalClose was promised exactly once, or there was such a child. */
  lemma FinalCloseOnceIff(es: seq<Event>, s: nat)
    requires CanRun(NoStmts, es) && IsPooled(Run(NoStmts, es), s)
    requires forall d :: !Keeps(Run(NoStmts, es), d, s)
    ensures var st := Run(NoStmts, es);
      FinalsOf(st.finals, s).due + FinalsOf(st.finals, s).ran == 1 <==> !HasLateChild(st, s)
  {
    hide CanRun, Run, Keeps;
    UnkeptIsFinalised(es, s);
    FinalCloseCount(es, s);
    NoStmtsInv();
    RunInv(NoStmts, es);
    var st := Run(NoStmts, es);
    if s in st.dep {
      var d :| d in st.dep[s];
      assert InTable(st.dep, d, s);
    }
  }

  /**
   And with such a child it does happen twice: the transaction looks at the statement, the
   statement is closed and finalised, and only then the child is registered, and closed.
   */
  lemma LateChildFinalisesTwice() returns (es: seq<Event>)
    ensures CanRun(NoStmts, es)
    ensures FinalsOf(Run(NoStmts, es).finals, 0).ran == 2
  {
    hide CanRun, Run;
    var s1 := Step(NoStmts, Prepares(0));
    assert s1.dep[0] == {OnStmt(0)} && s1.dep.Keys == {0};
    var s2 := Step(s1, ChildLooks(1, 0));
    var end;
    es, end := ClosedMeanwhile(s2);
    es := Prepend(s1, ChildLooks(1, 0), es, end);
    es := Prepend(NoStmts, Prepares(0), es, end);
  }

  lemma ClosedMeanwhile(s: State) returns (es: seq<Event>, end: State)
    requires s.dep == map[0 := {OnStmt(0)}] && s.finals == map[0 := Finals(0, 0, 1)] && s.calls == map[]
    requires s.stmts == map[0 := Stmt(Pooled, Open, false), 1 := Stmt(Child(0), Registering, false)]
    ensures CanRun(s, es) && Run(s, es) == end && FinalsOf(end.finals, 0).ran == 2
  {
    hide CanRun, Run;
    var s3 := Step(s, CloseLocks(0));
    var s4 := Step(s3, CloseMarks(0));
    var s5 := Step(s4, CloseDrops(0));
    assert s5.finals == map[0 := Finals(1, 0, 1)] && s5.dep == map[];
    es, end := ChildComesLate(Step(s5, FinalCloses(0)));
    es := Prepend(s5, FinalCloses(0), es, end);
    es := Prepend(s4, CloseDrops(0), es, end);
    es := Prepend(s3, CloseMarks(0), es, end);
    es := Prepend(s, CloseLocks(0), es, end);
  }

  lemma ChildComesLate(s: State) returns (es: seq<Event>, end: State)
    requires s.dep == map[] && s.finals == map[0 := Finals(0, 1, 1)] && s.calls == map[]
    requires s.stmts == map[0 := Stmt(Pooled, Closed, false), 1 := Stmt(Child(0), Registering, false)]
    ensures CanRun(s, es) && Run(s, es) == end && FinalsOf(end.finals, 0).ran == 2
  {
    hide CanRun, Run;
    var s1 := Step(s, ChildRegisters(1));
    var s2 := Step(s1, CloseLocks(1));
    var s3 := Step(s2, CloseMarks(1));
    var s4 := Step(s3, CloseDrops(1));
    assert FinalsOf(s4.finals, 0) == Finals(1, 1, 2);
    end := Step(s4, FinalCloses(0));
    es := [];
    Nothing(end);
    es := Prepend(s4, FinalCloses(0), es, end);
    es := Prepend(s3, CloseDrops(1), es, end);
    es := Prepend(s2, CloseMarks(1), es, end);
    es := Prepend(s1, CloseLocks(1), es, end);
    es := Prepend(s, ChildRegisters(1), es, end);
  }

  lemma Nothing(s: State)
    ensures CanRun(s, []) && Run(s, []) == s
  {
  }

  /** One more step in front of a concrete run. */
  lemma Prepend(s: State, e: Event, rest: seq<Event>, end: State) returns (es: seq<Event>)
    requires Enabled(s, e) && CanRun(Step(s, e), rest) && Run(Step(s, e), rest) == end
    ensures CanRun(s, es) && Run(s, es) == end
  {
    es := [e] + rest;
    assert es[1..] == rest;
  }
}

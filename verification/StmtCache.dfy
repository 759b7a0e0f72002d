/**
 A pool statement's cache of driver statements, one for each connection it has been prepared on,
 and the lazy purge that is only tried when enough connections have been closed. The machine shows
 one statement against any number of connections being used, closed and counted around it.
 */
module StmtCacheState {
  import opened Wrappers
  import opened SwapRemove

  const TWO_TO_THE_64 := 0x1_0000_0000_0000_0000

  datatype Entry = Entry(conn: nat, ds: nat)

  /**
   Marked: Close has set dbmuClosed. Counted: and numClosed has been incremented. The quiet pair is
   the same for a connection closed by DBClose, which does not set dbmuClosed.
   */
  datatype Life = Alive | Marked | Counted | QuietlyMarked | QuietlyCounted

  /** What the caller holding a connection knows of the cache. */
  datatype Use = Looking | Missing | Ready(ds: nat)

  datatype State = State(
    css: seq<Entry>,
    lastNumClosed: nat,
    numClosed: nat,                 // the true count; the source keeps it modulo 2^64
    life: map<nat, Life>,
    users: map<nat, Use>,           // connections in a caller's hands, one caller each
    home: map<nat, nat>,            // driver statement -> the connection it was prepared on
    purging: Option<nat>)           // mid-purge: the count the purge has read

  datatype Event =
    | Opens(c: nat)
    | Takes(c: nat)
    | Looks(c: nat)
    | Adds(c: nat, ds: nat)
    | PutsBack(c: nat)
    | Closes(c: nat, quiet: bool)
    | Counts(c: nat)
    | PurgeReads
    | PurgeRuns

  /** How many closed connections it takes before a cache of n entries is purged. */
  function Threshold(n: nat): nat {
    if n / 2 + 1 > 10 then 10 else n / 2 + 1
  }

  /** The source's test, in unsigned 64-bit arithmetic. */
  predicate Skips(css: seq<Entry>, lastNumClosed: nat, numClosed: nat) {
    (numClosed % TWO_TO_THE_64 - lastNumClosed % TWO_TO_THE_64) % TWO_TO_THE_64 < Threshold(|css|)
  }

  predicate DbmuClosed(life: map<nat, Life>, c: nat) {
    c in life && (life[c] == Marked || life[c] == Counted)
  }

  function DeadEntries(css: seq<Entry>, life: map<nat, Life>): set<Entry> {
    set e | e in css && DbmuClosed(life, e.conn)
  }

  /** The entry found by walking the cache from the front. */
  function Find(css: seq<Entry>, c: nat): (r: Option<nat>)
    ensures r.None? <==> forall i :: 0 <= i < |css| ==> css[i].conn != c
    ensures r.Some? ==> Entry(c, r.value) in css
  {
    if css == [] then None
    else if css[0].conn == c then Some(css[0].ds)
    else
      var r := Find(css[1..], c);
      assert forall i :: 0 < i < |css| ==> css[i] == css[1..][i - 1];
      r
  }

  predicate Enabled(s: State, e: Event) {
    match e
    case Opens(c) => c !in s.life
    case Takes(c) => c in s.life && s.life[c] == Alive && c !in s.users
    case Looks(c) => c in s.users && s.users[c] == Looking && s.purging.None?
    case Adds(c, ds) => c in s.users && s.users[c] == Missing && ds !in s.home && s.purging.None?
    case PutsBack(c) => c in s.users
    case Closes(c, _) => c in s.life && s.life[c] == Alive && c !in s.users
    case Counts(c) => c in s.life && (s.life[c] == Marked || s.life[c] == QuietlyMarked)
    case PurgeReads => s.purging.None?
    case PurgeRuns => s.purging.Some?
  }

  function Step(s: State, e: Event): State
    requires Enabled(s, e)
  {
    match e
    case Opens(c) => s.(life := s.life[c := Alive])
    case Takes(c) => s.(users := s.users[c := Looking])
    case Looks(c) =>
      var r := Find(s.css, c);
      s.(users := s.users[c := if r.Some? then Ready(r.value) else Missing])
    case Adds(c, ds) =>
      s.(css := s.css + [Entry(c, ds)], home := s.home[ds := c], users := s.users[c := Ready(ds)])
    case PutsBack(c) => s.(users := s.users - {c})
    case Closes(c, quiet) => s.(life := s.life[c := if quiet then QuietlyMarked else Marked])
    case Counts(c) =>
      s.(life := s.life[c := if s.life[c] == Marked then Counted else QuietlyCounted], numClosed := s.numClosed + 1)
    case PurgeReads =>
      if Skips(s.css, s.lastNumClosed, s.numClosed) then s else s.(purging := Some(s.numClosed))
    case PurgeRuns =>
      s.(css := Purge(s.css, 0, DeadEntries(s.css, s.life)).0, lastNumClosed := s.purging.value, purging := None)
  }

  ghost predicate CanRun(s: State, es: seq<Event>)
    decreases |es|
  {
    es == [] || (Enabled(s, es[0]) && CanRun(Step(s, es[0]), es[1..]))
  }

  ghost function Run(s: State, es: seq<Event>): State
    requires CanRun(s, es)
    decreases |es|
  {
    if es == [] then s else Run(Step(s, es[0]), es[1..])
  }

  /** A statement just prepared with driver statement ds on connection c, which is being put back. */
  function Prepared(c: nat, ds: nat, numClosed: nat): State {
    State([Entry(c, ds)], numClosed, numClosed, map[c := Alive], map[c := Ready(ds)], map[ds := c], None)
  }
}

module StmtCacheTheorems {
  import opened Wrappers
  import opened SwapRemove
  import opened StmtCacheState

  ghost predicate OneEach(css: seq<Entry>) {
    forall i, j :: 0 <= i < j < |css| ==> css[i].conn != css[j].conn
  }

  /** How many entries are for one of the connections in cs. */
  function Hits(css: seq<Entry>, cs: set<nat>): nat {
    if css == [] then 0 else Hits(css[..|css| - 1], cs) + (if css[|css| - 1].conn in cs then 1 else 0)
  }

  function With(life: map<nat, Life>, l: Life): set<nat> {
    set c | c in life && life[c] == l
  }

  ghost predicate UsersOk(s: State) {
    && (forall c :: c in s.users ==> c in s.life && s.life[c] == Alive)
    && (forall c :: c in s.users && s.users[c] == Missing ==> forall i :: 0 <= i < |s.css| ==> s.css[i].conn != c)
    && (forall c :: c in s.users && s.users[c].Ready? ==> s.users[c].ds in s.home && s.home[s.users[c].ds] == c)
  }

  ghost predicate EntriesOk(s: State) {
    && OneEach(s.css)
    && (forall i :: 0 <= i < |s.css| ==>
          s.css[i].conn in s.life && s.css[i].ds in s.home && s.home[s.css[i].ds] == s.css[i].conn)
  }

  /** Every counted connection still in the cache has been counted since the last purge. */
  ghost predicate CountOk(s: State) {
    && s.lastNumClosed + Hits(s.css, With(s.life, Counted)) <= s.numClosed
    && (s.purging.Some? ==> s.lastNumClosed <= s.purging.value <= s.numClosed)
  }

  ghost predicate Inv(s: State) {
    UsersOk(s) && EntriesOk(s) && CountOk(s)
  }

  // --- counting --------------------------------------------------------------------------

  lemma {:induction false} HitsNone(css: seq<Entry>, cs: set<nat>)
    requires forall i :: 0 <= i < |css| ==> css[i].conn !in cs
    ensures Hits(css, cs) == 0
  {
    if css != [] {
      HitsNone(css[..|css| - 1], cs);
    }
  }

  /** One more connection in the set: at most one more entry. */
  lemma {:induction false} HitsAdd(css: seq<Entry>, cs: set<nat>, c: nat)
    requires OneEach(css)
    ensures Hits(css, cs + {c}) <= Hits(css, cs) + 1
    ensures (forall i :: 0 <= i < |css| ==> css[i].conn != c) ==> Hits(css, cs + {c}) == Hits(css, cs)
  {
    if css != [] {
      HitsAdd(css[..|css| - 1], cs, c);
    }
  }

  lemma {:induction false} HitsSplit(css: seq<Entry>, a: set<nat>, b: set<nat>)
    requires a !! b
    ensures Hits(css, a + b) == Hits(css, a) + Hits(css, b)
  {
    if css != [] {
      HitsSplit(css[..|css| - 1], a, b);
    }
  }

  /** With one entry for a connection, no more entries than connections. */
  lemma {:induction false} HitsBound(css: seq<Entry>, cs: set<nat>)
    requires OneEach(css)
    ensures Hits(css, cs) <= |cs|
  {
    if css != [] {
      var last := css[|css| - 1].conn;
      if last in cs {
        HitsBound(css[..|css| - 1], cs - {last});
        HitsAdd(css[..|css| - 1], cs - {last}, last);
        assert cs - {last} + {last} == cs;
      } else {
        HitsBound(css[..|css| - 1], cs);
      }
    }
  }

  lemma HitsSnoc(css: seq<Entry>, e: Entry, cs: set<nat>)
    ensures Hits(css + [e], cs) == Hits(css, cs) + (if e.conn in cs then 1 else 0)
  {
    assert (css + [e])[..|css|] == css;
  }

  // --- the purge -------------------------------------------------------------------------

  /** The purge keeps one entry for each connection. */
  lemma {:induction false} PurgeOneEach(css: seq<Entry>, i: nat, dead: set<Entry>)
    requires i <= |css| && OneEach(css)
    ensures OneEach(Purge(css, i, dead).0)
    decreases |css| - i
  {
    if i == |css| {
    } else if css[i] in dead {
      PurgeOneEach(css[i := css[|css| - 1]][..|css| - 1], i, dead);
    } else {
      PurgeOneEach(css, i + 1, dead);
    }
  }

  /** It keeps exactly the entries whose connection is not marked closed, each as often as before. */
  lemma PurgeKeepsTheLiving(css: seq<Entry>, life: map<nat, Life>)
    ensures var r := Purge(css, 0, DeadEntries(css, life)).0;
      forall e :: multiset(r)[e] ==
        (if e.conn in life && (life[e.conn] == Marked || life[e.conn] == Counted) then 0 else multiset(css)[e])
  {
    var dead := DeadEntries(css, life);
    PurgeCounts(css, dead);
    forall e ensures multiset(Purge(css, 0, dead).0)[e] == (if DbmuClosed(life, e.conn) then 0 else multiset(css)[e]) {
      if DbmuClosed(life, e.conn) && e !in dead {
        assert e !in css;
        assert multiset(css)[e] == 0;
      }
    }
  }

  /**
   The two sections of a purge: it is begun unless the test says to skip it, and remembers the count
   it has read, not the one at its end.
   */
  lemma PurgeDoes(s: State)
    ensures Enabled(s, PurgeReads) ==>
      var skips := Skips(s.css, s.lastNumClosed, s.numClosed);
      Step(s, PurgeReads) == s.(purging := if skips then None else Some(s.numClosed))
    ensures Enabled(s, PurgeRuns) ==>
      var t, dead := Step(s, PurgeRuns), With(s.life, Marked) + With(s.life, Counted);
      && t == s.(css := t.css, lastNumClosed := s.purging.value, purging := None)
      && forall e :: multiset(t.css)[e] == if e.conn in dead then 0 else multiset(s.css)[e]
  {
    hide DeadEntries, Skips;
    PurgeKeepsTheLiving(s.css, s.life);
  }

  lemma PurgeEntries(s: State)
    requires Inv(s) && s.purging.Some?
    ensures UsersOk(Step(s, PurgeRuns)) && EntriesOk(Step(s, PurgeRuns)) && CountOk(Step(s, PurgeRuns))
  {
    var dead := DeadEntries(s.css, s.life);
    var r := Purge(s.css, 0, dead).0;
    PurgeOneEach(s.css, 0, dead);
    PurgeMembers(s.css, 0, dead);
    PurgePartition(s.css, 0, dead);
    assert forall i :: 0 <= i < |r| ==> r[i] in r && r[i] in s.css;
    HitsNone(r, With(s.life, Counted));
  }

  // --- steps -----------------------------------------------------------------------------

  lemma StepLooks(s: State, c: nat)
    requires Inv(s) && Enabled(s, Looks(c))
    ensures Inv(Step(s, Looks(c)))
  {
  }

  lemma StepAdds(s: State, c: nat, ds: nat)
    requires Inv(s) && Enabled(s, Adds(c, ds))
    ensures Inv(Step(s, Adds(c, ds)))
  {
    hide Hits;
    HitsSnoc(s.css, Entry(c, ds), With(s.life, Counted));
  }

  lemma StepCounts(s: State, c: nat)
    requires Inv(s) && Enabled(s, Counts(c))
    ensures Inv(Step(s, Counts(c)))
  {
    HitsAdd(s.css, With(s.life, Counted), c);
    var t := Step(s, Counts(c));
    if s.life[c] == Marked {
      assert With(t.life, Counted) == With(s.life, Counted) + {c};
    } else {
      assert With(t.life, Counted) == With(s.life, Counted);
    }
  }

  lemma StepOther(s: State, e: Event)
    requires Inv(s) && Enabled(s, e) && !e.Looks? && !e.Adds? && !e.Counts? && !e.PurgeRuns?
    ensures Inv(Step(s, e))
  {
    assert With(Step(s, e).life, Counted) == With(s.life, Counted);
  }

  lemma StepInv(s: State, e: Event)
    requires Inv(s) && Enabled(s, e)
    ensures Inv(Step(s, e))
  {
    hide UsersOk, EntriesOk, CountOk, Step, Enabled;
    match e
    case Looks(c) => StepLooks(s, c);
    case Adds(c, ds) => StepAdds(s, c, ds);
    case Counts(c) => StepCounts(s, c);
    case PurgeRuns => PurgeRunsInv(s);
    case _ => StepOther(s, e);
  }

  lemma PurgeRunsInv(s: State)
    requires Inv(s) && Enabled(s, PurgeRuns)
    ensures Inv(Step(s, PurgeRuns))
  {
    PurgeEntries(s);
  }

  lemma {:induction false} RunInv(s: State, es: seq<Event>)
    requires Inv(s) && CanRun(s, es)
    ensures Inv(Run(s, es))
    decreases |es|
  {
    if es != [] {
      hide Inv, Enabled, Step;
      StepInv(s, es[0]);
      RunInv(Step(s, es[0]), es[1..]);
    }
  }

  lemma PreparedInv(c: nat, ds: nat, numClosed: nat)
    ensures Inv(Prepared(c, ds, numClosed))
  {
    HitsNone([Entry(c, ds)], With(map[c := Alive], Counted));
  }

  // --- theorems --------------------------------------------------------------------------

  /**
   Over every run: the cache has at most one entry for a connection, every entry's driver statement
   was prepared on that connection, and so was the one a caller is given for the connection it
   holds.
   */
  lemma CacheIsRight(c: nat, ds: nat, numClosed: nat, es: seq<Event>)
    requires CanRun(Prepared(c, ds, numClosed), es)
    ensures var s := Run(Prepared(c, ds, numClosed), es);
      && OneEach(s.css)
      && (forall i :: 0 <= i < |s.css| ==> s.css[i].ds in s.home && s.home[s.css[i].ds] == s.css[i].conn)
      && (forall u :: u in s.users && s.users[u].Ready? ==> s.users[u].ds in s.home && s.home[s.users[u].ds] == u)
  {
    hide CanRun, Run;
    PreparedInv(c, ds, numClosed);
    RunInv(Prepared(c, ds, numClosed), es);
  }

  /**
   The unsigned test on numbers that differ by less than two to the 64: the purge is skipped exactly
   while fewer than ten connections, and at most half as many as there are entries, have been closed
   since the last one.
   */
  lemma SkipsIff(css: seq<Entry>, lastNumClosed: nat, numClosed: nat)
    requires lastNumClosed <= numClosed < lastNumClosed + 0x1_0000_0000_0000_0000
    ensures Skips(css, lastNumClosed, numClosed) <==>
              numClosed - lastNumClosed < 10 && numClosed - lastNumClosed <= |css| / 2
  {
  }

  /** The difference of the two counts never goes below zero, so it does not wrap. */
  lemma CountsNeverCross(c: nat, ds: nat, numClosed: nat, es: seq<Event>)
    requires CanRun(Prepared(c, ds, numClosed), es)
    ensures var s := Run(Prepared(c, ds, numClosed), es);
      && s.lastNumClosed <= s.numClosed
      && (s.numClosed - s.lastNumClosed < 0x1_0000_0000_0000_0000 ==>
            (Skips(s.css, s.lastNumClosed, s.numClosed) <==>
              s.numClosed - s.lastNumClosed < 10 && s.numClosed - s.lastNumClosed <= |s.css| / 2))
  {
    hide CanRun, Run;
    PreparedInv(c, ds, numClosed);
    RunInv(Prepared(c, ds, numClosed), es);
    var s := Run(Prepared(c, ds, numClosed), es);
    if s.numClosed - s.lastNumClosed < 0x1_0000_0000_0000_0000 {
      SkipsIff(s.css, s.lastNumClosed, s.numClosed);
    }
  }

  /**
   Skipping the purge is cheap: the entries of connections closed by Close are then fewer than ten,
   and at most half of all entries, not counting as many as there are connections whose close is
   under way.
   */
  lemma SkippedPurgeLeavesFew(c: nat, ds: nat, numClosed: nat, es: seq<Event>)
    requires CanRun(Prepared(c, ds, numClosed), es)
    ensures var s := Run(Prepared(c, ds, numClosed), es);
      var few := Hits(s.css, With(s.life, Marked) + With(s.life, Counted)) - |With(s.life, Marked)|;
      Skips(s.css, s.lastNumClosed, s.numClosed) && s.numClosed - s.lastNumClosed < 0x1_0000_0000_0000_0000 ==>
        few < 10 && few <= |s.css| / 2
  {
    hide CanRun, Run;
    PreparedInv(c, ds, numClosed);
    RunInv(Prepared(c, ds, numClosed), es);
    CountsNeverCross(c, ds, numClosed, es);
    var s := Run(Prepared(c, ds, numClosed), es);
    HitsSplit(s.css, With(s.life, Marked), With(s.life, Counted));
    HitsBound(s.css, With(s.life, Marked));
  }

  /** numClosed counts every connection whose close is complete, by Close or by DBClose, once. */
  ghost predicate CountedOnce(s: State, numClosed: nat) {
    s.numClosed == numClosed + |With(s.life, Counted)| + |With(s.life, QuietlyCounted)|
  }

  lemma WithOneMore(life: map<nat, Life>, c: nat, l: Life)
    requires c in life && life[c] != l
    ensures With(life[c := l], l) == With(life, l) + {c} && |With(life[c := l], l)| == |With(life, l)| + 1
    ensures forall k :: k != l && k != life[c] ==> With(life[c := l], k) == With(life, k)
  {
    assert With(life[c := l], l) == With(life, l) + {c};
  }

  lemma StepCountedOnce(s: State, e: Event, numClosed: nat)
    requires Enabled(s, e) && CountedOnce(s, numClosed)
    ensures CountedOnce(Step(s, e), numClosed)
  {
    hide With;
    if e.Counts? {
      WithOneMore(s.life, e.c, if s.life[e.c] == Marked then Counted else QuietlyCounted);
    } else if e.Closes? {
      WithOneMore(s.life, e.c, if e.quiet then QuietlyMarked else Marked);
    } else if e.Opens? {
      NewIsAlive(s.life, e.c);
    }
  }

  lemma NewIsAlive(life: map<nat, Life>, c: nat)
    requires c !in life
    ensures forall l :: l != Alive ==> With(life[c := Alive], l) == With(life, l)
  {
  }

  lemma {:induction false} RunCountedOnce(s: State, es: seq<Event>, numClosed: nat)
    requires CanRun(s, es) && CountedOnce(s, numClosed)
    ensures CountedOnce(Run(s, es), numClosed)
    decreases |es|
  {
    if es != [] {
      hide CountedOnce, Enabled, Step;
      StepCountedOnce(s, es[0], numClosed);
      RunCountedOnce(Step(s, es[0]), es[1..], numClosed);
    }
  }

  /** Over every run: the count grows by one for each connection closed, however it was closed. */
  lemma CountIsExact(c: nat, ds: nat, numClosed: nat, es: seq<Event>)
    requires CanRun(Prepared(c, ds, numClosed), es)
    ensures CountedOnce(Run(Prepared(c, ds, numClosed), es), numClosed)
  {
    hide CanRun, Run;
    var s := Prepared(c, ds, numClosed);
    assert With(s.life, Counted) == {} && With(s.life, QuietlyCounted) == {};
    RunCountedOnce(s, es, numClosed);
  }

  // --- connections closed by DBClose -----------------------------------------------------

  /** n connections with an entry each, none in use: the first k are at `done`, the others at `rest`. */
  ghost predicate Lives(s: State, n: nat, k: nat, done: Life, rest: Life) {
    && |s.css| == n && s.users == map[] && s.purging.None?
    && (forall i :: 0 <= i < n ==> s.css[i].conn == i)
    && (forall c: nat :: c in s.life <==> c < n)
    && (forall c :: c in s.life ==> s.life[c] == if c < k then done else rest)
    && (forall ds :: ds in s.home ==> ds < n)
  }

  lemma FindNone(css: seq<Entry>, c: nat)
    requires forall i :: 0 <= i < |css| ==> css[i].conn != c
    ensures Find(css, c) == None
  {
  }

  /** One more connection is dialled, prepared on and put back. */
  lemma OneMoreReady(s: State, n: nat) returns (es: seq<Event>, t: State)
    requires Lives(s, n, n, Alive, Alive)
    ensures CanRun(s, es) && Run(s, es) == t && Lives(t, n + 1, n + 1, Alive, Alive)
  {
    hide CanRun, Run;
    FindNone(s.css, n);
    var s1 := Step(s, Opens(n));
    var s2 := Step(s1, Takes(n));
    var s3 := Step(s2, Looks(n));
    var s4 := Step(s3, Adds(n, n));
    t := Step(s4, PutsBack(n));
    assert t.users == map[];
    NoEvents(t);
    es := Prepend(s4, PutsBack(n), [], t);
    es := Prepend(s3, Adds(n, n), es, t);
    es := Prepend(s2, Looks(n), es, t);
    es := Prepend(s1, Takes(n), es, t);
    es := Prepend(s, Opens(n), es, t);
  }

  lemma {:induction false} ManyReady(n: nat) returns (es: seq<Event>)
    requires n > 0
    ensures CanRun(Prepared(0, 0, 0), es) && Lives(Run(Prepared(0, 0, 0), es), n, n, Alive, Alive)
  {
    hide CanRun, Run;
    var start := Prepared(0, 0, 0);
    if n == 1 {
      var t := Step(start, PutsBack(0));
      assert t.users == map[] && t.css == [Entry(0, 0)] && t.life == map[0 := Alive] && t.home == map[0 := 0];
      assert Lives(t, 1, 1, Alive, Alive);
      NoEvents(t);
      es := Prepend(start, PutsBack(0), [], t);
    } else {
      es := ManyReady(n - 1);
      var more, t := OneMoreReady(Run(start, es), n - 1);
      RunThen(start, es, more);
      es := es + more;
    }
  }

  /** DBClose marks them all. */
  lemma {:induction false} MarkAll(s: State, n: nat, k: nat) returns (es: seq<Event>, t: State)
    requires k <= n && Lives(s, n, k, QuietlyMarked, Alive)
    ensures CanRun(s, es) && Run(s, es) == t && Lives(t, n, n, QuietlyMarked, Alive)
    decreases n - k
  {
    hide CanRun, Run;
    if k == n {
      NoEvents(s);
      es, t := [], s;
    } else {
      es, t := MarkAll(Step(s, Closes(k, true)), n, k + 1);
      es := Prepend(s, Closes(k, true), es, t);
    }
  }

  /** And the driver connections are closed and counted. */
  lemma {:induction false} CountAll(s: State, n: nat, k: nat) returns (es: seq<Event>, t: State)
    requires k <= n && Lives(s, n, k, QuietlyCounted, QuietlyMarked)
    ensures CanRun(s, es) && Run(s, es) == t && Lives(t, n, n, QuietlyCounted, QuietlyMarked)
    decreases n - k
  {
    hide CanRun, Run;
    if k == n {
      NoEvents(s);
      es, t := [], s;
    } else {
      es, t := CountAll(Step(s, Counts(k)), n, k + 1);
      es := Prepend(s, Counts(k), es, t);
    }
  }

  lemma NoEvents(s: State)
    ensures CanRun(s, []) && Run(s, []) == s
  {
  }

  /** One more event in front of a run. */
  lemma Prepend(s: State, e: Event, rest: seq<Event>, end: State) returns (es: seq<Event>)
    requires Enabled(s, e) && CanRun(Step(s, e), rest) && Run(Step(s, e), rest) == end
    ensures CanRun(s, es) && Run(s, es) == end
  {
    es := [e] + rest;
    assert es[1..] == rest;
  }

  lemma {:induction false} RunThen(s: State, es: seq<Event>, more: seq<Event>)
    requires CanRun(s, es) && CanRun(Run(s, es), more)
    ensures CanRun(s, es + more) && Run(s, es + more) == Run(Run(s, es), more)
    decreases |es|
  {
    if es == [] {
      assert es + more == more;
    } else {
      RunThen(Step(s, es[0]), es[1..], more);
      assert (es + more)[1..] == es[1..] + more;
    }
  }

  lemma ManyClosed(n: nat) returns (es: seq<Event>)
    requires n > 0
    ensures CanRun(Prepared(0, 0, 0), es)
    ensures Lives(Run(Prepared(0, 0, 0), es), n, n, QuietlyCounted, QuietlyMarked)
  {
    var start := Prepared(0, 0, 0);
    es := ManyReady(n);
    var s := Run(start, es);
    var marks, s1 := MarkAll(s, n, 0);
    var counts, s2 := CountAll(s1, n, 0);
    hide CanRun, Run;
    RunThen(start, es, marks);
    RunThen(start, es + marks, counts);
    es := es + marks + counts;
  }

  /** A purge finds nothing to remove when no connection is marked. */
  lemma PurgeOfQuiet(s: State, n: nat)
    requires Lives(s, n, n, QuietlyCounted, QuietlyMarked)
    ensures Purge(s.css, 0, DeadEntries(s.css, s.life)).0 == s.css
  {
    assert DeadEntries(s.css, s.life) == {};
    NothingToPurge(s.css, 0, DeadEntries(s.css, s.life));
  }

  lemma {:induction false} NothingToPurge(css: seq<Entry>, i: nat, dead: set<Entry>)
    requires i <= |css| && dead == {}
    ensures Purge(css, i, dead) == (css, [])
    decreases |css| - i
  {
    if i < |css| {
      NothingToPurge(css, i + 1, dead);
    }
  }

  /**
   No such bound holds for connections closed by DBClose: for every n there is a run after which the
   purge is skipped although n entries, all there are, belong to closed and counted connections.
   */
  lemma QuietEntriesStay(n: nat) returns (es: seq<Event>)
    requires n > 0
    ensures CanRun(Prepared(0, 0, 0), es)
    ensures var s := Run(Prepared(0, 0, 0), es);
      && |s.css| == n && Skips(s.css, s.lastNumClosed, s.numClosed)
      && (forall i :: 0 <= i < n ==> s.css[i].conn in s.life && s.life[s.css[i].conn] == QuietlyCounted)
  {
    hide CanRun, Run;
    es := ManyClosed(n);
    var s := Run(Prepared(0, 0, 0), es);
    if !Skips(s.css, s.lastNumClosed, s.numClosed) {
      PurgeOfQuiet(s, n);
      var s1 := Step(s, PurgeReads);
      var t := Step(s1, PurgeRuns);
      NoEvents(t);
      var more := Prepend(s1, PurgeRuns, [], t);
      more := Prepend(s, PurgeReads, more, t);
      RunThen(Prepared(0, 0, 0), es, more);
      es := es + more;
    }
  }
}

/** The cache as the source keeps it: a slice in the statement, walked and purged in place. */
module StmtCache {
  import opened Wrappers
  import opened SwapRemove
  import opened StmtCacheState
  import opened StmtCacheTheorems

  /** kept has the entries of css whose connection is not marked closed, each as often as css has them. */
  ghost predicate Living(css: seq<Entry>, life: map<nat, Life>, kept: seq<Entry>) {
    forall e :: multiset(kept)[e] ==
      (if e.conn in life && (life[e.conn] == Marked || life[e.conn] == Counted) then 0 else multiset(css)[e])
  }

  class Stmt {
    var css: seq<Entry>
    var lastNumClosed: nat

    constructor (dc: nat, ds: nat, numClosed: nat)
      ensures css == Prepared(dc, ds, numClosed).css && lastNumClosed == Prepared(dc, ds, numClosed).lastNumClosed
      ensures css == [Entry(dc, ds)] && lastNumClosed == numClosed
    {
      css := [Entry(dc, ds)];
      lastNumClosed := numClosed;
    }

    /** removeClosedStmtLocked; numClosed is what it reads, life what it sees under the pool's mutex. */
    method RemoveClosedStmtLocked(numClosed: nat, life: map<nat, Life>)
      modifies this
      ensures if Skips(old(css), old(lastNumClosed), numClosed)
              then css == old(css) && lastNumClosed == old(lastNumClosed)
              else css == Purge(old(css), 0, DeadEntries(old(css), life)).0 && lastNumClosed == numClosed
      ensures old(lastNumClosed) <= numClosed < old(lastNumClosed) + 0x1_0000_0000_0000_0000 ==>
        var n := numClosed - old(lastNumClosed);
        if n < 10 && n <= |old(css)| / 2 then css == old(css) && lastNumClosed == old(lastNumClosed)
        else lastNumClosed == numClosed && Living(old(css), life, css)
    {
      PurgeKeepsTheLiving(css, life);
      if lastNumClosed <= numClosed < lastNumClosed + 0x1_0000_0000_0000_0000 {
        SkipsIff(css, lastNumClosed, numClosed);
      }
      var t := |css| / 2 + 1;
      if t > 10 {
        t := 10;
      }
      if (numClosed % TWO_TO_THE_64 - lastNumClosed % TWO_TO_THE_64) % TWO_TO_THE_64 < t {
        return;
      }
      PurgeClosed(life);
      lastNumClosed := numClosed;
    }

    method PurgeClosed(life: map<nat, Life>)
      modifies this`css
      ensures css == Purge(old(css), 0, DeadEntries(old(css), life)).0
    {
      ghost var dead := DeadEntries(css, life);
      ghost var result := Purge(css, 0, dead).0;
      var i := 0;
      while i < |css|
        invariant 0 <= i <= |css|
        invariant Purge(css, i, dead).0 == result
        invariant forall e :: e in css ==> (e in dead <==> DbmuClosed(life, e.conn))
        decreases |css| - i
      {
        if css[i].conn in life && (life[css[i].conn] == Marked || life[css[i].conn] == Counted) {
          css := css[i := css[|css| - 1]];
          css := css[..|css| - 1];
        } else {
          i := i + 1;
        }
      }
    }

    /** The walk in connStmt. */
    method FindOn(dc: nat) returns (ds: Option<nat>)
      ensures ds == Find(css, dc)
    {
      var i := 0;
      while i < |css|
        invariant 0 <= i <= |css|
        invariant Find(css, dc) == Find(css[i..], dc)
      {
        if css[i].conn == dc {
          return Some(css[i].ds);
        }
        assert css[i..][1..] == css[i + 1..];
        i := i + 1;
      }
      ds := None;
    }

    /** prepareOnConnLocked after the driver has prepared ds. */
    method AddOn(dc: nat, ds: nat)
      modifies this`css
      ensures css == old(css) + [Entry(dc, ds)]
      ensures Find(css, dc) == if Find(old(css), dc).Some? then Find(old(css), dc) else Some(ds)
      ensures forall c :: c != dc ==> Find(css, c) == Find(old(css), c)
    {
      forall c ensures Find(css + [Entry(dc, ds)], c) ==
                  if Find(css, c).Some? || c != dc then Find(css, c) else Some(ds)
      {
        FindAfterAdd(css, Entry(dc, ds), c);
      }
      css := css + [Entry(dc, ds)];
    }
  }

  /** An entry at the end is found for its connection if there is no earlier one, and for no other. */
  lemma {:induction false} FindAfterAdd(css: seq<Entry>, e: Entry, c: nat)
    ensures Find(css + [e], c) == if Find(css, c).Some? || c != e.conn then Find(css, c) else Some(e.ds)
  {
    if css != [] {
      FindAfterAdd(css[1..], e, c);
      assert (css + [e])[1..] == css[1..] + [e];
    }
  }
}

/** A driver connection as the pool sees it: identity plus the fields of the source's struct. */
module DriverConns {

  /** What a driver call can fail with: the connection is bad, or anything else. */
  datatype Err = ErrBadConn | ErrOther(code: int)

  class DriverConn {
    const createdAt: int
    var returnedAt: int
    var inUse: bool
    var closed: bool
    var dbmuClosed: bool
    var finalClosed: bool

    constructor (now: int, inUse: bool)
      ensures createdAt == now && returnedAt == now && this.inUse == inUse
      ensures !closed && !dbmuClosed && !finalClosed
    {
      createdAt, returnedAt := now, now;
      this.inUse := inUse;
      closed, dbmuClosed, finalClosed := false, false, false;
    }
  }
}

/**
 The pool as a state machine. One function per stretch of code that runs under the pool's mutex;
 whatever lives between two such stretches (dials, opener tokens, connections in somebody's
 hands, request channels) is part of the state, so a list of these steps is an interleaving of
 any number of callers, the opener and the cleaner.
 */
module PoolState {
  import opened Wrappers
  import opened DriverConns
  import opened Deps
  import opened SwapRemove

  const DEFAULT_MAX_IDLE_CONNS := 2
  const CONNECTION_REQUEST_QUEUE_SIZE := 1_000_000

  datatype Strategy = AlwaysNewConn | CachedOrNewConn

  /**
   Where a connection is. Held: a caller has it. InChan: it was sent to a waiter that has not
   received it. Closing: somebody must still call Close on it. Marked, Finalizing and Finalized
   are the three points inside Close after the closed flag is set, after the dependency is
   dropped, and after the driver connection is closed but still counted.
   */
  datatype Place = Idle | Held | InChan(key: nat) | Closing | Marked | Finalizing | Finalized

  datatype ConnRec = ConnRec(
    createdAt: int,
    returnedAt: int,
    inUse: bool,
    closed: bool,
    dbmuClosed: bool,
    finalClosed: bool,
    place: Place)

  /** A request channel of capacity one. */
  datatype Chan = Empty | Sent(conn: Option<DriverConn>, err: Option<Err>) | Shut

  /** A caller blocked in conn: its channel, and whether it has already taken its key back. */
  datatype Waiter = Waiter(strategy: Strategy, lifetime: int, chan: Chan, cancelled: bool)

  datatype Counters = Counters(
    waitCount: nat,
    maxIdleClosed: nat,
    maxIdleTimeClosed: nat,
    maxLifetimeClosed: nat)

  datatype State = State(
    // fields of the source's DB
    closed: bool,
    maxOpen: int,
    maxIdleCount: int,
    maxLifetime: int,
    maxIdleTime: int,
    numOpen: int,
    free: seq<DriverConn>,
    requests: set<nat>,
    nextRequest: nat,
    dep: map<DriverConn, set<DriverConn>>,
    tokens: nat,
    stats: Counters,
    // between critical sections
    conns: map<DriverConn, ConnRec>,
    waiting: map<nat, Waiter>,
    dials: nat,
    openerDials: nat,
    leaked: nat,
    pendingSyncs: nat)

  const InitState := State(false, 0, 0, 0, 0, 0, [], {}, 0, map[], 0,
                           Counters(0, 0, 0, 0), map[], map[], 0, 0, 0, 0)

  /** maxIdleConnsLocked: zero means the default, negative means none. */
  function MaxIdleConns(maxIdleCount: int): nat {
    if maxIdleCount == 0 then DEFAULT_MAX_IDLE_CONNS
    else if maxIdleCount < 0 then 0
    else maxIdleCount
  }

  function MaxIdle(s: State): nat {
    MaxIdleConns(s.maxIdleCount)
  }

  /** The connection is older than the limit; a limit of zero or less never expires. */
  predicate Expired(createdAt: int, limit: int, now: int) {
    limit > 0 && createdAt + limit < now
  }

  function CountLifetime(st: Counters, n: nat): Counters {
    st.(maxLifetimeClosed := st.maxLifetimeClosed + n)
  }

  /**
   The count of open connections after a section: not above the limit, or at least not further
   above it than before. A limit of zero means no limit.
   */
  predicate WithinLimit(s: State, s': State) {
    && s'.maxOpen == s.maxOpen
    && (s.maxOpen > 0 ==> s'.numOpen <= s.numOpen || s'.numOpen <= s.maxOpen)
  }

  /** Among the waiters' channels, a section changed at most the one of the request it picked. */
  predicate OneAnswer(s: State, s': State, pick: nat) {
    && s'.nextRequest == s.nextRequest
    && (s'.waiting == s.waiting
        || (!s.closed && s.requests != {} && pick in s.waiting && pick in s'.waiting
            && s'.waiting == s.waiting[pick := s.waiting[pick].(chan := s'.waiting[pick].chan)]))
  }

  // --- pieces shared by several sections -------------------------------------------------

  /** How many opener tokens the pending requests are entitled to. */
  function Wanted(s: State): int {
    if s.maxOpen > 0 && |s.requests| > s.maxOpen - s.numOpen
    then s.maxOpen - s.numOpen else |s.requests|
  }

  function MaybeOpenNewConnections(s: State): (r: State)
    ensures WithinLimit(s, r)
    ensures s.conns.Keys <= r.conns.Keys
    ensures r.waiting == s.waiting && r.nextRequest == s.nextRequest
  {
    if Wanted(s) <= 0 then s
    else if s.closed then s.(numOpen := s.numOpen + 1, leaked := s.leaked + 1)
    else s.(numOpen := s.numOpen + Wanted(s), tokens := s.tokens + Wanted(s))
  }

  /** The pending request `pick` is answered. */
  function Answer(s: State, dc: Option<DriverConn>, err: Option<Err>, pick: nat): State
    requires pick in s.waiting && (dc.Some? ==> dc.value in s.conns)
  {
    s.(requests := s.requests - {pick},
       waiting := s.waiting[pick := s.waiting[pick].(chan := Sent(dc, err))],
       conns := if dc.None? then s.conns
                else s.conns[dc.value := s.conns[dc.value].(inUse := true, place := InChan(pick))])
  }

  function AppendIdle(s: State, dc: DriverConn): State
    requires dc in s.conns
  {
    s.(free := s.free + [dc], conns := s.conns[dc := s.conns[dc].(place := Idle)])
  }

  /** Hand a connection or an error to the request `pick`, or put the connection on the idle list. */
  function PutConnDBLocked(s: State, dc: Option<DriverConn>, err: Option<Err>, pick: nat): (r: (State, bool))
    requires dc.Some? <==> err.None?
    requires dc.Some? ==> dc.value in s.conns
    requires !s.closed && s.requests != {} ==> pick in s.requests && pick in s.waiting
    ensures WithinLimit(s, r.0)
    ensures s.conns.Keys <= r.0.conns.Keys
    ensures OneAnswer(s, r.0, pick)
    ensures !r.1 ==> r.0 == s.(stats := r.0.stats)
  {
    if s.closed || (s.maxOpen > 0 && s.numOpen > s.maxOpen) then (s, false)
    else if s.requests != {} then
      (Answer(s, dc, err, pick), true)
    else if dc.Some? then
      if MaxIdle(s) > |s.free| then (AppendIdle(s, dc.value), true)
      else (s.(stats := s.stats.(maxIdleClosed := s.stats.maxIdleClosed + 1)), false)
    else (s, false)
  }

  // --- conn ------------------------------------------------------------------------------

  /** A caller of conn has dc in its hands; true if it has expired and must be closed instead. */
  function Claim(s: State, dc: DriverConn, check: bool, lifetime: int, now: int): (r: (State, bool))
    requires dc in s.conns
  {
    var expired := check && Expired(s.conns[dc].createdAt, lifetime, now);
    (s.(conns := s.conns[dc := s.conns[dc].(place := if expired then Closing else Held)],
        stats := if expired then CountLifetime(s.stats, 1) else s.stats),
     expired)
  }

  datatype Begin =
    | DBClosed
    | ContextDone
    | Cached(dc: DriverConn)
    | CachedExpired(dc: DriverConn)
    | MustWait(key: nat)
    | MustDial

  /** The section of conn that decides between an idle connection, a request and a dial. */
  function ConnBegin(s: State, ctxDone: bool, strategy: Strategy, now: int): (r: (State, Begin))
    requires |s.free| > 0 ==> s.free[0] in s.conns
    ensures WithinLimit(s, r.0)
    ensures s.conns.Keys <= r.0.conns.Keys
  {
    if s.closed then (s, DBClosed)
    else if ctxDone then (s, ContextDone)
    else if strategy == CachedOrNewConn && |s.free| > 0 then
      var dc := s.free[0];
      var inUse := s.conns[dc].(inUse := true);
      var r := Claim(s.(free := s.free[1..], conns := s.conns[dc := inUse]), dc, true, s.maxLifetime, now);
      (r.0, if r.1 then CachedExpired(dc) else Cached(dc))
    else if s.maxOpen > 0 && s.numOpen >= s.maxOpen then
      (s.(requests := s.requests + {s.nextRequest},
          nextRequest := s.nextRequest + 1,
          stats := s.stats.(waitCount := s.stats.waitCount + 1),
          waiting := s.waiting[s.nextRequest := Waiter(strategy, s.maxLifetime, Empty, false)]),
       MustWait(s.nextRequest))
    else (s.(numOpen := s.numOpen + 1, dials := s.dials + 1), MustDial)
  }

  function DialFailed(s: State): (r: State)
    requires s.dials > 0
    ensures WithinLimit(s, r)
    ensures s.conns.Keys <= r.conns.Keys
  {
    MaybeOpenNewConnections(s.(numOpen := s.numOpen - 1, dials := s.dials - 1))
  }

  function DialSucceeded(s: State, dc: DriverConn, now: int): (r: State)
    requires s.dials > 0
    ensures WithinLimit(s, r)
    ensures s.conns.Keys <= r.conns.Keys
  {
    s.(dials := s.dials - 1,
       conns := s.conns[dc := ConnRec(now, now, true, false, false, false, Held)],
       dep := s.dep[dc := {dc}])
  }

  datatype Received = GotConn(dc: DriverConn) | GotErr(err: Err) | GotExpired(dc: DriverConn) | GotClosed

  /** The waiter on `key` receives from its channel. */
  function Receive(s: State, key: nat, now: int): (r: (State, Received))
    requires key in s.waiting && s.waiting[key].chan != Empty
    requires s.waiting[key].chan.Sent? ==>
      var ch := s.waiting[key].chan;
      (ch.conn.Some? <==> ch.err.None?) && (ch.conn.Some? ==> ch.conn.value in s.conns)
    ensures WithinLimit(s, r.0)
    ensures s.conns.Keys <= r.0.conns.Keys
  {
    var w := s.waiting[key];
    var s1 := s.(waiting := s.waiting - {key});
    if w.chan.Shut? then (s1, GotClosed)
    else if w.chan.conn.None? then (s1, GotErr(w.chan.err.value))
    else
      var dc := w.chan.conn.value;
      var r := Claim(s1, dc, w.strategy == CachedOrNewConn, w.lifetime, now);
      (r.0, if r.1 then GotExpired(dc) else GotConn(dc))
  }

  /** The waiter's context ended: it takes its key out of the request map. */
  function CancelBegin(s: State, key: nat): (r: State)
    requires key in s.waiting
    ensures WithinLimit(s, r)
    ensures s.conns.Keys <= r.conns.Keys
  {
    s.(requests := s.requests - {key}, waiting := s.waiting[key := s.waiting[key].(cancelled := true)])
  }

  /** The cancelled waiter looks into its channel; a connection found there is now in its hands. */
  function CancelEnd(s: State, key: nat): (r: (State, Option<DriverConn>))
    requires key in s.waiting
    requires var ch := s.waiting[key].chan; ch.Sent? && ch.conn.Some? ==> ch.conn.value in s.conns
    ensures WithinLimit(s, r.0)
    ensures s.conns.Keys <= r.0.conns.Keys
  {
    var ch := s.waiting[key].chan;
    var s1 := s.(waiting := s.waiting - {key});
    if ch.Sent? && ch.conn.Some? then
      (s1.(conns := s.conns[ch.conn.value := s.conns[ch.conn.value].(place := Held)]), Some(ch.conn.value))
    else (s1, None)
  }

  // --- putConn ---------------------------------------------------------------------------

  datatype PutResult = NeverOut | Reused | MustClose

  /** The returned connection is out of use and in hand; an expired one counts as bad. */
  function TakeIn(s: State, dc: DriverConn, err: Option<Err>, now: int): (State, Option<Err>)
    requires dc in s.conns
  {
    var tooOld := err != Some(ErrBadConn) && Expired(s.conns[dc].createdAt, s.maxLifetime, now);
    (s.(conns := s.conns[dc := s.conns[dc].(inUse := false, returnedAt := now, place := Closing)],
        stats := if tooOld then CountLifetime(s.stats, 1) else s.stats),
     if tooOld then Some(ErrBadConn) else err)
  }

  function PutConn(s: State, dc: DriverConn, err: Option<Err>, now: int, pick: nat): (r: (State, PutResult))
    requires dc in s.conns
    requires !s.closed && s.requests != {} ==> pick in s.requests && pick in s.waiting
    ensures WithinLimit(s, r.0)
    ensures s.conns.Keys <= r.0.conns.Keys
    ensures OneAnswer(s, r.0, pick)
  {
    if !s.conns[dc].inUse then (s, NeverOut)
    else
      var t := TakeIn(s, dc, err, now);
      if t.1 == Some(ErrBadConn) then (MaybeOpenNewConnections(t.0), MustClose)
      else
        var r := PutConnDBLocked(t.0, Some(dc), None, pick);
        (r.0, if r.1 then Reused else MustClose)
  }

  // --- driverConn.Close ------------------------------------------------------------------

  /** First part of Close, under the connection's own lock; false is the duplicate-close error. */
  function CloseMark(s: State, dc: DriverConn): (r: (State, bool))
    requires dc in s.conns
    ensures WithinLimit(s, r.0)
    ensures s.conns.Keys <= r.0.conns.Keys
  {
    if s.conns[dc].closed then (s, false)
    else (s.(conns := s.conns[dc := s.conns[dc].(closed := true, place := Marked)]), true)
  }

  /** Second part of Close, under the pool's mutex. */
  function CloseDep(s: State, dc: DriverConn): (r: (State, DepResult))
    requires dc in s.conns
    ensures WithinLimit(s, r.0)
    ensures s.conns.Keys <= r.0.conns.Keys
  {
    var d := RemoveDep(s.dep, dc, dc);
    (s.(conns := s.conns[dc := s.conns[dc].(dbmuClosed := true, place := Finalizing)], dep := d.0), d.1)
  }

  /** finalClose closes the driver connection. */
  function DriverClose(s: State, dc: DriverConn): (r: State)
    requires dc in s.conns
    ensures WithinLimit(s, r)
    ensures s.conns.Keys <= r.conns.Keys
  {
    s.(conns := s.conns[dc := s.conns[dc].(finalClosed := true, place := Finalized)])
  }

  /** finalClose gives the slot back. */
  function FinalCount(s: State, dc: DriverConn): (r: State)
    ensures WithinLimit(s, r)
    ensures r.conns.Keys == s.conns.Keys - {dc}
  {
    MaybeOpenNewConnections(s.(conns := s.conns - {dc}, numOpen := s.numOpen - 1))
  }

  // --- opener ----------------------------------------------------------------------------

  function OpenerTake(s: State): (r: State)
    requires s.tokens > 0
    ensures WithinLimit(s, r)
    ensures s.conns.Keys <= r.conns.Keys
  {
    s.(tokens := s.tokens - 1, openerDials := s.openerDials + 1)
  }

  /** The section of openNewConnection after the driver answered. */
  function OpenerDone(s: State, res: Result<DriverConn, Err>, now: int, pick: nat): (r: State)
    requires s.openerDials > 0
    requires !s.closed && s.requests != {} ==> pick in s.requests && pick in s.waiting
    ensures WithinLimit(s, r)
    ensures (res.Ok? ==> res.value !in s.conns) ==> s.conns.Keys <= r.conns.Keys
    ensures OneAnswer(s, r, pick)
  {
    var s1 := s.(openerDials := s.openerDials - 1);
    if s.closed then s1.(numOpen := s.numOpen - 1)
    else match res
      case Fail(err) =>
        MaybeOpenNewConnections(PutConnDBLocked(s1.(numOpen := s.numOpen - 1), None, Some(err), pick).0)
      case Ok(dc) =>
        var rec := ConnRec(now, now, false, false, false, false, Closing);
        var r := PutConnDBLocked(s1.(conns := s.conns[dc := rec]), Some(dc), None, pick);
        if r.1 then r.0.(dep := s.dep[dc := {dc}]) else r.0.(conns := s.conns, numOpen := s.numOpen - 1)
  }

  // --- limits, cleaner, DBClose ----------------------------------------------------------

  /** The records of the connections in `cs`, moved to `p`. */
  function MoveAll(conns: map<DriverConn, ConnRec>, cs: set<DriverConn>, p: Place): map<DriverConn, ConnRec> {
    map c | c in conns :: if c in cs then conns[c].(place := p) else conns[c]
  }

  function Elems(s: seq<DriverConn>): set<DriverConn> {
    set c | c in s
  }

  /** The idle count SetMaxIdleConns(n) stores: none for n <= 0, and never above a positive open limit. */
  function ClampIdle(maxOpen: int, n: int): (r: int)
    ensures maxOpen > 0 ==> MaxIdleConns(r) <= maxOpen
  {
    var count := if n > 0 then n else -1;
    if maxOpen > 0 && MaxIdleConns(count) > maxOpen then maxOpen else count
  }

  function SetMaxIdleConns(s: State, n: int, fromSync: bool): (r: (State, seq<DriverConn>))
    requires fromSync ==> s.pendingSyncs > 0
    ensures WithinLimit(s, r.0)
    ensures s.conns.Keys <= r.0.conns.Keys
  {
    var count := ClampIdle(s.maxOpen, n);
    var keep := if |s.free| > MaxIdleConns(count) then MaxIdleConns(count) else |s.free|;
    (s.(maxIdleCount := count,
        pendingSyncs := if fromSync then s.pendingSyncs - 1 else s.pendingSyncs,
        free := s.free[..keep],
        conns := MoveAll(s.conns, Elems(s.free[keep..]), Closing),
        stats := s.stats.(maxIdleClosed := s.stats.maxIdleClosed + (|s.free| - keep))),
     s.free[keep..])
  }

  /** The section of SetMaxOpenConns; true asks for a following SetMaxIdleConns. */
  function SetMaxOpenConns(s: State, n: int): (r: (State, bool))
    ensures s.conns.Keys <= r.0.conns.Keys
  {
    var s1 := s.(maxOpen := if n < 0 then 0 else n);
    if s1.maxOpen > 0 && MaxIdle(s1) > s1.maxOpen
    then (s1.(pendingSyncs := s.pendingSyncs + 1), true) else (s1, false)
  }

  function SetConnMaxLifetime(s: State, d: int): (r: State)
    ensures WithinLimit(s, r)
    ensures s.conns.Keys <= r.conns.Keys
  {
    s.(maxLifetime := if d < 0 then 0 else d)
  }

  function SetConnMaxIdleTime(s: State, d: int): (r: State)
    ensures WithinLimit(s, r)
    ensures s.conns.Keys <= r.conns.Keys
  {
    s.(maxIdleTime := if d < 0 then 0 else d)
  }

  function PastLifetime(s: State, now: int): set<DriverConn> {
    set c | c in s.conns && s.maxLifetime > 0 && s.conns[c].createdAt < now - s.maxLifetime
  }

  function PastIdleTime(s: State, now: int): set<DriverConn> {
    set c | c in s.conns && s.maxIdleTime > 0 && s.conns[c].returnedAt < now - s.maxIdleTime
  }

  /** connectionCleanerRunLocked: one purge by age, one purge by idle time. */
  function CleanerRun(s: State, now: int): (r: (State, seq<DriverConn>))
    ensures WithinLimit(s, r.0)
    ensures s.conns.Keys <= r.0.conns.Keys
  {
    var a := Purge(s.free, 0, PastLifetime(s, now));
    var b := Purge(a.0, 0, PastIdleTime(s, now));
    var closing := a.1 + b.1;
    (s.(free := b.0,
        conns := MoveAll(s.conns, Elems(closing), Closing),
        stats := s.stats.(maxLifetimeClosed := s.stats.maxLifetimeClosed + |a.1|,
                          maxIdleTimeClosed := s.stats.maxIdleTimeClosed + |b.1|)),
     closing)
  }

  function CloseIdle(conns: map<DriverConn, ConnRec>, cs: set<DriverConn>): map<DriverConn, ConnRec> {
    map c | c in conns :: if c in cs then conns[c].(closed := true, place := Finalizing) else conns[c]
  }

  function ShutAll(waiting: map<nat, Waiter>, keys: set<nat>): map<nat, Waiter> {
    map k | k in waiting :: if k in keys then waiting[k].(chan := Shut) else waiting[k]
  }

  /** DBClose: every idle connection is marked closed, every pending request's channel is closed. */
  function DBClose(s: State): (r: (State, seq<DriverConn>))
    ensures WithinLimit(s, r.0)
    ensures s.conns.Keys <= r.0.conns.Keys
  {
    if s.closed then (s, [])
    else
      (s.(closed := true,
          free := [],
          conns := CloseIdle(s.conns, Elems(s.free)),
          dep := s.dep - Elems(s.free),
          waiting := ShutAll(s.waiting, s.requests)),
       s.free)
  }
}

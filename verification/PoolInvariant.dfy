/** What every reachable pool state satisfies, and that every step keeps it. */
module PoolInvariant {
  import opened Wrappers
  import opened DriverConns
  import opened SwapRemove
  import opened PoolState

  type Conns = map<DriverConn, ConnRec>
  type Waiting = map<nat, Waiter>

  /** The source's flags as each place of a connection demands them. */
  ghost predicate RecordOk(r: ConnRec) {
    && (r.place.Idle? ==> !r.inUse)
    && (r.place.Held? || r.place.InChan? ==> r.inUse)
    && (r.closed <==> r.place.Marked? || r.place.Finalizing? || r.place.Finalized?)
    && (r.finalClosed <==> r.place.Finalized?)
    && (r.dbmuClosed ==> r.place.Finalizing? || r.place.Finalized?)
  }

  ghost predicate Registered(p: Place) {
    !p.Finalizing? && !p.Finalized?
  }

  ghost predicate ConnsOk(conns: Conns) {
    forall c :: c in conns ==> RecordOk(conns[c])
  }

  /** The idle list holds each idle connection exactly once. */
  ghost predicate FreeOk(free: seq<DriverConn>, conns: Conns) {
    && Distinct(free)
    && (forall c :: c in free ==> c in conns && conns[c].place == Idle)
    && (forall c :: c in conns && conns[c].place == Idle ==> c in free)
  }

  /** A connection not yet past Close depends on itself and on nothing else. */
  ghost predicate DepOk(dep: map<DriverConn, set<DriverConn>>, conns: Conns) {
    && (forall c :: c in dep ==> c in conns && Registered(conns[c].place) && dep[c] == {c})
    && (forall c :: c in conns && Registered(conns[c].place) ==> c in dep)
  }

  /** A waiter's channel: what may be in it, and when it is closed. */
  ghost predicate WaiterOk(w: Waiter, closed: bool) {
    && (w.chan.Shut? ==> closed)
    && (w.chan.Sent? ==> (w.chan.conn.Some? <==> w.chan.err.None?))
  }

  ghost predicate WaitersOk(waiting: Waiting, nextRequest: nat, closed: bool) {
    forall k :: k in waiting ==> k < nextRequest && WaiterOk(waiting[k], closed)
  }

  /** A connection sits in a channel exactly if its place says so; no two channels share one. */
  ghost predicate ChansOk(waiting: Waiting, conns: Conns) {
    && (forall k :: k in waiting && waiting[k].chan.Sent? && waiting[k].chan.conn.Some? ==>
          waiting[k].chan.conn.value in conns && conns[waiting[k].chan.conn.value].place == InChan(k))
    && (forall c :: c in conns && conns[c].place.InChan? ==>
          conns[c].place.key in waiting && waiting[conns[c].place.key].chan == Sent(Some(c), None))
  }

  /** Pending requests and listening waiters are the same thing while the pool is open. */
  ghost predicate RequestsOk(requests: set<nat>, waiting: Waiting, nextRequest: nat, closed: bool) {
    && (forall k :: k in requests ==> k < nextRequest && (k in waiting || closed))
    && (forall k :: k in requests && k in waiting ==>
          !waiting[k].cancelled && waiting[k].chan == (if closed then Shut else Empty))
    && (forall k :: k in waiting && !waiting[k].cancelled && waiting[k].chan == Empty ==>
          !closed && k in requests)
  }

  /** A caller that would have taken an idle connection only waits while there is none. */
  ghost predicate CachedWaitersSeeNone(requests: set<nat>, waiting: Waiting, free: seq<DriverConn>) {
    free != [] ==> forall k :: k in requests && k in waiting ==> waiting[k].strategy == AlwaysNewConn
  }

  /** Every unit of numOpen is somewhere. */
  ghost predicate CountOk(s: State) {
    && s.numOpen == |s.conns| + s.dials + s.tokens + s.openerDials + s.leaked
    && (!s.closed ==> s.leaked == 0)
  }

  ghost predicate LimitsOk(s: State) {
    && s.maxOpen >= 0
    && |s.free| <= MaxIdle(s)
    && (s.closed ==> s.free == [])
    && (s.maxOpen > 0 && s.pendingSyncs == 0 ==> MaxIdle(s) <= s.maxOpen)
  }

  /** Who has which connection: the part of the invariant that every hand-over touches. */
  ghost predicate OwnershipOk(free: seq<DriverConn>, dep: map<DriverConn, set<DriverConn>>,
                              waiting: Waiting, conns: Conns)
  {
    ConnsOk(conns) && FreeOk(free, conns) && DepOk(dep, conns) && ChansOk(waiting, conns)
  }

  ghost predicate Inv(s: State) {
    && OwnershipOk(s.free, s.dep, s.waiting, s.conns)
    && WaitersOk(s.waiting, s.nextRequest, s.closed)
    && RequestsOk(s.requests, s.waiting, s.nextRequest, s.closed)
    && CachedWaitersSeeNone(s.requests, s.waiting, s.free)
    && CountOk(s)
    && LimitsOk(s)
  }

  // --- hand-overs ------------------------------------------------------------------------

  lemma UpdateSize(m: Conns, c: DriverConn, r: ConnRec)
    ensures |m[c := r]| == |m| + (if c in m then 0 else 1)
  {
    assert m[c := r].Keys == m.Keys + {c};
  }

  lemma RemoveSize(m: Conns, c: DriverConn)
    ensures |m - {c}| == |m| - (if c in m then 1 else 0)
  {
    assert (m - {c}).Keys == m.Keys - {c};
  }

  /** A move between two places that are neither the idle list nor a channel. */
  lemma MoveOk(free: seq<DriverConn>, dep: map<DriverConn, set<DriverConn>>, waiting: Waiting, conns: Conns,
               c: DriverConn, r: ConnRec)
    requires OwnershipOk(free, dep, waiting, conns) && c in conns && RecordOk(r)
    requires !conns[c].place.Idle? && !conns[c].place.InChan? && !r.place.Idle? && !r.place.InChan?
    requires Registered(conns[c].place) == Registered(r.place)
    ensures OwnershipOk(free, dep, waiting, conns[c := r])
  {
  }

  /** The head of the idle list goes to a caller. */
  lemma PopIdleOk(free: seq<DriverConn>, dep: map<DriverConn, set<DriverConn>>, waiting: Waiting, conns: Conns,
                  r: ConnRec)
    requires OwnershipOk(free, dep, waiting, conns) && |free| > 0 && RecordOk(r)
    requires r.place.Held? || r.place.Closing?
    ensures OwnershipOk(free[1..], dep, waiting, conns[free[0] := r])
  {
    assert forall c :: c in free && c != free[0] ==> c in free[1..];
  }

  /** A connection in hand goes to the tail of the idle list. */
  lemma PushIdleOk(free: seq<DriverConn>, dep: map<DriverConn, set<DriverConn>>, waiting: Waiting, conns: Conns,
                   c: DriverConn, r: ConnRec)
    requires OwnershipOk(free, dep, waiting, conns) && c in conns && conns[c].place.Closing?
    requires r.place.Idle? && RecordOk(r)
    ensures OwnershipOk(free + [c], dep, waiting, conns[c := r])
  {
  }

  /** A connection in hand is sent on an empty channel. */
  lemma SendOk(free: seq<DriverConn>, dep: map<DriverConn, set<DriverConn>>, waiting: Waiting, conns: Conns,
               c: DriverConn, r: ConnRec, k: nat)
    requires OwnershipOk(free, dep, waiting, conns) && c in conns && conns[c].place.Closing?
    requires k in waiting && waiting[k].chan == Empty && r.place == InChan(k) && RecordOk(r)
    ensures OwnershipOk(free, dep, waiting[k := waiting[k].(chan := Sent(Some(c), None))], conns[c := r])
  {
  }

  /** The waiter on a channel takes what is in it and is gone. */
  lemma TakeOk(free: seq<DriverConn>, dep: map<DriverConn, set<DriverConn>>, waiting: Waiting, conns: Conns,
               c: DriverConn, r: ConnRec, k: nat)
    requires OwnershipOk(free, dep, waiting, conns) && k in waiting && waiting[k].chan == Sent(Some(c), None)
    requires (r.place.Held? || r.place.Closing?) && RecordOk(r)
    ensures c in conns && OwnershipOk(free, dep, waiting - {k}, conns[c := r])
  {
  }

  /** Channels that hold no connection may come, go and change without touching ownership. */
  lemma ChannelsOk(free: seq<DriverConn>, dep: map<DriverConn, set<DriverConn>>, waiting: Waiting, conns: Conns,
                   waiting': Waiting)
    requires OwnershipOk(free, dep, waiting, conns)
    requires forall k :: k in waiting && waiting[k].chan.Sent? && waiting[k].chan.conn.Some? ==>
               k in waiting' && waiting'[k].chan == waiting[k].chan
    requires forall k :: k in waiting' && waiting'[k].chan.Sent? && waiting'[k].chan.conn.Some? ==>
               k in waiting && waiting'[k].chan == waiting[k].chan
    ensures OwnershipOk(free, dep, waiting', conns)
  {
  }

  /** A newly dialled connection is registered. */
  lemma AddConnOk(free: seq<DriverConn>, dep: map<DriverConn, set<DriverConn>>, waiting: Waiting, conns: Conns,
                  c: DriverConn, r: ConnRec)
    requires OwnershipOk(free, dep, waiting, conns) && c !in conns
    requires (r.place.Held? || r.place.Closing?) && RecordOk(r)
    ensures OwnershipOk(free, dep[c := {c}], waiting, conns[c := r])
  {
  }

  /** Close drops the self-dependency. */
  lemma UnregisterOk(free: seq<DriverConn>, dep: map<DriverConn, set<DriverConn>>, waiting: Waiting, conns: Conns,
                     c: DriverConn, r: ConnRec)
    requires OwnershipOk(free, dep, waiting, conns) && c in conns && conns[c].place.Marked?
    requires r.place.Finalizing? && RecordOk(r)
    ensures OwnershipOk(free, dep - {c}, waiting, conns[c := r])
  {
  }

  /** A finalised connection leaves the books. */
  lemma DropOk(free: seq<DriverConn>, dep: map<DriverConn, set<DriverConn>>, waiting: Waiting, conns: Conns,
               c: DriverConn)
    requires OwnershipOk(free, dep, waiting, conns) && c in conns && conns[c].place.Finalized?
    ensures OwnershipOk(free, dep, waiting, conns - {c})
  {
  }

  /** Several idle connections leave the list at once. */
  lemma LeaveIdleOk(free: seq<DriverConn>, dep: map<DriverConn, set<DriverConn>>, waiting: Waiting, conns: Conns,
                    free': seq<DriverConn>, out: set<DriverConn>)
    requires OwnershipOk(free, dep, waiting, conns) && Distinct(free')
    requires forall c :: c in free <==> c in free' || c in out
    requires forall c :: c in free' ==> c !in out
    ensures OwnershipOk(free', dep, waiting, MoveAll(conns, out, Closing))
  {
    var conns' := MoveAll(conns, out, Closing);
    assert forall c :: c in out ==> c in free;
    assert forall c :: c in conns && conns[c].place.InChan? ==> conns'[c] == conns[c];
  }

  /** Closing the idle connections of a pool, all at once. */
  lemma CloseIdleOk(free: seq<DriverConn>, dep: map<DriverConn, set<DriverConn>>, waiting: Waiting, conns: Conns)
    requires OwnershipOk(free, dep, waiting, conns)
    ensures OwnershipOk([], dep - Elems(free), waiting, CloseIdle(conns, Elems(free)))
  {
  }

  // --- single facts, for proofs that hide the predicates -----------------------------------

  lemma RecordFact(s: State, c: DriverConn)
    requires Inv(s) && c in s.conns
    ensures RecordOk(s.conns[c])
  {
  }

  lemma FreeFact(s: State)
    requires Inv(s)
    ensures Distinct(s.free)
    ensures forall c :: c in s.free ==> c in s.conns
  {
  }

  lemma HeadFact(s: State)
    requires Inv(s) && |s.free| > 0
    ensures s.free[0] in s.conns && s.conns[s.free[0]].place == Idle && RecordOk(s.conns[s.free[0]])
  {
  }

  lemma ChannelFact(s: State, key: nat)
    requires Inv(s) && key in s.waiting && s.waiting[key].chan.Sent?
    ensures var ch := s.waiting[key].chan;
      && (ch.conn.Some? <==> ch.err.None?)
      && (ch.conn.Some? ==> ch.conn.value in s.conns && s.conns[ch.conn.value].place == InChan(key)
                            && RecordOk(s.conns[ch.conn.value]))
  {
  }

  lemma PendingFact(s: State, key: nat)
    requires Inv(s) && !s.closed && key in s.requests
    ensures key in s.waiting && s.waiting[key].chan == Empty && !s.waiting[key].cancelled
  {
  }

  // --- the steps ---------------------------------------------------------------------------

  lemma MaybeOpenInv(s: State)
    requires Inv(s)
    ensures Inv(MaybeOpenNewConnections(s))
  {
    hide OwnershipOk, WaitersOk, RequestsOk, CachedWaitersSeeNone;
  }

  /** A connection changes place, neither from nor to the idle list or a channel. */
  lemma MoveInv(s: State, c: DriverConn, r: ConnRec, stats: Counters)
    requires Inv(s) && c in s.conns && RecordOk(r)
    requires !s.conns[c].place.Idle? && !s.conns[c].place.InChan? && !r.place.Idle? && !r.place.InChan?
    requires Registered(s.conns[c].place) == Registered(r.place)
    ensures Inv(s.(conns := s.conns[c := r], stats := stats))
  {
    hide OwnershipOk, WaitersOk, RequestsOk, CachedWaitersSeeNone;
    MoveOk(s.free, s.dep, s.waiting, s.conns, c, r);
    UpdateSize(s.conns, c, r);
  }

  /** A connection in hand is sent to a pending request, which stops being pending. */
  lemma SendInv(s: State, c: DriverConn, pick: nat)
    requires Inv(s) && !s.closed && pick in s.requests
    requires c in s.conns && s.conns[c].place == Closing
    ensures pick in s.waiting
    ensures Inv(s.(requests := s.requests - {pick},
                   waiting := s.waiting[pick := s.waiting[pick].(chan := Sent(Some(c), None))],
                   conns := s.conns[c := s.conns[c].(inUse := true, place := InChan(pick))]))
  {
    hide OwnershipOk;
    PendingFact(s, pick);
    RecordFact(s, c);
    var r := s.conns[c].(inUse := true, place := InChan(pick));
    SendOk(s.free, s.dep, s.waiting, s.conns, c, r, pick);
    UpdateSize(s.conns, c, r);
  }

  /** An error is sent to a pending request, which stops being pending. */
  lemma SendErrInv(s: State, err: Err, pick: nat)
    requires Inv(s) && !s.closed && pick in s.requests
    ensures pick in s.waiting
    ensures Inv(s.(requests := s.requests - {pick},
                   waiting := s.waiting[pick := s.waiting[pick].(chan := Sent(None, Some(err)))]))
  {
    hide OwnershipOk;
    PendingFact(s, pick);
    ChannelsOk(s.free, s.dep, s.waiting, s.conns, s.waiting[pick := s.waiting[pick].(chan := Sent(None, Some(err)))]);
  }

  /** A connection in hand joins the idle list; no request is pending and there is room. */
  lemma PushInv(s: State, c: DriverConn)
    requires Inv(s) && !s.closed && s.requests == {} && MaxIdle(s) > |s.free|
    requires c in s.conns && s.conns[c].place == Closing && !s.conns[c].inUse
    ensures Inv(s.(free := s.free + [c], conns := s.conns[c := s.conns[c].(place := Idle)]))
  {
    hide OwnershipOk, WaitersOk, RequestsOk;
    RecordFact(s, c);
    PushIdleOk(s.free, s.dep, s.waiting, s.conns, c, s.conns[c].(place := Idle));
    UpdateSize(s.conns, c, s.conns[c].(place := Idle));
  }

  lemma StatsInv(s: State, stats: Counters)
    requires Inv(s)
    ensures Inv(s.(stats := stats))
  {
    hide OwnershipOk, WaitersOk, RequestsOk, CachedWaitersSeeNone;
  }

  lemma PutConnDBLockedInv(s: State, dc: Option<DriverConn>, err: Option<Err>, pick: nat)
    requires Inv(s)
    requires dc.Some? <==> err.None?
    requires dc.Some? ==> dc.value in s.conns && s.conns[dc.value].place == Closing && !s.conns[dc.value].inUse
    requires !s.closed && s.requests != {} ==> pick in s.requests && pick in s.waiting
    ensures Inv(PutConnDBLocked(s, dc, err, pick).0)
  {
    hide OwnershipOk, WaitersOk, RequestsOk, CachedWaitersSeeNone, CountOk, LimitsOk;
    if s.closed || (s.maxOpen > 0 && s.numOpen > s.maxOpen) {
    } else if s.requests != {} {
      if dc.Some? {
        SendInv(s, dc.value, pick);
      } else {
        SendErrInv(s, err.value, pick);
      }
    } else if dc.Some? {
      if MaxIdle(s) > |s.free| {
        PushInv(s, dc.value);
      } else {
        StatsInv(s, s.stats.(maxIdleClosed := s.stats.maxIdleClosed + 1));
      }
    }
  }

  /** The head of the idle list changes hands; the waiters still see no idle connection if they did. */
  lemma PopInv(s: State, rec: ConnRec, stats: Counters)
    requires Inv(s) && |s.free| > 0 && RecordOk(rec) && (rec.place.Held? || rec.place.Closing?)
    ensures Inv(s.(free := s.free[1..], conns := s.conns[s.free[0] := rec], stats := stats))
  {
    hide OwnershipOk, WaitersOk, RequestsOk;
    HeadFact(s);
    PopIdleOk(s.free, s.dep, s.waiting, s.conns, rec);
    UpdateSize(s.conns, s.free[0], rec);
  }

  lemma EnqueueInv(s: State, strategy: Strategy)
    requires Inv(s) && !s.closed && (strategy == CachedOrNewConn ==> s.free == [])
    ensures Inv(s.(requests := s.requests + {s.nextRequest},
                   nextRequest := s.nextRequest + 1,
                   stats := s.stats.(waitCount := s.stats.waitCount + 1),
                   waiting := s.waiting[s.nextRequest := Waiter(strategy, s.maxLifetime, Empty, false)]))
  {
    NewChannelOk(s, Waiter(strategy, s.maxLifetime, Empty, false));
    hide OwnershipOk;
  }

  lemma NewChannelOk(s: State, w: Waiter)
    requires Inv(s) && w.chan == Empty
    ensures OwnershipOk(s.free, s.dep, s.waiting[s.nextRequest := w], s.conns)
  {
    ChannelsOk(s.free, s.dep, s.waiting, s.conns, s.waiting[s.nextRequest := w]);
  }

  lemma ConnBeginInv(s: State, ctxDone: bool, strategy: Strategy, now: int)
    requires Inv(s)
    ensures |s.free| > 0 ==> s.free[0] in s.conns
    ensures Inv(ConnBegin(s, ctxDone, strategy, now).0)
  {
    hide OwnershipOk, WaitersOk, RequestsOk, CachedWaitersSeeNone, CountOk, LimitsOk;
    if |s.free| > 0 {
      HeadFact(s);
    }
    if s.closed || ctxDone {
    } else if strategy == CachedOrNewConn && |s.free| > 0 {
      var dc := s.free[0];
      var rec := s.conns[dc].(inUse := true);
      assert s.conns[dc := rec][dc := rec.(place := Closing)] == s.conns[dc := rec.(place := Closing)];
      assert s.conns[dc := rec][dc := rec.(place := Held)] == s.conns[dc := rec.(place := Held)];
      PopInv(s, rec.(place := Closing), CountLifetime(s.stats, 1));
      PopInv(s, rec.(place := Held), s.stats);
    } else if s.maxOpen > 0 && s.numOpen >= s.maxOpen {
      EnqueueInv(s, strategy);
    } else {
      DialInv(s);
    }
  }

  lemma DialInv(s: State)
    requires Inv(s)
    ensures Inv(s.(numOpen := s.numOpen + 1, dials := s.dials + 1))
  {
    hide OwnershipOk, WaitersOk, RequestsOk, CachedWaitersSeeNone;
  }

  /** A dial that came to nothing gives its count back. */
  lemma GiveUpInv(s: State, dials: nat, openerDials: nat)
    requires Inv(s) && dials <= s.dials && openerDials <= s.openerDials
    ensures Inv(s.(numOpen := s.numOpen - dials - openerDials,
                   dials := s.dials - dials, openerDials := s.openerDials - openerDials))
  {
    hide OwnershipOk, WaitersOk, RequestsOk, CachedWaitersSeeNone;
  }

  lemma DialFailedInv(s: State)
    requires Inv(s) && s.dials > 0
    ensures Inv(DialFailed(s))
  {
    hide OwnershipOk, WaitersOk, RequestsOk, CachedWaitersSeeNone, CountOk, LimitsOk;
    GiveUpInv(s, 1, 0);
    MaybeOpenInv(s.(numOpen := s.numOpen - 1, dials := s.dials - 1));
  }

  lemma DialSucceededInv(s: State, dc: DriverConn, now: int)
    requires Inv(s) && s.dials > 0 && dc !in s.conns
    ensures Inv(DialSucceeded(s, dc, now))
  {
    hide OwnershipOk, WaitersOk, RequestsOk, CachedWaitersSeeNone;
    AddConnOk(s.free, s.dep, s.waiting, s.conns, dc, ConnRec(now, now, true, false, false, false, Held));
    UpdateSize(s.conns, dc, ConnRec(now, now, true, false, false, false, Held));
  }

  /** A waiter leaves, taking the connection in its channel along. */
  lemma LeaveWithInv(s: State, key: nat, rec: ConnRec, stats: Counters)
    requires Inv(s) && key in s.waiting && s.waiting[key].chan.Sent? && s.waiting[key].chan.conn.Some?
    requires RecordOk(rec) && (rec.place.Held? || rec.place.Closing?)
    ensures Inv(s.(waiting := s.waiting - {key}, stats := stats,
                   conns := s.conns[s.waiting[key].chan.conn.value := rec]))
  {
    hide OwnershipOk;
    ChannelFact(s, key);
    TakeOk(s.free, s.dep, s.waiting, s.conns, s.waiting[key].chan.conn.value, rec, key);
    UpdateSize(s.conns, s.waiting[key].chan.conn.value, rec);
  }

  /** A waiter leaves with nothing. */
  lemma LeaveEmptyInv(s: State, key: nat)
    requires Inv(s) && key in s.waiting && !(s.waiting[key].chan.Sent? && s.waiting[key].chan.conn.Some?)
    requires s.waiting[key].chan == Empty ==> s.waiting[key].cancelled
    ensures Inv(s.(waiting := s.waiting - {key}))
  {
    hide OwnershipOk;
    ChannelsOk(s.free, s.dep, s.waiting, s.conns, s.waiting - {key});
  }

  lemma ReceiveInv(s: State, key: nat, now: int)
    requires Inv(s) && key in s.waiting && !s.waiting[key].cancelled && s.waiting[key].chan != Empty
    ensures Inv(Receive(s, key, now).0)
  {
    hide OwnershipOk, WaitersOk, RequestsOk, CachedWaitersSeeNone, CountOk, LimitsOk;
    var ch := s.waiting[key].chan;
    if ch.Sent? && ch.conn.Some? {
      ChannelFact(s, key);
      var rec := s.conns[ch.conn.value];
      LeaveWithInv(s, key, rec.(place := Closing), CountLifetime(s.stats, 1));
      LeaveWithInv(s, key, rec.(place := Held), s.stats);
    } else {
      LeaveEmptyInv(s, key);
    }
  }

  lemma CancelBeginInv(s: State, key: nat)
    requires Inv(s) && key in s.waiting && !s.waiting[key].cancelled
    ensures Inv(CancelBegin(s, key))
  {
    hide OwnershipOk;
    ChannelsOk(s.free, s.dep, s.waiting, s.conns, s.waiting[key := s.waiting[key].(cancelled := true)]);
  }

  lemma CancelEndInv(s: State, key: nat)
    requires Inv(s) && key in s.waiting && s.waiting[key].cancelled
    ensures Inv(CancelEnd(s, key).0)
  {
    hide OwnershipOk, WaitersOk, RequestsOk, CachedWaitersSeeNone, CountOk, LimitsOk;
    var ch := s.waiting[key].chan;
    if ch.Sent? && ch.conn.Some? {
      ChannelFact(s, key);
      LeaveWithInv(s, key, s.conns[ch.conn.value].(place := Held), s.stats);
    } else {
      LeaveEmptyInv(s, key);
    }
  }

  lemma PutConnInv(s: State, dc: DriverConn, err: Option<Err>, now: int, pick: nat)
    requires Inv(s) && dc in s.conns && s.conns[dc].place == Held
    requires !s.closed && s.requests != {} ==> pick in s.requests && pick in s.waiting
    ensures Inv(PutConn(s, dc, err, now, pick).0)
  {
    hide OwnershipOk, WaitersOk, RequestsOk, CachedWaitersSeeNone, CountOk, LimitsOk;
    RecordFact(s, dc);
    var s1 := TakeIn(s, dc, err, now).0;
    MoveInv(s, dc, s1.conns[dc], s1.stats);
    MaybeOpenInv(s1);
    PutConnDBLockedInv(s1, Some(dc), None, pick);
  }

  lemma CloseMarkInv(s: State, dc: DriverConn)
    requires Inv(s) && dc in s.conns && (s.conns[dc].place.Closing? || s.conns[dc].place.Held?)
    ensures Inv(CloseMark(s, dc).0)
  {
    hide OwnershipOk, WaitersOk, RequestsOk, CachedWaitersSeeNone, CountOk, LimitsOk;
    RecordFact(s, dc);
    MoveInv(s, dc, s.conns[dc].(closed := true, place := Marked), s.stats);
  }

  lemma SelfDepFact(s: State, dc: DriverConn)
    requires Inv(s) && dc in s.conns && Registered(s.conns[dc].place)
    ensures dc in s.dep && s.dep[dc] == {dc}
  {
  }

  lemma CloseDepInv(s: State, dc: DriverConn)
    requires Inv(s) && dc in s.conns && s.conns[dc].place == Marked
    ensures Inv(CloseDep(s, dc).0)
  {
    hide OwnershipOk, WaitersOk, RequestsOk, CachedWaitersSeeNone;
    SelfDepFact(s, dc);
    RecordFact(s, dc);
    UnregisterOk(s.free, s.dep, s.waiting, s.conns, dc, s.conns[dc].(dbmuClosed := true, place := Finalizing));
    UpdateSize(s.conns, dc, s.conns[dc].(dbmuClosed := true, place := Finalizing));
  }

  lemma DriverCloseInv(s: State, dc: DriverConn)
    requires Inv(s) && dc in s.conns && s.conns[dc].place == Finalizing
    ensures Inv(DriverClose(s, dc))
  {
    hide OwnershipOk, WaitersOk, RequestsOk, CachedWaitersSeeNone, CountOk, LimitsOk;
    RecordFact(s, dc);
    MoveInv(s, dc, s.conns[dc].(finalClosed := true, place := Finalized), s.stats);
  }

  lemma FinalCountInv(s: State, dc: DriverConn)
    requires Inv(s) && dc in s.conns && s.conns[dc].place == Finalized
    ensures Inv(FinalCount(s, dc))
  {
    hide OwnershipOk, WaitersOk, RequestsOk, CachedWaitersSeeNone;
    DropOk(s.free, s.dep, s.waiting, s.conns, dc);
    RemoveSize(s.conns, dc);
    MaybeOpenInv(s.(conns := s.conns - {dc}, numOpen := s.numOpen - 1));
  }

  lemma OpenerTakeInv(s: State)
    requires Inv(s) && s.tokens > 0
    ensures Inv(OpenerTake(s))
  {
    hide OwnershipOk, WaitersOk, RequestsOk, CachedWaitersSeeNone;
  }

  lemma OpenerFailedInv(s: State, err: Err, pick: nat)
    requires Inv(s) && s.openerDials > 0
    requires !s.closed && s.requests != {} ==> pick in s.requests && pick in s.waiting
    ensures Inv(s.(openerDials := s.openerDials - 1, numOpen := s.numOpen - 1))
    ensures !s.closed ==> Inv(OpenerDone(s, Fail(err), 0, pick))
  {
    hide OwnershipOk, WaitersOk, RequestsOk, CachedWaitersSeeNone, CountOk, LimitsOk;
    GiveUpInv(s, 0, 1);
    var s1 := s.(openerDials := s.openerDials - 1, numOpen := s.numOpen - 1);
    if !s.closed {
      PutConnDBLockedInv(s1, None, Some(err), pick);
      MaybeOpenInv(PutConnDBLocked(s1, None, Some(err), pick).0);
    }
  }

  /** The opener registers what it dialled, before anybody gets it. */
  lemma RegisterInv(s: State, dc: DriverConn, now: int)
    requires Inv(s) && s.openerDials > 0 && dc !in s.conns
    ensures Inv(s.(openerDials := s.openerDials - 1,
                   conns := s.conns[dc := ConnRec(now, now, false, false, false, false, Closing)],
                   dep := s.dep[dc := {dc}]))
  {
    hide OwnershipOk, WaitersOk, RequestsOk, CachedWaitersSeeNone;
    AddConnOk(s.free, s.dep, s.waiting, s.conns, dc, ConnRec(now, now, false, false, false, false, Closing));
    UpdateSize(s.conns, dc, ConnRec(now, now, false, false, false, false, Closing));
  }

  /** The hand-over neither looks at the dependency table nor changes it. */
  lemma PutIgnoresDep(s: State, dep: map<DriverConn, set<DriverConn>>, dc: DriverConn, pick: nat)
    requires dc in s.conns
    requires !s.closed && s.requests != {} ==> pick in s.requests && pick in s.waiting
    ensures var r := PutConnDBLocked(s, Some(dc), None, pick);
      PutConnDBLocked(s.(dep := dep), Some(dc), None, pick) == (r.0.(dep := dep), r.1) && r.0.dep == s.dep
  {
  }

  lemma OpenerOpenedInv(s: State, dc: DriverConn, now: int, pick: nat)
    requires Inv(s) && s.openerDials > 0 && dc !in s.conns && !s.closed
    requires !s.closed && s.requests != {} ==> pick in s.requests && pick in s.waiting
    ensures Inv(OpenerDone(s, Ok(dc), now, pick))
  {
    hide OwnershipOk, WaitersOk, RequestsOk, CachedWaitersSeeNone, LimitsOk, CountOk;
    RegisterInv(s, dc, now);
    var rec := ConnRec(now, now, false, false, false, false, Closing);
    var s0 := s.(openerDials := s.openerDials - 1, conns := s.conns[dc := rec]);
    var s1 := s0.(dep := s.dep[dc := {dc}]);
    PutIgnoresDep(s0, s.dep[dc := {dc}], dc, pick);
    PutConnDBLockedInv(s1, Some(dc), None, pick);
    var r := PutConnDBLocked(s1, Some(dc), None, pick);
    if !r.1 {
      OpenerFailedInv(s, ErrBadConn, pick);
      StatsInv(s.(openerDials := s.openerDials - 1, numOpen := s.numOpen - 1), r.0.stats);
    }
  }

  lemma OpenerDoneInv(s: State, res: Result<DriverConn, Err>, now: int, pick: nat)
    requires Inv(s) && s.openerDials > 0 && (res.Ok? ==> res.value !in s.conns)
    requires !s.closed && s.requests != {} ==> pick in s.requests && pick in s.waiting
    ensures Inv(OpenerDone(s, res, now, pick))
  {
    hide OwnershipOk, WaitersOk, RequestsOk, CachedWaitersSeeNone, LimitsOk, CountOk;
    if s.closed || res.Fail? {
      OpenerFailedInv(s, if res.Fail? then res.error else ErrBadConn, pick);
    } else {
      OpenerOpenedInv(s, res.value, now, pick);
    }
  }

  /** Some idle connections are set aside for closing. */
  lemma SetAsideInv(s: State, free': seq<DriverConn>, out: set<DriverConn>, stats: Counters)
    requires Inv(s) && Distinct(free') && |free'| <= |s.free|
    requires forall c :: c in s.free <==> c in free' || c in out
    requires forall c :: c in free' ==> c !in out
    ensures Inv(s.(free := free', conns := MoveAll(s.conns, out, Closing), stats := stats))
  {
    hide OwnershipOk, WaitersOk, RequestsOk;
    LeaveIdleOk(s.free, s.dep, s.waiting, s.conns, free', out);
    assert MoveAll(s.conns, out, Closing).Keys == s.conns.Keys;
  }

  /** Idle limits may change freely as long as the list fits and the open limit is respected. */
  lemma RelimitInv(s: State, maxIdleCount: int, pendingSyncs: nat)
    requires Inv(s)
    requires var s' := s.(maxIdleCount := maxIdleCount);
      |s.free| <= MaxIdle(s') && (s.maxOpen > 0 ==> MaxIdle(s') <= s.maxOpen)
    ensures Inv(s.(maxIdleCount := maxIdleCount, pendingSyncs := pendingSyncs))
  {
    hide OwnershipOk, WaitersOk, RequestsOk, CachedWaitersSeeNone;
  }

  lemma SplitFacts(free: seq<DriverConn>, keep: nat)
    requires Distinct(free) && keep <= |free|
    ensures Distinct(free[..keep])
    ensures forall c :: c in free <==> c in free[..keep] || c in Elems(free[keep..])
    ensures forall c :: c in free[..keep] ==> c !in Elems(free[keep..])
  {
    assert free == free[..keep] + free[keep..];
  }

  lemma SetMaxIdleConnsInv(s: State, n: int, fromSync: bool)
    requires Inv(s) && (fromSync ==> s.pendingSyncs > 0)
    ensures Inv(SetMaxIdleConns(s, n, fromSync).0)
  {
    FreeFact(s);
    hide OwnershipOk, WaitersOk, RequestsOk, CachedWaitersSeeNone, LimitsOk, CountOk;
    var s' := SetMaxIdleConns(s, n, fromSync).0;
    var keep := |s'.free|;
    SplitFacts(s.free, keep);
    SetAsideInv(s, s'.free, Elems(s.free[keep..]), s'.stats);
    RelimitInv(s.(free := s'.free, conns := s'.conns, stats := s'.stats), s'.maxIdleCount, s'.pendingSyncs);
  }

  lemma SetMaxOpenConnsInv(s: State, n: int)
    requires Inv(s)
    ensures Inv(SetMaxOpenConns(s, n).0)
  {
    hide OwnershipOk, WaitersOk, RequestsOk, CachedWaitersSeeNone;
  }

  lemma SetTimesInv(s: State, d: int)
    requires Inv(s)
    ensures Inv(SetConnMaxLifetime(s, d)) && Inv(SetConnMaxIdleTime(s, d))
  {
    hide OwnershipOk, WaitersOk, RequestsOk, CachedWaitersSeeNone;
  }

  /** The cleaner's list and the new idle list split the old idle list, by age and idle time alone. */
  lemma CleanerSplits(s: State, now: int)
    requires Distinct(s.free)
    ensures var r := CleanerRun(s, now);
      && multiset(s.free) == multiset(r.0.free) + multiset(r.1)
      && Distinct(r.0.free)
      && (forall c :: c in r.1 ==> c in PastLifetime(s, now) + PastIdleTime(s, now))
      && (forall c :: c in r.0.free ==> c !in PastLifetime(s, now) + PastIdleTime(s, now))
  {
    var a := Purge(s.free, 0, PastLifetime(s, now));
    var b := Purge(a.0, 0, PastIdleTime(s, now));
    PurgePartition(s.free, 0, PastLifetime(s, now));
    PurgePartition(a.0, 0, PastIdleTime(s, now));
    PurgeDistinct(s.free, 0, PastLifetime(s, now));
    PurgeDistinct(a.0, 0, PastIdleTime(s, now));
    assert multiset(a.1 + b.1) == multiset(a.1) + multiset(b.1);
    forall c | c in b.0 ensures c !in PastLifetime(s, now) + PastIdleTime(s, now) {
      assert c in multiset(b.0);
      assert c in multiset(a.0);
    }
  }

  lemma CleanerRunInv(s: State, now: int)
    requires Inv(s)
    ensures Inv(CleanerRun(s, now).0)
  {
    FreeFact(s);
    hide OwnershipOk, WaitersOk, RequestsOk, CachedWaitersSeeNone, LimitsOk, CountOk;
    CleanerSplits(s, now);
    hide PastLifetime, PastIdleTime;
    var r := CleanerRun(s, now);
    var out := Elems(r.1);
    forall c ensures c in s.free <==> c in r.0.free || c in out {
      assert c in s.free <==> c in multiset(s.free);
    }
    assert |s.free| == |multiset(s.free)|;
    assert |r.0.free| == |multiset(r.0.free)|;
    SetAsideInv(s, r.0.free, out, r.0.stats);
  }

  lemma CloseIdleSize(conns: Conns, cs: set<DriverConn>)
    ensures |CloseIdle(conns, cs)| == |conns|
  {
    assert CloseIdle(conns, cs).Keys == conns.Keys;
  }

  lemma ShutOk(s: State)
    requires Inv(s) && !s.closed
    requires OwnershipOk([], s.dep - Elems(s.free), s.waiting, CloseIdle(s.conns, Elems(s.free)))
    ensures OwnershipOk([], s.dep - Elems(s.free), ShutAll(s.waiting, s.requests), CloseIdle(s.conns, Elems(s.free)))
  {
    ChannelsOk([], s.dep - Elems(s.free), s.waiting, CloseIdle(s.conns, Elems(s.free)), ShutAll(s.waiting, s.requests));
  }

  lemma ShutRequestsOk(s: State)
    requires Inv(s) && !s.closed
    ensures RequestsOk(s.requests, ShutAll(s.waiting, s.requests), s.nextRequest, true)
    ensures WaitersOk(ShutAll(s.waiting, s.requests), s.nextRequest, true)
  {
    hide OwnershipOk;
  }

  lemma DBCloseInv(s: State)
    requires Inv(s)
    ensures Inv(DBClose(s).0)
  {
    if !s.closed {
      hide OwnershipOk, RequestsOk, WaitersOk, CloseIdle, ShutAll;
      CloseIdleOk(s.free, s.dep, s.waiting, s.conns);
      CloseIdleSize(s.conns, Elems(s.free));
      ShutOk(s);
      ShutRequestsOk(s);
    }
  }
}

/**
 The peer service and the firewall together.  WireGuard accepts from a peer only sources in
 its allowed IPs, and the service gives each peer exactly its own address there.
 */
module VpnFirewall {
  import opened AtomicFiles
  import opened AddressPool
  import opened PeerService
  import opened Firewall
  import PeerRuns
  import FirewallRuns

  // ---------------------------------------------------------------- the backend stays inside the pool

  /** Every backend entry is an assignable address of the pool. */
  ghost predicate BackendInPool(pool: Pool, backend: map<Key, Address>)
    requires pool.prefix.bits <= pool.prefix.width
  {
    forall k <- backend :: backend[k].Addr? && pool.Assignable(backend[k].a)
  }

  ghost predicate TraceInPool(pool: Pool, trace: seq<Durable>)
    requires pool.prefix.bits <= pool.prefix.width
  {
    forall d <- trace :: BackendInPool(pool, d.backend)
  }

  lemma CreateInPool(pool: Pool, st: State, req: CreateRequest, w: CreateWorld)
    requires pool.prefix.bits <= pool.prefix.width && BackendInPool(pool, st.durable.backend)
    ensures TraceInPool(pool, CreateEffect(pool, st, req, w).trace)
  {
    var key := ResolveKey(req.key);
    if key.Ok? {
      PeerRuns.AdmittedIsFree(pool, st.peers, key.value, req.opt);
      var a := Admit(pool, st.peers, key.value, req.opt);
      if a.Ok? {
        var added := st.durable.backend[key.value := Addr(a.value)];
        assert BackendInPool(pool, added);
        assert BackendInPool(pool, added - {key.value});
      }
    }
  }

  lemma RemoveInPool(pool: Pool, st: State, m: Match, fails: set<nat>, save: Outcome)
    requires pool.prefix.bits <= pool.prefix.width && BackendInPool(pool, st.durable.backend)
    ensures TraceInPool(pool, RemoveEffect(st, m, fails, save).trace)
  {
    var n := |st.peers|;
    forall k | 0 <= k <= n ensures BackendInPool(pool, BackendAt(st, m, fails, k)) {
    }
    assert TraceInPool(pool, Sweep(st, m, fails));
    assert Last(Sweep(st, m, fails)) in Sweep(st, m, fails);
  }

  lemma {:induction false} ReapplyInPool(pool: Pool, b: map<Key, Address>, ps: seq<Peer>, n: nat)
    requires pool.prefix.bits <= pool.prefix.width && BackendInPool(pool, b)
    requires n <= |ps| && (forall j | 0 <= j < n :: !ps[j].address.Garbled?) && PeerRuns.InPool(pool, ps)
    ensures BackendInPool(pool, Reapply(b, ps, n))
  {
    if n > 0 {
      ReapplyInPool(pool, b, ps, n - 1);
      assert ps[n - 1] in ps;
    }
  }

  lemma RestoreInPool(pool: Pool, d: Durable, readOk: bool, fails: set<nat>)
    requires pool.prefix.bits <= pool.prefix.width && BackendInPool(pool, d.backend)
    requires PeerRuns.InPool(pool, Stored(d.disk.target))
    ensures TraceInPool(pool, RestoreEffect(d, readOk, fails).trace)
  {
    if d.disk.target.Whole? && readOk {
      var ps := d.disk.target.value;
      forall n | 0 <= n <= StopAt(ps, fails, 0) ensures BackendInPool(pool, Reapply(d.backend, ps, n)) {
        ReapplyInPool(pool, d.backend, ps, n);
      }
    }
  }

  lemma StepInPool(pool: Pool, s: PeerRuns.Sys, e: PeerRuns.Event)
    requires pool.prefix.bits <= pool.prefix.width && PeerRuns.Inv(pool, s) && BackendInPool(pool, s.st.durable.backend)
    ensures BackendInPool(pool, PeerRuns.Step(pool, s, e).st.durable.backend)
  {
    match e
    case Do(op) => OpInPool(pool, s.st, op);
    case DieIn(op, at) =>
      OpInPool(pool, s.st, op);
      assert PeerRuns.Pick(PeerRuns.OpTrace(pool, s.st, op), at) in PeerRuns.OpTrace(pool, s.st, op);
    case Start(wiped, readOk, fails) => RestoreInPool(pool, PeerRuns.Boot(s.st.durable, wiped), readOk, fails);
    case DieStarting(wiped, readOk, fails, at) =>
        RestoreInPool(pool, PeerRuns.Boot(s.st.durable, wiped), readOk, fails);
  }

  lemma OpInPool(pool: Pool, st: State, op: PeerRuns.Op)
    requires pool.prefix.bits <= pool.prefix.width && BackendInPool(pool, st.durable.backend)
    ensures TraceInPool(pool, PeerRuns.OpTrace(pool, st, op))
    ensures BackendInPool(pool, PeerRuns.Perform(pool, st, op).durable.backend)
  {
    match op
    case Create(req, w) => CreateInPool(pool, st, req, w);
    case Remove(m, fails, save) => RemoveInPool(pool, st, m, fails, save);
    assert Last(PeerRuns.OpTrace(pool, st, op)) in PeerRuns.OpTrace(pool, st, op);
  }

  /**
   Over every run, with failed rollbacks, deaths and restarts, the backend holds only IPv4
   addresses strictly between server and broadcast.
   */
  lemma {:induction false} RunInPool(pool: Pool, events: seq<PeerRuns.Event>)
    requires pool.prefix.bits <= pool.prefix.width
    ensures BackendInPool(pool, PeerRuns.Run(pool, events).st.durable.backend)
  {
    if events != [] {
      var before := events[..|events| - 1];
      RunInPool(pool, before);
      PeerRuns.RunKeepsInv(pool, before);
      StepInPool(pool, PeerRuns.Run(pool, before), Last(events));
    }
  }

  // ---------------------------------------------------------------- what peers can send

  /** A decrypted packet whose source is the address of some peer at some point of some run. */
  ghost predicate FromAPeer(pool: Pool, p: Packet)
    requires pool.prefix.bits <= pool.prefix.width
  {
    exists run: seq<PeerRuns.Event>, k: Key ::
      && k in PeerRuns.Run(pool, run).st.durable.backend
      && !p.six && PeerRuns.Run(pool, run).st.durable.backend[k] == Addr(p.saddr)
  }

  lemma PeersSendFromThePool(pool: Pool, p: Packet)
    requires pool.prefix.bits <= pool.prefix.width && FromAPeer(pool, p)
    ensures !p.six && pool.Assignable(p.saddr)
  {
    var run: seq<PeerRuns.Event>, k: Key :|
      && k in PeerRuns.Run(pool, run).st.durable.backend
      && !p.six && PeerRuns.Run(pool, run).st.durable.backend[k] == Addr(p.saddr);
    RunInPool(pool, run);
  }

  /** Every flow in the table was opened by a packet that arrived. */
  lemma {:induction false} FlowsArrived(i: Interfaces, c: Comments, events: seq<FirewallRuns.Event>, k: nat)
    requires k < |FirewallRuns.Run(i, c, events).flows|
    ensures exists e <- events :: e.Arrive? && e.p == FirewallRuns.Run(i, c, events).flows[k].first
  {
    if events != [] {
      var before, last := events[..|events| - 1], events[|events| - 1];
      assert last in events;
      if k < |FirewallRuns.Run(i, c, before).flows| {
        FlowsArrived(i, c, before, k);
        FirstStays(i, c, FirewallRuns.Run(i, c, before), last, k);
      } else {
        NewFlowArrived(i, c, FirewallRuns.Run(i, c, before), last, k);
      }
    }
  }

  lemma FirstStays(i: Interfaces, c: Comments, t: FirewallRuns.Table, e: FirewallRuns.Event, k: nat)
    requires k < |t.flows|
    ensures k < |FirewallRuns.Step(i, c, t, e).flows|
            && FirewallRuns.Step(i, c, t, e).flows[k].first == t.flows[k].first
  {
  }

  lemma NewFlowArrived(i: Interfaces, c: Comments, t: FirewallRuns.Table, e: FirewallRuns.Event, k: nat)
    requires |t.flows| <= k < |FirewallRuns.Step(i, c, t, e).flows|
    ensures e.Arrive? && e.p == FirewallRuns.Step(i, c, t, e).flows[k].first
  {
  }

  /**
   With VPN_TO_LAN on, and every peer added by the service over the subnet VPN_NET4: each
   forwarded peer-to-LAN packet goes back to a flow that a peer opened towards the LAN from an
   IPv4 source strictly inside VPN_NET4.  Such peers cannot send IPv6.
   */
  lemma ServicePeersStayInTheirNet(
    pool: Pool, i: Interfaces, env: Env, c: Comments, events: seq<FirewallRuns.Event>, p: Packet, tie: FirewallRuns.Tie)
    requires Valid(i) && pool.Valid() && i.wgNet4 == pool.prefix
    requires c == CommentsFor(env)
    requires FirewallRuns.Forwards(i, c, FirewallRuns.Run(i, c, events), p, tie) && p.iif == i.wg && p.oif == i.lan
    requires FromAPeer(pool, p) && forall e <- events :: e.Arrive? && e.p.iif == i.wg ==> FromAPeer(pool, e.p)
    ensures var t := FirewallRuns.Run(i, c, events);
            && FirewallRuns.Inv(i, c, t) && !tie.Bad? && (!tie.Opening? ==> FirewallRuns.EntryOf(tie) < |t.flows|)
            && var first := if tie.Opening? then p else t.flows[FirewallRuns.Root(t, FirewallRuns.EntryOf(tie))].first;
               && first.iif == i.wg && first.oif == i.lan && !first.six
               && i.wgNet4.Has(first.saddr) && pool.Server() < first.saddr < pool.Broadcast()
  {
    var t := FirewallRuns.Run(i, c, events);
    FirewallRuns.PeersStayInTheirNet(i, env, c, events, p, tie);
    if tie.Opening? {
      PeersSendFromThePool(pool, p);
    } else {
      var root := FirewallRuns.Root(t, FirewallRuns.EntryOf(tie));
      FlowsArrived(i, c, events, root);
      PeersSendFromThePool(pool, t.flows[root].first);
    }
  }
}

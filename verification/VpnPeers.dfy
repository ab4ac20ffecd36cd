/**
 The whole service runs the peer service: for every run of handlers, passes, restarts and
 deaths there is a run of locked peer operations with the same list, file and backend, so
 what holds for those runs holds here.
 */
module VpnPeers {
  import opened Wrappers
  import opened AtomicFiles
  import opened AddressPool
  import opened PeerService
  import opened OwnerStores
  import SignIn
  import opened Reconciler
  import opened VpnHandlers
  import opened VpnRuns
  import PeerRuns

  /** A server and a peer service in the same state. */
  ghost predicate Mirrors(s: Server, p: PeerRuns.Sys) {
    match s
    case Up(v) => p == PeerRuns.Sys(true, v.svc)
    case Down(peers, _) => p == PeerRuns.Sys(false, State([], peers))
  }

  // ---------------------------------------------------------------- what the events promise

  /** No create fails to roll back, and a start finds an empty backend. */
  predicate GoodEvent(e: VpnRuns.Event) {
    && (e.CreateMine? || e.AdminCreate? ==> e.cw.save.Done? || e.cw.rollbackOk)
    && (e.Restart? ==> e.wiped)
  }

  /** The removals of a handler or a pass are saved, as far as it gets. */
  ghost predicate SavedEvent(e: VpnRuns.Event) {
    && (e.DeleteMine? || e.AdminDelete? ==> e.save.Done?)
    && (e.Reconcile? ==> e.w.expirySave.Done? && forall s :: e.w.revokeSave(s).Done?)
    && (e.DieIn? ==> SavedEvent(e.op))
  }

  ghost predicate AllGood(es: seq<PeerRuns.Event>) {
    forall e <- es :: PeerRuns.GoodRollback(e)
  }

  ghost predicate AllSaved(es: seq<PeerRuns.Event>) {
    forall e <- es :: PeerRuns.RemovalSaved(e)
  }

  // ---------------------------------------------------------------- peer operations one after the other

  function RunFrom(pool: Pool, p: PeerRuns.Sys, es: seq<PeerRuns.Event>): PeerRuns.Sys
    requires pool.prefix.bits <= pool.prefix.width
  {
    if es == [] then p else PeerRuns.Step(pool, RunFrom(pool, p, es[..|es| - 1]), Last(es))
  }

  lemma {:induction false} RunFromConcat(pool: Pool, p: PeerRuns.Sys, a: seq<PeerRuns.Event>, b: seq<PeerRuns.Event>)
    requires pool.prefix.bits <= pool.prefix.width
    ensures RunFrom(pool, p, a + b) == RunFrom(pool, RunFrom(pool, p, a), b)
  {
    if b == [] {
      assert a + b == a;
    } else {
      RunFromConcat(pool, p, a, b[..|b| - 1]);
      assert (a + b)[..|a + b| - 1] == a + b[..|b| - 1];
    }
  }

  lemma {:induction false} RunIsRunFrom(pool: Pool, es: seq<PeerRuns.Event>)
    requires pool.prefix.bits <= pool.prefix.width
    ensures PeerRuns.Run(pool, es) == RunFrom(pool, PeerRuns.INITIAL, es)
  {
    if es != [] {
      RunIsRunFrom(pool, es[..|es| - 1]);
    }
  }

  lemma RunOne(pool: Pool, p: PeerRuns.Sys, e: PeerRuns.Event)
    requires pool.prefix.bits <= pool.prefix.width
    ensures RunFrom(pool, p, [e]) == PeerRuns.Step(pool, p, e)
  {
    assert [e][..0] == [];
  }

  function Removes(m: Match, fails: set<nat>, save: Outcome): PeerRuns.Event {
    PeerRuns.Do(PeerRuns.Remove(m, fails, save))
  }

  // ---------------------------------------------------------------- passes

  function RoundEvents(v: Vpn, sub: string, rec: OwnerRecord, w: World, group: string): seq<PeerRuns.Event> {
    if rec.refreshToken == "" || OwnedCount(v.svc.peers, sub) == 0
        || Reconciler.StillAllowed(w.reply(sub), group) then []
    else [Removes(ByOwner(sub), w.revokeFails(sub), w.revokeSave(sub))]
  }

  function RoundsEvents(v: Vpn, snapshot: Table, order: seq<string>, w: World, group: string): seq<PeerRuns.Event>
    requires forall s <- order :: s in snapshot
  {
    if order == [] then []
    else
      var before := order[..|order| - 1];
      RoundsEvents(v, snapshot, before, w, group)
      + RoundEvents(Rounds(v, snapshot, before, w, group), Last(order), snapshot[Last(order)], w, group)
  }

  function PassEvents(v: Vpn, order: seq<string>, w: World, group: string): seq<PeerRuns.Event>
    requires forall s <- order :: s in v.owners.m
  {
    [Removes(Expired(w.now), w.expiryFails, w.expirySave)] + RoundsEvents(Expiring(v, w), v.owners.m, order, w, group)
  }

  lemma RoundMirrored(pool: Pool, v: Vpn, sub: string, rec: OwnerRecord, w: World, group: string)
    requires pool.prefix.bits <= pool.prefix.width
    ensures RunFrom(pool, PeerRuns.Sys(true, v.svc), RoundEvents(v, sub, rec, w, group))
         == PeerRuns.Sys(true, Round(v, sub, rec, w, group).svc)
  {
    assert Refresh(v, sub, rec, w).svc == v.svc;
    RunOne(pool, PeerRuns.Sys(true, v.svc), Removes(ByOwner(sub), w.revokeFails(sub), w.revokeSave(sub)));
  }

  lemma {:induction false} RoundsMirrored(pool: Pool, v: Vpn, snapshot: Table, order: seq<string>, w: World,
      group: string)
    requires pool.prefix.bits <= pool.prefix.width && forall s <- order :: s in snapshot
    ensures RunFrom(pool, PeerRuns.Sys(true, v.svc), RoundsEvents(v, snapshot, order, w, group))
         == PeerRuns.Sys(true, Rounds(v, snapshot, order, w, group).svc)
  {
    if order != [] {
      var before := order[..|order| - 1];
      var v1 := Rounds(v, snapshot, before, w, group);
      RoundsMirrored(pool, v, snapshot, before, w, group);
      RoundMirrored(pool, v1, Last(order), snapshot[Last(order)], w, group);
      RunFromConcat(pool, PeerRuns.Sys(true, v.svc), RoundsEvents(v, snapshot, before, w, group),
                    RoundEvents(v1, Last(order), snapshot[Last(order)], w, group));
    }
  }

  lemma PassMirrored(pool: Pool, v: Vpn, order: seq<string>, w: World, group: string)
    requires pool.prefix.bits <= pool.prefix.width && forall s <- order :: s in v.owners.m
    ensures RunFrom(pool, PeerRuns.Sys(true, v.svc), PassEvents(v, order, w, group))
         == PeerRuns.Sys(true, Reconciled(v, order, w, group).svc)
  {
    var first := Removes(Expired(w.now), w.expiryFails, w.expirySave);
    RunOne(pool, PeerRuns.Sys(true, v.svc), first);
    RunFromConcat(pool, PeerRuns.Sys(true, v.svc), [first], RoundsEvents(Expiring(v, w), v.owners.m, order, w, group));
    RoundsMirrored(pool, Expiring(v, w), v.owners.m, order, w, group);
  }

  lemma {:induction false} RoundsEventsAre(v: Vpn, snapshot: Table, order: seq<string>, w: World, group: string)
    requires forall s <- order :: s in snapshot
    ensures AllGood(RoundsEvents(v, snapshot, order, w, group))
    ensures (forall s :: w.revokeSave(s).Done?) ==> AllSaved(RoundsEvents(v, snapshot, order, w, group))
  {
    if order != [] {
      RoundsEventsAre(v, snapshot, order[..|order| - 1], w, group);
    }
  }

  // ---------------------------------------------------------------- handlers

  ghost function ServeEvents(v: Vpn, c: Config, e: VpnRuns.Event): seq<PeerRuns.Event>
    requires Serves(e)
  {
    match e
    case CreateMine(who, name, key, cw) =>
      var user := RequireStep(v, who).1;
      if user.Err? then [] else [PeerRuns.Do(PeerRuns.Create(MineRequest(c, user.value, name, key), cw))]
    case DeleteMine(who, id, fails, save) =>
      var user := RequireStep(v, who).1;
      if user.Err? then [] else [Removes(ByIdAndOwner(id, user.value.sub), fails, save)]
    case AdminCreate(name, key, cw) => [PeerRuns.Do(PeerRuns.Create(AdminRequest(name, key), cw))]
    case AdminDelete(id, fails, save) => [Removes(ById(id), fails, save)]
    case Reconcile(order, w) => if Enumerates(order, v.owners.m.Keys) then PassEvents(v, order, w, c.group) else []
    case _ => []
  }

  function MineRequest(c: Config, u: SignIn.User, name: string, key: KeyInput): CreateRequest {
    CreateRequest(name, key, CreateOptions(u.sub, u.name, c.peerTTL, c.maxPeers))
  }

  function AdminRequest(name: string, key: KeyInput): CreateRequest {
    CreateRequest(name, key, CreateOptions("", "", 0, 0))
  }

  lemma MineMirrored(pool: Pool, v: Vpn, c: Config, e: VpnRuns.Event)
    requires pool.prefix.bits <= pool.prefix.width && (e.CreateMine? || e.DeleteMine?)
    ensures RunFrom(pool, PeerRuns.Sys(true, v.svc), ServeEvents(v, c, e))
         == PeerRuns.Sys(true, Serve(v, c, pool, e).svc)
  {
    assert RequireStep(v, e.who).0.svc == v.svc;
    var es := ServeEvents(v, c, e);
    if es != [] {
      assert es == [es[0]];
      RunOne(pool, PeerRuns.Sys(true, v.svc), es[0]);
    }
  }

  lemma CallbackKeepsPeers(v: Vpn, c: Config, r: CallbackRequest)
    ensures CallbackStep(v, c, r).0.svc == v.svc
  {}

  lemma ServeMirrored(pool: Pool, v: Vpn, c: Config, e: VpnRuns.Event)
    requires pool.prefix.bits <= pool.prefix.width && Serves(e)
    ensures RunFrom(pool, PeerRuns.Sys(true, v.svc), ServeEvents(v, c, e))
         == PeerRuns.Sys(true, Serve(v, c, pool, e).svc)
  {
    var p := PeerRuns.Sys(true, v.svc);
    match e
    case CreateMine(_, _, _, _) => MineMirrored(pool, v, c, e);
    case DeleteMine(_, _, _, _) => MineMirrored(pool, v, c, e);
    case AdminCreate(name, key, cw) => RunOne(pool, p, PeerRuns.Do(PeerRuns.Create(AdminRequest(name, key), cw)));
    case AdminDelete(id, fails, save) => RunOne(pool, p, Removes(ById(id), fails, save));
    case Reconcile(order, w) => if Enumerates(order, v.owners.m.Keys) { PassMirrored(pool, v, order, w, c.group); }
    case Callback(r) => CallbackKeepsPeers(v, c, r);
    case _ =>
  }

  lemma ServeEventsAre(v: Vpn, c: Config, e: VpnRuns.Event)
    requires Serves(e)
    ensures GoodEvent(e) ==> AllGood(ServeEvents(v, c, e))
    ensures SavedEvent(e) ==> AllSaved(ServeEvents(v, c, e))
  {
    if e.Reconcile? && Enumerates(e.order, v.owners.m.Keys) {
      RoundsEventsAre(Expiring(v, e.w), v.owners.m, e.order, e.w, c.group);
    }
  }

  // ---------------------------------------------------------------- deaths

  /** Peer operations that lead from a running service to these durable peers of a dead one. */
  ghost predicate LeadsTo(pool: Pool, v: Vpn, es: seq<PeerRuns.Event>, d: Durable)
    requires pool.prefix.bits <= pool.prefix.width
  {
    RunFrom(pool, PeerRuns.Sys(true, v.svc), es) == PeerRuns.Sys(false, State([], d))
  }

  /** A death that loses nothing but the process. */
  const DIES: PeerRuns.Event := PeerRuns.DieIn(PeerRuns.Remove(ById(""), {}, Done), 0)

  lemma DiesHere(pool: Pool, v: Vpn)
    requires pool.prefix.bits <= pool.prefix.width
    ensures LeadsTo(pool, v, [DIES], v.svc.durable)
  {
    RunOne(pool, PeerRuns.Sys(true, v.svc), DIES);
  }

  /** A durable state on the way of a peer operation. */
  lemma DiesInOp(pool: Pool, v: Vpn, op: PeerRuns.Op, d: Durable) returns (es: seq<PeerRuns.Event>)
    requires pool.prefix.bits <= pool.prefix.width && d in PeerRuns.OpTrace(pool, v.svc, op)
    ensures LeadsTo(pool, v, es, d) && AllGood(es) && AllSaved(es)
  {
    var k: nat :| k < |PeerRuns.OpTrace(pool, v.svc, op)| && PeerRuns.OpTrace(pool, v.svc, op)[k] == d;
    es := [PeerRuns.DieIn(op, k)];
    RunOne(pool, PeerRuns.Sys(true, v.svc), PeerRuns.DieIn(op, k));
  }

  lemma DiesAfter(pool: Pool, v: Vpn, a: seq<PeerRuns.Event>, v1: Vpn, b: seq<PeerRuns.Event>, d: Durable)
    requires pool.prefix.bits <= pool.prefix.width
    requires RunFrom(pool, PeerRuns.Sys(true, v.svc), a) == PeerRuns.Sys(true, v1.svc) && LeadsTo(pool, v1, b, d)
    ensures LeadsTo(pool, v, a + b, d)
  {
    RunFromConcat(pool, PeerRuns.Sys(true, v.svc), a, b);
  }

  lemma DiesInRemoval(pool: Pool, v: Vpn, m: Match, fails: set<nat>, save: Outcome, d: Disks)
      returns (es: seq<PeerRuns.Event>)
    requires pool.prefix.bits <= pool.prefix.width && d in RemoveTrail(v, m, fails, save)
    ensures LeadsTo(pool, v, es, d.peers) && AllGood(es) && AllSaved(es)
  {
    es := DiesInOp(pool, v, PeerRuns.Remove(m, fails, save), d.peers);
  }

  lemma DiesInCreation(pool: Pool, v: Vpn, req: CreateRequest, w: CreateWorld, d: Disks)
      returns (es: seq<PeerRuns.Event>)
    requires pool.prefix.bits <= pool.prefix.width && d in CreateTrail(v, pool, req, w)
    ensures LeadsTo(pool, v, es, d.peers) && AllGood(es) && AllSaved(es)
  {
    es := DiesInOp(pool, v, PeerRuns.Create(req, w), d.peers);
  }

  lemma DiesInRevoke(pool: Pool, v: Vpn, sub: string, w: World, d: Disks) returns (es: seq<PeerRuns.Event>)
    requires pool.prefix.bits <= pool.prefix.width && d in RevokeTrail(v, sub, w)
    ensures LeadsTo(pool, v, es, d.peers) && AllGood(es)
    ensures w.revokeSave(sub).Done? ==> AllSaved(es)
  {
    var m, fails, save := ByOwner(sub), w.revokeFails(sub), w.revokeSave(sub);
    if d in RemoveTrail(v, m, fails, save) {
      es := DiesInRemoval(pool, v, m, fails, save, d);
    } else {
      var v1 := v.(svc := After(RemoveEffect(v.svc, m, fails, save)));
      DiesHere(pool, v1);
      RunOne(pool, PeerRuns.Sys(true, v.svc), Removes(m, fails, save));
      DiesAfter(pool, v, [Removes(m, fails, save)], v1, [DIES], d.peers);
      es := [Removes(m, fails, save)] + [DIES];
    }
  }

  lemma DiesInRound(pool: Pool, v: Vpn, sub: string, rec: OwnerRecord, w: World, group: string, d: Disks)
    returns (es: seq<PeerRuns.Event>)
    requires pool.prefix.bits <= pool.prefix.width && d in RoundTrail(v, sub, rec, w, group)
    ensures LeadsTo(pool, v, es, d.peers) && AllGood(es)
    ensures w.revokeSave(sub).Done? ==> AllSaved(es)
  {
    var token, v1 := Rotation(rec, w.reply(sub)), Refresh(v, sub, rec, w);
    assert v1.svc == v.svc;
    if token.Some? && d in SetTrail(v, sub, rec.name, token.value, w.rotationSave(sub)) {
      DiesHere(pool, v);
      es := [DIES];
    } else {
      es := DiesInRevoke(pool, v1, sub, w, d);
    }
  }

  lemma {:induction false} DiesInRounds(
    pool: Pool, v: Vpn, snapshot: Table, order: seq<string>, w: World, group: string, d: Disks)
    returns (es: seq<PeerRuns.Event>)
    requires pool.prefix.bits <= pool.prefix.width && forall s <- order :: s in snapshot
    requires d in RoundsTrail(v, snapshot, order, w, group)
    ensures LeadsTo(pool, v, es, d.peers) && AllGood(es)
    ensures (forall s :: w.revokeSave(s).Done?) ==> AllSaved(es)
  {
    var before := order[..|order| - 1];
    var v1 := Rounds(v, snapshot, before, w, group);
    if d in RoundsTrail(v, snapshot, before, w, group) {
      es := DiesInRounds(pool, v, snapshot, before, w, group, d);
    } else {
      var last := DiesInRound(pool, v1, Last(order), snapshot[Last(order)], w, group, d);
      var first := RoundsEvents(v, snapshot, before, w, group);
      RoundsMirrored(pool, v, snapshot, before, w, group);
      RoundsEventsAre(v, snapshot, before, w, group);
      DiesAfter(pool, v, first, v1, last, d.peers);
      es := first + last;
    }
  }

  lemma DiesInPass(pool: Pool, v: Vpn, order: seq<string>, w: World, group: string, d: Disks)
      returns (es: seq<PeerRuns.Event>)
    requires pool.prefix.bits <= pool.prefix.width && forall s <- order :: s in v.owners.m
    requires d in PassTrail(v, order, w, group)
    ensures LeadsTo(pool, v, es, d.peers) && AllGood(es)
    ensures w.expirySave.Done? && (forall s :: w.revokeSave(s).Done?) ==> AllSaved(es)
  {
    var first := Removes(Expired(w.now), w.expiryFails, w.expirySave);
    if d in RemoveTrail(v, Expired(w.now), w.expiryFails, w.expirySave) {
      es := DiesInRemoval(pool, v, Expired(w.now), w.expiryFails, w.expirySave, d);
    } else {
      var rest := DiesInRounds(pool, Expiring(v, w), v.owners.m, order, w, group, d);
      RunOne(pool, PeerRuns.Sys(true, v.svc), first);
      DiesAfter(pool, v, [first], Expiring(v, w), rest, d.peers);
      es := [first] + rest;
    }
  }

  lemma DiesInMine(pool: Pool, v: Vpn, c: Config, e: VpnRuns.Event, d: Disks) returns (es: seq<PeerRuns.Event>)
    requires pool.prefix.bits <= pool.prefix.width && (e.CreateMine? || e.DeleteMine?) && d in Trail(v, c, pool, e)
    ensures LeadsTo(pool, v, es, d.peers) && AllGood(es) && AllSaved(es)
  {
    var (v1, user) := RequireStep(v, e.who);
    assert v1.svc == v.svc;
    if e.CreateMine? {
      es := DiesInCreation(pool, v1, MineRequest(c, user.value, e.name, e.key), e.cw, d);
    } else {
      es := DiesInRemoval(pool, v1, ByIdAndOwner(e.id, user.value.sub), e.fails, e.save, d);
    }
  }

  lemma CallbackTrailKeepsPeers(v: Vpn, c: Config, r: CallbackRequest)
    ensures forall d <- CallbackTrail(v, c, r) :: d.peers == v.svc.durable
  {}

  /** Wherever a handler or a pass dies, peer operations die in the same durable peers. */
  lemma DiesInTrail(pool: Pool, v: Vpn, c: Config, e: VpnRuns.Event, d: Disks) returns (es: seq<PeerRuns.Event>)
    requires pool.prefix.bits <= pool.prefix.width && Serves(e) && d in [Here(v)] + Trail(v, c, pool, e)
    ensures LeadsTo(pool, v, es, d.peers) && AllGood(es) && (SavedEvent(e) ==> AllSaved(es))
  {
    DiesHere(pool, v);
    es := [DIES];
    if d in Trail(v, c, pool, e) {
      match e
      case CreateMine(_, _, _, _) => es := DiesInMine(pool, v, c, e, d);
      case DeleteMine(_, _, _, _) => es := DiesInMine(pool, v, c, e, d);
      case AdminCreate(name, key, cw) => es := DiesInCreation(pool, v, AdminRequest(name, key), cw, d);
      case AdminDelete(id, fails, save) => es := DiesInRemoval(pool, v, ById(id), fails, save, d);
      case Reconcile(order, w) =>
        if Enumerates(order, v.owners.m.Keys) {
          es := DiesInPass(pool, v, order, w, c.group, d);
        }
      case Callback(r) => CallbackTrailKeepsPeers(v, c, r);
      case _ =>
    }
  }

  // ---------------------------------------------------------------- whole runs

  /** A start of the server is a start of the peer service: the records' file is never torn. */
  lemma StartMirrored(pool: Pool, peers: Durable, owners: Disk<Table>, e: VpnRuns.Event) returns (p: PeerRuns.Event)
    requires pool.prefix.bits <= pool.prefix.width && (e.Restart? || e.DieStarting?) && !owners.target.Torn?
    ensures Mirrors(Starting(peers, owners, e), PeerRuns.Step(pool, PeerRuns.Sys(false, State([], peers)), p))
    ensures (GoodEvent(e) ==> PeerRuns.GoodRollback(p)) && PeerRuns.RemovalSaved(p)
  {
    p := if e.Restart? then PeerRuns.Start(e.wiped, e.readOk, e.fails)
         else PeerRuns.DieStarting(e.wiped, e.readOk, e.fails, e.at);
  }

  lemma StepMirrored(s: Server, c: Config, pool: Pool, e: VpnRuns.Event, p: PeerRuns.Sys)
      returns (es: seq<PeerRuns.Event>)
    requires pool.prefix.bits <= pool.prefix.width && VpnRuns.Inv(s) && Mirrors(s, p)
    ensures Mirrors(VpnRuns.Step(s, c, pool, e), RunFrom(pool, p, es))
    ensures (GoodEvent(e) ==> AllGood(es)) && (SavedEvent(e) ==> AllSaved(es))
  {
    es := [];
    match s
    case Up(v) =>
      if Serves(e) {
        es := ServeEvents(v, c, e);
        ServeMirrored(pool, v, c, e);
        ServeEventsAre(v, c, e);
      } else if e.DieIn? {
        if Serves(e.op) {
          es := DiesInTrail(pool, v, c, e.op, PeerRuns.Pick([Here(v)] + Trail(v, c, pool, e.op), e.at));
        }
      } else {
        var start := StartMirrored(pool, v.svc.durable, v.owners.disk, e);
        DiesHere(pool, v);
        RunFromConcat(pool, p, [DIES], [start]);
        RunOne(pool, PeerRuns.Sys(false, State([], v.svc.durable)), start);
        es := [DIES] + [start];
      }
    case Down(peers, owners) =>
      if !Serves(e) && !e.DieIn? {
        var start := StartMirrored(pool, peers, owners, e);
        RunOne(pool, p, start);
        es := [start];
      }
  }

  /** Every run of the whole service has a run of peer operations with the same peers. */
  lemma {:induction false} RunMirrored(c: Config, pool: Pool, events: seq<VpnRuns.Event>)
      returns (es: seq<PeerRuns.Event>)
    requires pool.prefix.bits <= pool.prefix.width
    ensures Mirrors(VpnRuns.Run(c, pool, events), PeerRuns.Run(pool, es))
    ensures (forall e <- events :: GoodEvent(e)) ==> AllGood(es)
    ensures (forall e <- events :: SavedEvent(e)) ==> AllSaved(es)
  {
    if events == [] {
      es := [];
    } else {
      var before, last := events[..|events| - 1], Last(events);
      assert last in events;
      var first := RunMirrored(c, pool, before);
      VpnRuns.RunKeepsInv(c, pool, before);
      var more := StepMirrored(VpnRuns.Run(c, pool, before), c, pool, last, PeerRuns.Run(pool, first));
      RunIsRunFrom(pool, first);
      RunIsRunFrom(pool, first + more);
      RunFromConcat(pool, PeerRuns.INITIAL, first, more);
      es := first + more;
    }
  }

  /**
   At every point of every run of the whole service: the list is the file's, keys and
   addresses are distinct and inside the pool; with good rollbacks the backend holds only
   listed peers, and all of them if every removal was saved.
   */
  lemma PeersStaySane(c: Config, pool: Pool, events: seq<VpnRuns.Event>)
    requires pool.prefix.bits <= pool.prefix.width && VpnRuns.Run(c, pool, events).Up?
    ensures var st := VpnRuns.Run(c, pool, events).v.svc;
            && PeerRuns.Sane(pool, st.peers) && st.peers == Stored(st.durable.disk.target)
            && ((forall e <- events :: GoodEvent(e)) ==> PeerRuns.Shadowed(st))
            && ((forall e <- events :: GoodEvent(e) && SavedEvent(e)) ==> PeerRuns.InBackend(st))
  {
    var es := RunMirrored(c, pool, events);
    var st := VpnRuns.Run(c, pool, events).v.svc;
    PeerRuns.RunKeepsInv(pool, es);
    if forall e <- events :: GoodEvent(e) {
      PeerRuns.BackendShadowsList(pool, es);
      PeerRuns.NothingMissingIsEqual(st);
    }
  }

  /** There too the pool is exhausted exactly when 2^(32-bits) - 3 peers are listed. */
  lemma ExhaustedExactlyWhenFull(c: Config, pool: Pool, events: seq<VpnRuns.Event>, key: Key, opt: CreateOptions)
    requires pool.Valid() && VpnRuns.Run(c, pool, events).Up?
    ensures var peers := VpnRuns.Run(c, pool, events).v.svc.peers;
            && |peers| <= pool.Capacity()
            && (Admit(pool, peers, key, opt) == Err(Exhausted) <==>
                  && |peers| == pool.Capacity()
                  && (forall p <- peers :: p.publicKey != key)
                  && !(opt.maxPerOwner > 0 && opt.owner != "" && OwnedCount(peers, opt.owner) >= opt.maxPerOwner))
  {
    var es := RunMirrored(c, pool, events);
    PeerRuns.ExhaustedExactlyWhenFull(pool, es, key, opt);
  }
}

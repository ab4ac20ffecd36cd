/**
 Runs of the whole VPN service, one handler or one reconcile pass per step, with failing
 saves and backend calls, early returns from a revocation, restarts in between, and deaths
 of the process between any two durable steps of a handler, a pass or a start.
 A handler's session check and its service call count as one step.
 */
module VpnRuns {
  import opened Wrappers
  import opened AtomicFiles
  import opened AddressPool
  import opened PeerService
  import opened OwnerStores
  import opened SignIn
  import opened Reconciler
  import opened VpnHandlers
  import PeerRuns

  datatype Server = Up(v: Vpn) | Down(peers: Durable, owners: Disk<Table>)

  datatype Event =
    | Login(now: int, state: string, nonce: string, verifier: string)
    | Callback(r: CallbackRequest)
    | Peek(who: Caller)
    | Logout(who: Caller)
    | CreateMine(who: Caller, name: string, key: KeyInput, cw: CreateWorld)
    | DeleteMine(who: Caller, id: string, fails: set<nat>, save: Outcome)
    | AdminCreate(name: string, key: KeyInput, cw: CreateWorld)
    | AdminDelete(id: string, fails: set<nat>, save: Outcome)
    | Reconcile(order: seq<string>, w: World)
    | Restart(wiped: bool, readOk: bool, fails: set<nat>)
    | DieIn(op: Event, at: nat)
    | DieStarting(wiped: bool, readOk: bool, fails: set<nat>, at: nat)

  /** What handlers and passes do, as opposed to starts and deaths. */
  predicate Serves(e: Event) {
    !e.Restart? && !e.DieIn? && !e.DieStarting?
  }

  ghost function Serve(v: Vpn, c: Config, pool: Pool, e: Event): Vpn
    requires pool.prefix.bits <= pool.prefix.width && Serves(e)
  {
    match e
    case Login(now, state, nonce, verifier) => v.(pending := LoginSection(v.pending, now, state, nonce, verifier).0)
    case Callback(r) => CallbackStep(v, c, r).0
    case Peek(who) => SessionStep(v, who).0
    case Logout(who) => LogoutStep(v, who)
    case CreateMine(who, name, key, cw) => CreateMineStep(v, c, pool, who, name, key, cw).0
    case DeleteMine(who, id, fails, save) => DeleteMineStep(v, who, id, fails, save).0
    case AdminCreate(name, key, cw) => AdminCreateStep(v, pool, name, key, cw)
    case AdminDelete(id, fails, save) => AdminDeleteStep(v, id, fails, save)
    case Reconcile(order, w) => if Enumerates(order, v.owners.m.Keys) then Reconciled(v, order, w, c.group) else v
  }

  /** The process ends and starts again; a start that fails leaves only the files. */
  function Restarted(peers: Durable, owners: Disk<Table>, wiped: bool, readOk: bool, fails: set<nat>): Server {
    var e := RestoreEffect(PeerRuns.Boot(peers, wiped), readOk, fails);
    if e.result.Some? || owners.target.Torn? then Down(Last(e.trace), owners)
    else Up(Vpn(After(e), Owners(StoredTable(owners.target), owners), map[], map[]))
  }

  // ---------------------------------------------------------------- the disks on the way

  /** What a death leaves. */
  datatype Disks = Disks(peers: Durable, owners: Disk<Table>)

  function Here(v: Vpn): Disks {
    Disks(v.svc.durable, v.owners.disk)
  }

  function PeersMove(trace: seq<Durable>, owners: Disk<Table>): (r: seq<Disks>)
    ensures |r| == |trace|
  {
    seq(|trace|, k requires 0 <= k < |trace| => Disks(trace[k], owners))
  }

  function OwnersMove(peers: Durable, trace: seq<Disk<Table>>): (r: seq<Disks>)
    ensures |r| == |trace|
  {
    seq(|trace|, k requires 0 <= k < |trace| => Disks(peers, trace[k]))
  }

  function CreateTrail(v: Vpn, pool: Pool, req: CreateRequest, w: CreateWorld): seq<Disks>
    requires pool.prefix.bits <= pool.prefix.width
  {
    PeersMove(CreateEffect(pool, v.svc, req, w).trace, v.owners.disk)
  }

  function RemoveTrail(v: Vpn, m: Match, fails: set<nat>, save: Outcome): seq<Disks> {
    PeersMove(RemoveEffect(v.svc, m, fails, save).trace, v.owners.disk)
  }

  function SetTrail(v: Vpn, sub: string, name: string, token: string, save: Outcome): seq<Disks> {
    OwnersMove(v.svc.durable, WriteTrace(v.owners.disk, WithRecord(v.owners.m, sub, name, token), save))
  }

  function DeleteTrail(v: Vpn, sub: string, save: Outcome): seq<Disks> {
    OwnersMove(v.svc.durable, WriteTrace(v.owners.disk, v.owners.m - {sub}, save))
  }

  function RevokeTrail(v: Vpn, sub: string, w: World): seq<Disks> {
    var e := RemoveEffect(v.svc, ByOwner(sub), w.revokeFails(sub), w.revokeSave(sub));
    RemoveTrail(v, ByOwner(sub), w.revokeFails(sub), w.revokeSave(sub))
    + if e.result.error.Some? then [] else DeleteTrail(v.(svc := After(e)), sub, w.deleteSave(sub))
  }

  function RoundTrail(v: Vpn, sub: string, rec: OwnerRecord, w: World, group: string): seq<Disks> {
    if rec.refreshToken == "" || OwnedCount(v.svc.peers, sub) == 0 then []
    else
      var token := Rotation(rec, w.reply(sub));
      (if token.Some? then SetTrail(v, sub, rec.name, token.value, w.rotationSave(sub)) else [])
      + if StillAllowed(w.reply(sub), group) then [] else RevokeTrail(Refresh(v, sub, rec, w), sub, w)
  }

  function RoundsTrail(v: Vpn, snapshot: Table, order: seq<string>, w: World, group: string): seq<Disks>
    requires forall s <- order :: s in snapshot
  {
    if order == [] then []
    else
      var before := order[..|order| - 1];
      RoundsTrail(v, snapshot, before, w, group)
      + RoundTrail(Rounds(v, snapshot, before, w, group), Last(order), snapshot[Last(order)], w, group)
  }

  function CallbackTrail(v: Vpn, c: Config, r: CallbackRequest): seq<Disks> {
    if r.cookie != Some(r.state) || r.state == "" then []
    else
      match Vet(TakeSection(v.pending, r.state).1, r.now, r.error, r.code, r.ex, c.group)
      case Err(_) => []
      case Ok(u) => SetTrail(v, u.sub, u.name, r.ex.refresh, r.save)
  }

  /** The disks that a handler or a pass goes through, after those it finds. */
  ghost function Trail(v: Vpn, c: Config, pool: Pool, e: Event): seq<Disks>
    requires pool.prefix.bits <= pool.prefix.width && Serves(e)
  {
    match e
    case Callback(r) => CallbackTrail(v, c, r)
    case CreateMine(who, name, key, cw) => CreateMineTrail(v, c, pool, who, name, key, cw)
    case DeleteMine(who, id, fails, save) => DeleteMineTrail(v, who, id, fails, save)
    case AdminCreate(name, key, cw) => CreateTrail(v, pool, CreateRequest(name, key, CreateOptions("", "", 0, 0)), cw)
    case AdminDelete(id, fails, save) => RemoveTrail(v, ById(id), fails, save)
    case Reconcile(order, w) =>
      if Enumerates(order, v.owners.m.Keys) then PassTrail(v, order, w, c.group) else []
    case _ => []
  }

  function CreateMineTrail(v: Vpn, c: Config, pool: Pool, who: Caller, name: string, key: KeyInput,
      cw: CreateWorld): seq<Disks>
    requires pool.prefix.bits <= pool.prefix.width
  {
    var (v1, user) := RequireStep(v, who);
    if user.Err? then []
    else CreateTrail(v1, pool,
        CreateRequest(name, key, CreateOptions(user.value.sub, user.value.name, c.peerTTL, c.maxPeers)), cw)
  }

  function DeleteMineTrail(v: Vpn, who: Caller, id: string, fails: set<nat>, save: Outcome): seq<Disks> {
    var (v1, user) := RequireStep(v, who);
    if user.Err? then [] else RemoveTrail(v1, ByIdAndOwner(id, user.value.sub), fails, save)
  }

  function PassTrail(v: Vpn, order: seq<string>, w: World, group: string): seq<Disks>
    requires forall s <- order :: s in v.owners.m
  {
    RemoveTrail(v, Expired(w.now), w.expiryFails, w.expirySave)
    + RoundsTrail(Expiring(v, w), v.owners.m, order, w, group)
  }

  function Dead(d: Disks): Server {
    Down(d.peers, d.owners)
  }

  ghost function Step(s: Server, c: Config, pool: Pool, e: Event): Server
    requires pool.prefix.bits <= pool.prefix.width
  {
    match s
    case Up(v) =>
      if Serves(e) then Up(Serve(v, c, pool, e))
      else if e.DieIn? then
        if Serves(e.op) then Dead(PeerRuns.Pick([Here(v)] + Trail(v, c, pool, e.op), e.at)) else s
      else Starting(v.svc.durable, v.owners.disk, e)
    case Down(peers, owners) => if Serves(e) || e.DieIn? then s else Starting(peers, owners, e)
  }

  /** A start, or a death during one. */
  function Starting(peers: Durable, owners: Disk<Table>, e: Event): Server
    requires e.Restart? || e.DieStarting?
  {
    if e.Restart? then Restarted(peers, owners, e.wiped, e.readOk, e.fails)
    else Down(PeerRuns.Pick(RestoreEffect(PeerRuns.Boot(peers, e.wiped), e.readOk, e.fails).trace, e.at), owners)
  }

  const EMPTY := Up(Vpn(
    State([], Durable(Disk(Absent, Absent), map[])),
    Owners(map[], Disk(Absent, Absent)), map[], map[]))

  ghost function Run(c: Config, pool: Pool, events: seq<Event>): Server
    requires pool.prefix.bits <= pool.prefix.width
  {
    if events == [] then EMPTY
    else Step(Run(c, pool, events[..|events| - 1]), c, pool, Last(events))
  }

  // ---------------------------------------------------------------- what every step keeps

  /** A subject with a record in memory and on disk. */
  ghost predicate Recorded(o: Owners, sub: string) {
    sub in o.m && sub in StoredTable(o.disk.target)
  }

  ghost predicate OwnersSane(o: Owners) {
    !o.disk.target.Torn? && "" !in o.m && "" !in StoredTable(o.disk.target)
  }

  ghost predicate SessionsCovered(sessions: Sessions, o: Owners) {
    forall id <- sessions :: sessions[id].user.sub != "" && Recorded(o, sessions[id].user.sub)
  }

  ghost predicate PeersCovered(peers: seq<Peer>, o: Owners) {
    forall p <- peers :: if p.owner == "" then p.expiresAt.None? else Recorded(o, p.owner)
  }

  ghost predicate FileCurrent(st: State) {
    !st.durable.disk.target.Torn? && st.peers == Stored(st.durable.disk.target)
  }

  ghost predicate Covered(v: Vpn) {
    && FileCurrent(v.svc)
    && OwnersSane(v.owners)
    && SessionsCovered(v.sessions, v.owners)
    && PeersCovered(v.svc.peers, v.owners)
  }

  ghost predicate Inv(s: Server) {
    match s
    case Up(v) => Covered(v)
    case Down(peers, owners) =>
      && !peers.disk.target.Torn?
      && OwnersSane(Owners(StoredTable(owners.target), owners))
      && PeersCovered(Stored(peers.disk.target), Owners(StoredTable(owners.target), owners))
  }

  /** Setting a record keeps every record, whether or not the save succeeds. */
  lemma SetKeepsRecorded(o: Owners, sub: string, name: string, token: string, save: Outcome)
    requires OwnersSane(o) && sub != ""
    ensures var o' := SetRecord(o, sub, name, token, save);
            && OwnersSane(o')
            && (forall s | Recorded(o, s) :: Recorded(o', s))
            && (save.Done? ==> Recorded(o', sub))
  {
  }

  lemma DeleteKeepsOthers(o: Owners, sub: string, save: Outcome)
    requires OwnersSane(o)
    ensures var o' := DeleteRecord(o, sub, save);
            && OwnersSane(o')
            && (forall s | Recorded(o, s) && s != sub :: Recorded(o', s))
  {
  }

  lemma CoverageMoves(v: Vpn, o: Owners)
    requires SessionsCovered(v.sessions, v.owners) && PeersCovered(v.svc.peers, v.owners)
    requires forall s | Recorded(v.owners, s) :: Recorded(o, s)
    ensures SessionsCovered(v.sessions, o) && PeersCovered(v.svc.peers, o)
  {
  }

  /** A removal writes the list it leaves, or nothing. */
  lemma RemovalCurrent(st: State, m: Match, fails: set<nat>, save: Outcome)
    requires FileCurrent(st)
    ensures FileCurrent(After(RemoveEffect(st, m, fails, save)))
  {
  }

  lemma RemovalKeeps(st: State, m: Match, fails: set<nat>, save: Outcome)
    ensures var e := RemoveEffect(st, m, fails, save);
            && (forall p <- e.peers :: p in st.peers)
            && (forall p <- st.peers :: p in e.peers || Matches(m, p))
  {
    PeerRuns.RemoveLeaves(st, m, fails, save);
    PeerRuns.KeptMembers(st.peers, m, fails, |st.peers|);
    forall p <- st.peers ensures p in Kept(st.peers, m, fails, |st.peers|) || Matches(m, p) {
      var i :| 0 <= i < |st.peers| && st.peers[i] == p;
    }
  }

  lemma RemovalWithoutError(st: State, m: Match, fails: set<nat>, save: Outcome)
    requires RemoveEffect(st, m, fails, save).result.error.None?
    ensures forall p <- RemoveEffect(st, m, fails, save).peers :: !Matches(m, p)
  {
    PeerRuns.RemoveLeaves(st, m, fails, save);
    PeerRuns.KeptMembers(st.peers, m, fails, |st.peers|);
    assert !SomeFail(st.peers, m, fails, |st.peers|);
  }

  /** What removals do to the list: a sublist, current on disk, matching peers gone unless there is an error. */
  lemma RemovalList(st: State, m: Match, fails: set<nat>, save: Outcome)
    requires FileCurrent(st)
    ensures var e := RemoveEffect(st, m, fails, save);
            && FileCurrent(After(e))
            && (forall p <- e.peers :: p in st.peers)
            && (forall p <- st.peers :: p in e.peers || Matches(m, p))
            && (e.result.error.None? ==> forall p <- e.peers :: !Matches(m, p))
  {
    RemovalCurrent(st, m, fails, save);
    RemovalKeeps(st, m, fails, save);
    if RemoveEffect(st, m, fails, save).result.error.None? {
      RemovalWithoutError(st, m, fails, save);
    }
  }

  lemma CreationList(pool: Pool, st: State, req: CreateRequest, w: CreateWorld)
    requires pool.prefix.bits <= pool.prefix.width && FileCurrent(st)
    ensures var e := CreateEffect(pool, st, req, w);
            && FileCurrent(After(e))
            && (forall p <- st.peers :: p in e.peers)
            && (forall p <- e.peers :: p in st.peers ||
                  (p.owner == req.opt.owner && (req.opt.ttl <= 0 ==> p.expiresAt.None?)))
  {
  }

  lemma CreationKeepsCovered(pool: Pool, v: Vpn, req: CreateRequest, w: CreateWorld)
    requires pool.prefix.bits <= pool.prefix.width && Covered(v)
    requires if req.opt.owner == "" then req.opt.ttl <= 0 else Recorded(v.owners, req.opt.owner)
    ensures Covered(v.(svc := After(CreateEffect(pool, v.svc, req, w))))
  {
    CreationList(pool, v.svc, req, w);
  }

  lemma RemovalKeepsCovered(v: Vpn, m: Match, fails: set<nat>, save: Outcome)
    requires Covered(v)
    ensures Covered(v.(svc := After(RemoveEffect(v.svc, m, fails, save))))
  {
    RemovalList(v.svc, m, fails, save);
  }

  lemma SessionStepKeepsCovered(v: Vpn, who: Caller)
    requires Covered(v)
    ensures Covered(SessionStep(v, who).0) && Covered(LogoutStep(v, who))
    ensures SessionStep(v, who).1.Some? ==>
              SessionStep(v, who).1.value.sub != "" && Recorded(v.owners, SessionStep(v, who).1.value.sub)
  {
  }

  lemma CallbackKeepsCovered(v: Vpn, c: Config, r: CallbackRequest)
    requires Covered(v)
    ensures Covered(CallbackStep(v, c, r).0)
  {
    var taken := TakeSection(v.pending, r.state).1;
    var vetted := Vet(taken, r.now, r.error, r.code, r.ex, c.group);
    if vetted.Ok? {
      var u := vetted.value;
      SetKeepsRecorded(v.owners, u.sub, u.name, r.ex.refresh, r.save);
      CoverageMoves(v, SetRecord(v.owners, u.sub, u.name, r.ex.refresh, r.save));
    }
  }

  lemma RefreshKeepsCovered(v: Vpn, sub: string, rec: OwnerRecord, w: World)
    requires Covered(v) && sub != ""
    ensures Covered(Refresh(v, sub, rec, w))
  {
    var token := Rotation(rec, w.reply(sub));
    if token.Some? {
      SetKeepsRecorded(v.owners, sub, rec.name, token.value, w.rotationSave(sub));
      CoverageMoves(v, SetRecord(v.owners, sub, rec.name, token.value, w.rotationSave(sub)));
    }
  }

  /** The record goes only after the last peer and together with the sessions. */
  lemma RevokedKeepsCovered(v: Vpn, sub: string, w: World)
    requires Covered(v) && sub != ""
    ensures Covered(Revoked(v, sub, w))
  {
    RemovalList(v.svc, ByOwner(sub), w.revokeFails(sub), w.revokeSave(sub));
    DeleteKeepsOthers(v.owners, sub, w.deleteSave(sub));
  }

  lemma {:induction false} RoundsKeepCovered(v: Vpn, snapshot: Table, order: seq<string>, w: World, group: string)
    requires Covered(v) && "" !in snapshot && forall s <- order :: s in snapshot
    ensures Covered(Rounds(v, snapshot, order, w, group))
  {
    if order != [] {
      var before := Rounds(v, snapshot, order[..|order| - 1], w, group);
      var sub := Last(order);
      RoundsKeepCovered(v, snapshot, order[..|order| - 1], w, group);
      RefreshKeepsCovered(before, sub, snapshot[sub], w);
      RevokedKeepsCovered(Refresh(before, sub, snapshot[sub], w), sub, w);
    }
  }

  lemma ReconciledKeepsCovered(v: Vpn, order: seq<string>, w: World, group: string)
    requires Covered(v) && forall s <- order :: s in v.owners.m
    ensures Covered(Reconciled(v, order, w, group))
  {
    RemovalKeepsCovered(v, Expired(w.now), w.expiryFails, w.expirySave);
    RoundsKeepCovered(Expiring(v, w), v.owners.m, order, w, group);
  }

  lemma CreateMineKeepsCovered(v: Vpn, c: Config, pool: Pool, e: Event)
    requires pool.prefix.bits <= pool.prefix.width && Covered(v) && e.CreateMine?
    ensures Covered(Serve(v, c, pool, e))
  {
    SessionStepKeepsCovered(v, e.who);
    var (v1, user) := RequireStep(v, e.who);
    if user.Ok? {
      var opt := CreateOptions(user.value.sub, user.value.name, c.peerTTL, c.maxPeers);
      CreationKeepsCovered(pool, v1, CreateRequest(e.name, e.key, opt), e.cw);
    }
  }

  lemma DeleteMineKeepsCovered(v: Vpn, c: Config, pool: Pool, e: Event)
    requires pool.prefix.bits <= pool.prefix.width && Covered(v) && e.DeleteMine?
    ensures Covered(Serve(v, c, pool, e))
  {
    SessionStepKeepsCovered(v, e.who);
    var (v1, user) := RequireStep(v, e.who);
    if user.Ok? {
      RemovalKeepsCovered(v1, ByIdAndOwner(e.id, user.value.sub), e.fails, e.save);
    }
  }

  lemma ServeKeepsCovered(v: Vpn, c: Config, pool: Pool, e: Event)
    requires pool.prefix.bits <= pool.prefix.width && Covered(v) && Serves(e)
    ensures Covered(Serve(v, c, pool, e))
  {
    match e
    case Login(_, _, _, _) =>
    case Callback(r) => CallbackKeepsCovered(v, c, r);
    case Peek(who) => SessionStepKeepsCovered(v, who);
    case Logout(who) => SessionStepKeepsCovered(v, who);
    case CreateMine(_, _, _, _) => CreateMineKeepsCovered(v, c, pool, e);
    case DeleteMine(_, _, _, _) => DeleteMineKeepsCovered(v, c, pool, e);
    case AdminCreate(name, key, cw) =>
      CreationKeepsCovered(pool, v, CreateRequest(name, key, CreateOptions("", "", 0, 0)), cw);
    case AdminDelete(id, fails, save) => RemovalKeepsCovered(v, ById(id), fails, save);
    case Reconcile(order, w) => if Enumerates(order, v.owners.m.Keys) { ReconciledKeepsCovered(v, order, w, c.group); }
  }

  lemma RestartKeepsInv(peers: Durable, owners: Disk<Table>, wiped: bool, readOk: bool, fails: set<nat>)
    requires Inv(Down(peers, owners))
    ensures Inv(Restarted(peers, owners, wiped, readOk, fails))
    ensures Restarted(peers, owners, wiped, readOk, fails).Up? ==>
              Restarted(peers, owners, wiped, readOk, fails).v.svc.peers == Stored(peers.disk.target)
    ensures Restarted(peers, owners, wiped, readOk, fails).Down? ==>
              Restarted(peers, owners, wiped, readOk, fails).peers.disk == peers.disk
  {
    var e := RestoreEffect(PeerRuns.Boot(peers, wiped), readOk, fails);
    assert forall x <- e.trace :: x.disk == peers.disk;
  }

  // ---------------------------------------------------------------- every disk on the way

  /** The disks show one of two states: the one before a save or the one after it. */
  predicate Between(v: Vpn, v': Vpn, d: Disks) {
    || (d.peers.disk.target == v.svc.durable.disk.target && d.owners.target == v.owners.disk.target)
    || (d.peers.disk.target == v'.svc.durable.disk.target && d.owners.target == v'.owners.disk.target)
  }

  /** A covered state that lists the given ownerless peer, if one is given. */
  ghost predicate CoveredWith(v: Vpn, p: Option<Peer>) {
    Covered(v) && (p.Some? ==> p.value.owner == "" && p.value in v.svc.peers)
  }

  ghost predicate DiskOk(d: Disks, p: Option<Peer>) {
    Inv(Dead(d)) && (p.Some? ==> Lists(Dead(d), p.value))
  }

  lemma SectionOk(v: Vpn, v': Vpn, trail: seq<Disks>, p: Option<Peer>)
    requires CoveredWith(v, p) && CoveredWith(v', p) && forall d <- trail :: Between(v, v', d)
    ensures forall d <- trail :: DiskOk(d, p)
  {
    DiskAloneIsCovered(v);
    DiskAloneIsCovered(v');
  }

  lemma CreateBetween(v: Vpn, pool: Pool, req: CreateRequest, w: CreateWorld)
    requires pool.prefix.bits <= pool.prefix.width
    ensures forall d <- CreateTrail(v, pool, req, w) ::
            Between(v, v.(svc := After(CreateEffect(pool, v.svc, req, w))), d)
  {
    PeerRuns.CreateTargets(pool, v.svc, req, w);
  }

  lemma RemoveBetween(v: Vpn, m: Match, fails: set<nat>, save: Outcome)
    ensures forall d <- RemoveTrail(v, m, fails, save) ::
            Between(v, v.(svc := After(RemoveEffect(v.svc, m, fails, save))), d)
  {
    PeerRuns.RemoveTargets(v.svc, m, fails, save);
  }

  lemma WriteBetween(v: Vpn, m: Table, save: Outcome)
    ensures forall d <- OwnersMove(v.svc.durable, WriteTrace(v.owners.disk, m, save)) ::
              Between(v, v.(owners := Written(v.owners, m, save)), d)
  {
  }

  lemma RemoveTrailOk(v: Vpn, m: Match, fails: set<nat>, save: Outcome, p: Option<Peer>)
    requires CoveredWith(v, p) && (p.Some? ==> !Matches(m, p.value))
    ensures CoveredWith(v.(svc := After(RemoveEffect(v.svc, m, fails, save))), p)
    ensures forall d <- RemoveTrail(v, m, fails, save) :: DiskOk(d, p)
  {
    RemovalKeepsCovered(v, m, fails, save);
    RemovalList(v.svc, m, fails, save);
    RemoveBetween(v, m, fails, save);
    SectionOk(v, v.(svc := After(RemoveEffect(v.svc, m, fails, save))), RemoveTrail(v, m, fails, save), p);
  }

  lemma CreateTrailOk(pool: Pool, v: Vpn, req: CreateRequest, w: CreateWorld, p: Option<Peer>)
    requires pool.prefix.bits <= pool.prefix.width && CoveredWith(v, p)
    requires if req.opt.owner == "" then req.opt.ttl <= 0 else Recorded(v.owners, req.opt.owner)
    ensures CoveredWith(v.(svc := After(CreateEffect(pool, v.svc, req, w))), p)
    ensures forall d <- CreateTrail(v, pool, req, w) :: DiskOk(d, p)
  {
    CreationKeepsCovered(pool, v, req, w);
    CreationList(pool, v.svc, req, w);
    CreateBetween(v, pool, req, w);
    SectionOk(v, v.(svc := After(CreateEffect(pool, v.svc, req, w))), CreateTrail(v, pool, req, w), p);
  }

  lemma SetTrailOk(v: Vpn, sub: string, name: string, token: string, save: Outcome, p: Option<Peer>)
    requires CoveredWith(v, p) && sub != ""
    ensures CoveredWith(v.(owners := SetRecord(v.owners, sub, name, token, save)), p)
    ensures forall d <- SetTrail(v, sub, name, token, save) :: DiskOk(d, p)
  {
    SetKeepsRecorded(v.owners, sub, name, token, save);
    CoverageMoves(v, SetRecord(v.owners, sub, name, token, save));
    WriteBetween(v, WithRecord(v.owners.m, sub, name, token), save);
    SectionOk(v, v.(owners := SetRecord(v.owners, sub, name, token, save)), SetTrail(v, sub, name, token, save), p);
  }

  /** Peers have gone and sessions go with the record, so a death in between leaves covered disks. */
  lemma DeleteTrailOk(v: Vpn, sub: string, save: Outcome, p: Option<Peer>)
    requires CoveredWith(v, p) && sub != "" && forall q <- v.svc.peers :: q.owner != sub
    ensures forall d <- DeleteTrail(v, sub, save) :: DiskOk(d, p)
  {
    var v' := v.(owners := DeleteRecord(v.owners, sub, save), sessions := RevokeSection(v.sessions, sub));
    DeleteKeepsOthers(v.owners, sub, save);
    assert PeersCovered(v'.svc.peers, v'.owners);
    WriteBetween(v, v.owners.m - {sub}, save);
    SectionOk(v, v', DeleteTrail(v, sub, save), p);
  }

  lemma RevokeTrailOk(v: Vpn, sub: string, w: World, p: Option<Peer>)
    requires CoveredWith(v, p) && sub != ""
    ensures forall d <- RevokeTrail(v, sub, w) :: DiskOk(d, p)
  {
    var m := ByOwner(sub);
    var e := RemoveEffect(v.svc, m, w.revokeFails(sub), w.revokeSave(sub));
    RemoveTrailOk(v, m, w.revokeFails(sub), w.revokeSave(sub), p);
    if e.result.error.None? {
      RemovalList(v.svc, m, w.revokeFails(sub), w.revokeSave(sub));
      DeleteTrailOk(v.(svc := After(e)), sub, w.deleteSave(sub), p);
    }
  }

  lemma RoundTrailOk(v: Vpn, sub: string, rec: OwnerRecord, w: World, group: string, p: Option<Peer>)
    requires CoveredWith(v, p) && sub != ""
    ensures forall d <- RoundTrail(v, sub, rec, w, group) :: DiskOk(d, p)
  {
    var token := Rotation(rec, w.reply(sub));
    if token.Some? {
      SetTrailOk(v, sub, rec.name, token.value, w.rotationSave(sub), p);
    }
    RevokeTrailOk(Refresh(v, sub, rec, w), sub, w, p);
  }

  lemma RoundsKeepWith(v: Vpn, snapshot: Table, order: seq<string>, w: World, group: string, p: Option<Peer>)
    requires CoveredWith(v, p) && "" !in snapshot && forall s <- order :: s in snapshot
    ensures CoveredWith(Rounds(v, snapshot, order, w, group), p)
  {
    RoundsKeepCovered(v, snapshot, order, w, group);
    if p.Some? {
      RoundsKeepAdminPeer(v, snapshot, order, w, group, p.value);
    }
  }

  lemma {:induction false} RoundsTrailOk(v: Vpn, snapshot: Table, order: seq<string>, w: World, group: string,
      p: Option<Peer>)
    requires CoveredWith(v, p) && "" !in snapshot && forall s <- order :: s in snapshot
    ensures forall d <- RoundsTrail(v, snapshot, order, w, group) :: DiskOk(d, p)
  {
    if order != [] {
      var before := order[..|order| - 1];
      RoundsTrailOk(v, snapshot, before, w, group, p);
      RoundsKeepWith(v, snapshot, before, w, group, p);
      RoundTrailOk(Rounds(v, snapshot, before, w, group), Last(order), snapshot[Last(order)], w, group, p);
    }
  }

  lemma PassTrailOk(v: Vpn, order: seq<string>, w: World, group: string, p: Option<Peer>)
    requires CoveredWith(v, p) && forall s <- order :: s in v.owners.m
    ensures forall d <- PassTrail(v, order, w, group) :: DiskOk(d, p)
  {
    RemoveTrailOk(v, Expired(w.now), w.expiryFails, w.expirySave, p);
    RoundsTrailOk(Expiring(v, w), v.owners.m, order, w, group, p);
  }

  lemma CallbackTrailOk(v: Vpn, c: Config, r: CallbackRequest, p: Option<Peer>)
    requires CoveredWith(v, p)
    ensures forall d <- CallbackTrail(v, c, r) :: DiskOk(d, p)
  {
    var vetted := Vet(TakeSection(v.pending, r.state).1, r.now, r.error, r.code, r.ex, c.group);
    if vetted.Ok? {
      SetTrailOk(v, vetted.value.sub, vetted.value.name, r.ex.refresh, r.save, p);
    }
  }

  lemma MineKeepsWith(v: Vpn, who: Caller, p: Option<Peer>)
    requires CoveredWith(v, p)
    ensures var (v1, user) := RequireStep(v, who);
            && CoveredWith(v1, p)
            && (user.Ok? ==> user.value.sub != "" && Recorded(v1.owners, user.value.sub))
  {
    SessionStepKeepsCovered(v, who);
  }

  lemma CreateMineTrailOk(
    v: Vpn, c: Config, pool: Pool, who: Caller, name: string, key: KeyInput, cw: CreateWorld, p: Option<Peer>)
    requires pool.prefix.bits <= pool.prefix.width && CoveredWith(v, p)
    ensures forall d <- CreateMineTrail(v, c, pool, who, name, key, cw) :: DiskOk(d, p)
  {
    MineKeepsWith(v, who, p);
    var (v1, user) := RequireStep(v, who);
    if user.Ok? {
      var opt := CreateOptions(user.value.sub, user.value.name, c.peerTTL, c.maxPeers);
      CreateTrailOk(pool, v1, CreateRequest(name, key, opt), cw, p);
    }
  }

  lemma DeleteMineTrailOk(v: Vpn, who: Caller, id: string, fails: set<nat>, save: Outcome, p: Option<Peer>)
    requires CoveredWith(v, p)
    ensures forall d <- DeleteMineTrail(v, who, id, fails, save) :: DiskOk(d, p)
  {
    MineKeepsWith(v, who, p);
    var (v1, user) := RequireStep(v, who);
    if user.Ok? {
      RemoveTrailOk(v1, ByIdAndOwner(id, user.value.sub), fails, save, p);
    }
  }

  /** Wherever a handler or a pass dies, the disks it leaves are covered and list the peer. */
  lemma TrailOk(v: Vpn, c: Config, pool: Pool, e: Event, p: Option<Peer>)
    requires pool.prefix.bits <= pool.prefix.width && Serves(e) && CoveredWith(v, p)
    requires p.Some? ==> !(e.AdminDelete? && e.id == p.value.id)
    ensures forall d <- Trail(v, c, pool, e) :: DiskOk(d, p)
  {
    match e
    case Callback(r) => CallbackTrailOk(v, c, r, p);
    case CreateMine(who, name, key, cw) => CreateMineTrailOk(v, c, pool, who, name, key, cw, p);
    case DeleteMine(who, id, fails, save) => DeleteMineTrailOk(v, who, id, fails, save, p);
    case AdminCreate(name, key, cw) =>
      CreateTrailOk(pool, v, CreateRequest(name, key, CreateOptions("", "", 0, 0)), cw, p);
    case AdminDelete(id, fails, save) => RemoveTrailOk(v, ById(id), fails, save, p);
    case Reconcile(order, w) => if Enumerates(order, v.owners.m.Keys) { PassTrailOk(v, order, w, c.group, p); }
    case _ =>
  }

  lemma DeathOk(v: Vpn, c: Config, pool: Pool, e: Event, at: nat, p: Option<Peer>)
    requires pool.prefix.bits <= pool.prefix.width && Serves(e) && CoveredWith(v, p)
    requires p.Some? ==> !(e.AdminDelete? && e.id == p.value.id)
    ensures DiskOk(PeerRuns.Pick([Here(v)] + Trail(v, c, pool, e), at), p)
  {
    TrailOk(v, c, pool, e, p);
    SectionOk(v, v, [Here(v)], p);
    assert [Here(v)][0] == Here(v);
    var d := PeerRuns.Pick([Here(v)] + Trail(v, c, pool, e), at);
    assert d in [Here(v)] || d in Trail(v, c, pool, e);
  }

  // ---------------------------------------------------------------- the trail ends where the step does

  predicate Ends(v: Vpn, trail: seq<Disks>, v': Vpn) {
    (if trail == [] then Here(v) else Last(trail)) == Here(v')
  }

  lemma EndsConcat(v: Vpn, a: seq<Disks>, v': Vpn, b: seq<Disks>, v'': Vpn)
    requires Ends(v, a, v') && Ends(v', b, v'')
    ensures Ends(v, a + b, v'')
  {
    assert b == [] ==> a + b == a;
  }

  lemma RevokeEnds(v: Vpn, sub: string, w: World)
    ensures Ends(v, RevokeTrail(v, sub, w), Revoked(v, sub, w))
  {
    var e := RemoveEffect(v.svc, ByOwner(sub), w.revokeFails(sub), w.revokeSave(sub));
    var swept := v.(svc := After(e));
    var removal := RemoveTrail(v, ByOwner(sub), w.revokeFails(sub), w.revokeSave(sub));
    assert Ends(v, removal, swept);
    EndsConcat(v, removal, swept, if e.result.error.Some? then [] else DeleteTrail(swept, sub, w.deleteSave(sub)),
               Revoked(v, sub, w));
  }

  lemma RoundEnds(v: Vpn, sub: string, rec: OwnerRecord, w: World, group: string)
    ensures Ends(v, RoundTrail(v, sub, rec, w, group), Round(v, sub, rec, w, group))
  {
    if rec.refreshToken != "" && OwnedCount(v.svc.peers, sub) > 0 {
      var token, v1 := Rotation(rec, w.reply(sub)), Refresh(v, sub, rec, w);
      var refresh := if token.Some? then SetTrail(v, sub, rec.name, token.value, w.rotationSave(sub)) else [];
      assert Ends(v, refresh, v1);
      RevokeEnds(v1, sub, w);
      EndsConcat(v, refresh, v1, if StillAllowed(w.reply(sub), group) then [] else RevokeTrail(v1, sub, w),
                 Round(v, sub, rec, w, group));
    }
  }

  lemma {:induction false} RoundsEnd(v: Vpn, snapshot: Table, order: seq<string>, w: World, group: string)
    requires forall s <- order :: s in snapshot
    ensures Ends(v, RoundsTrail(v, snapshot, order, w, group), Rounds(v, snapshot, order, w, group))
  {
    if order != [] {
      var before := order[..|order| - 1];
      var v1 := Rounds(v, snapshot, before, w, group);
      RoundsEnd(v, snapshot, before, w, group);
      RoundEnds(v1, Last(order), snapshot[Last(order)], w, group);
      EndsConcat(v, RoundsTrail(v, snapshot, before, w, group), v1,
                 RoundTrail(v1, Last(order), snapshot[Last(order)], w, group), Rounds(v, snapshot, order, w, group));
    }
  }

  lemma PassEnds(v: Vpn, order: seq<string>, w: World, group: string)
    requires forall s <- order :: s in v.owners.m
    ensures Ends(v, PassTrail(v, order, w, group), Reconciled(v, order, w, group))
  {
    RoundsEnd(Expiring(v, w), v.owners.m, order, w, group);
    assert Ends(v, RemoveTrail(v, Expired(w.now), w.expiryFails, w.expirySave), Expiring(v, w));
    EndsConcat(v, RemoveTrail(v, Expired(w.now), w.expiryFails, w.expirySave), Expiring(v, w),
               RoundsTrail(Expiring(v, w), v.owners.m, order, w, group), Reconciled(v, order, w, group));
  }

  lemma CallbackEnds(v: Vpn, c: Config, r: CallbackRequest)
    ensures Ends(v, CallbackTrail(v, c, r), CallbackStep(v, c, r).0)
  {
  }

  lemma MineEnds(v: Vpn, c: Config, pool: Pool, e: Event)
    requires pool.prefix.bits <= pool.prefix.width && (e.CreateMine? || e.DeleteMine?)
    ensures Ends(v, Trail(v, c, pool, e), Serve(v, c, pool, e))
  {
    var v1 := RequireStep(v, e.who).0;
    assert Here(v1) == Here(v);
  }

  /** A handler or a pass that does not die ends on the last disks of its trail. */
  lemma TrailEnds(v: Vpn, c: Config, pool: Pool, e: Event)
    requires pool.prefix.bits <= pool.prefix.width && Serves(e)
    ensures Ends(v, Trail(v, c, pool, e), Serve(v, c, pool, e))
  {
    match e
    case Callback(r) => CallbackEnds(v, c, r);
    case CreateMine(_, _, _, _) => MineEnds(v, c, pool, e);
    case DeleteMine(_, _, _, _) => MineEnds(v, c, pool, e);
    case Reconcile(order, w) => if Enumerates(order, v.owners.m.Keys) { PassEnds(v, order, w, c.group); }
    case _ =>
  }

  lemma StartingKeepsInv(peers: Durable, owners: Disk<Table>, e: Event)
    requires Inv(Down(peers, owners)) && (e.Restart? || e.DieStarting?)
    ensures Inv(Starting(peers, owners, e))
    ensures forall p: Peer | Lists(Down(peers, owners), p) :: Lists(Starting(peers, owners, e), p)
  {
    if e.Restart? {
      RestartKeepsInv(peers, owners, e.wiped, e.readOk, e.fails);
    } else {
      var t := RestoreEffect(PeerRuns.Boot(peers, e.wiped), e.readOk, e.fails).trace;
      assert forall x <- t :: x.disk == peers.disk;
    }
  }

  lemma StepKeepsInv(s: Server, c: Config, pool: Pool, e: Event)
    requires pool.prefix.bits <= pool.prefix.width && Inv(s)
    ensures Inv(Step(s, c, pool, e))
  {
    match s
    case Up(v) =>
      if Serves(e) {
        ServeKeepsCovered(v, c, pool, e);
      } else if e.DieIn? {
        if Serves(e.op) {
          DeathOk(v, c, pool, e.op, e.at, None);
        }
      } else {
        DiskAloneIsCovered(v);
        StartingKeepsInv(v.svc.durable, v.owners.disk, e);
      }
    case Down(peers, owners) =>
      if !Serves(e) && !e.DieIn? {
        StartingKeepsInv(peers, owners, e);
      }
  }

  lemma DiskAloneIsCovered(v: Vpn)
    requires Covered(v)
    ensures Inv(Down(v.svc.durable, v.owners.disk))
  {
  }

  lemma {:induction false} RunKeepsInv(c: Config, pool: Pool, events: seq<Event>)
    requires pool.prefix.bits <= pool.prefix.width
    ensures Inv(Run(c, pool, events))
  {
    if events != [] {
      RunKeepsInv(c, pool, events[..|events| - 1]);
      StepKeepsInv(Run(c, pool, events[..|events| - 1]), c, pool, Last(events));
    }
  }

  /**
   Every live session and every peer with an owner has an owner record in memory and on
   disk, despite failed owner saves and early returns from a revocation.
   */
  lemma OwnersAlwaysRecorded(c: Config, pool: Pool, events: seq<Event>)
    requires pool.prefix.bits <= pool.prefix.width && Run(c, pool, events).Up?
    ensures var v := Run(c, pool, events).v;
            && (forall id <- v.sessions :: v.sessions[id].user.sub in v.owners.m
                                          && v.sessions[id].user.sub in StoredTable(v.owners.disk.target))
            && (forall p <- v.svc.peers | p.owner != "" ::
                  p.owner in v.owners.m && p.owner in StoredTable(v.owners.disk.target))
            && "" !in v.owners.m && forall id <- v.sessions :: v.sessions[id].user.sub != ""
  {
    RunKeepsInv(c, pool, events);
  }

  /** The same on the disks of a dead process, wherever it died. */
  lemma OwnersRecordedOnDisk(c: Config, pool: Pool, events: seq<Event>)
    requires pool.prefix.bits <= pool.prefix.width && Run(c, pool, events).Down?
    ensures var s := Run(c, pool, events);
            && !s.owners.target.Torn? && !s.peers.disk.target.Torn? && "" !in StoredTable(s.owners.target)
            && forall p <- Stored(s.peers.disk.target) | p.owner != "" :: p.owner in StoredTable(s.owners.target)
  {
    RunKeepsInv(c, pool, events);
  }

  // ---------------------------------------------------------------- admin-created peers

  ghost predicate Lists(s: Server, p: Peer) {
    p in (if s.Up? then s.v.svc.peers else Stored(s.peers.disk.target))
  }

  lemma RevokedKeepsAdminPeer(v: Vpn, sub: string, w: World, p: Peer)
    requires Covered(v) && sub != "" && p in v.svc.peers && p.owner == ""
    ensures p in Revoked(v, sub, w).svc.peers
  {
    RemovalList(v.svc, ByOwner(sub), w.revokeFails(sub), w.revokeSave(sub));
  }

  lemma {:induction false} RoundsKeepAdminPeer(v: Vpn, snapshot: Table, order: seq<string>, w: World, group: string,
      p: Peer)
    requires Covered(v) && "" !in snapshot && forall s <- order :: s in snapshot
    requires p in v.svc.peers && p.owner == ""
    ensures p in Rounds(v, snapshot, order, w, group).svc.peers
  {
    if order != [] {
      var before := Rounds(v, snapshot, order[..|order| - 1], w, group);
      var sub := Last(order);
      RoundsKeepAdminPeer(v, snapshot, order[..|order| - 1], w, group, p);
      RoundsKeepCovered(v, snapshot, order[..|order| - 1], w, group);
      RefreshKeepsCovered(before, sub, snapshot[sub], w);
      RevokedKeepsAdminPeer(Refresh(before, sub, snapshot[sub], w), sub, w, p);
    }
  }

  lemma PassKeepsAdminPeer(v: Vpn, order: seq<string>, w: World, group: string, p: Peer)
    requires CoveredWith(v, Some(p)) && forall s <- order :: s in v.owners.m
    ensures p in Reconciled(v, order, w, group).svc.peers
  {
    RemoveTrailOk(v, Expired(w.now), w.expiryFails, w.expirySave, Some(p));
    RoundsKeepAdminPeer(Expiring(v, w), v.owners.m, order, w, group, p);
  }

  lemma MineKeepsAdminPeer(v: Vpn, c: Config, pool: Pool, e: Event, p: Peer)
    requires pool.prefix.bits <= pool.prefix.width && CoveredWith(v, Some(p)) && (e.CreateMine? || e.DeleteMine?)
    ensures p in Serve(v, c, pool, e).svc.peers
  {
    MineKeepsWith(v, e.who, Some(p));
    var (v1, user) := RequireStep(v, e.who);
    if user.Ok? {
      if e.CreateMine? {
        var opt := CreateOptions(user.value.sub, user.value.name, c.peerTTL, c.maxPeers);
        CreationList(pool, v1.svc, CreateRequest(e.name, e.key, opt), e.cw);
      } else {
        RemovalList(v1.svc, ByIdAndOwner(e.id, user.value.sub), e.fails, e.save);
      }
    }
  }

  lemma ServeKeepsAdminPeer(v: Vpn, c: Config, pool: Pool, e: Event, p: Peer)
    requires pool.prefix.bits <= pool.prefix.width && CoveredWith(v, Some(p)) && Serves(e)
    requires !(e.AdminDelete? && e.id == p.id)
    ensures p in Serve(v, c, pool, e).svc.peers
  {
    match e
    case CreateMine(_, _, _, _) => MineKeepsAdminPeer(v, c, pool, e, p);
    case DeleteMine(_, _, _, _) => MineKeepsAdminPeer(v, c, pool, e, p);
    case AdminCreate(name, key, cw) =>
      CreationList(pool, v.svc, CreateRequest(name, key, CreateOptions("", "", 0, 0)), cw);
    case AdminDelete(id, fails, save) => RemovalList(v.svc, ById(id), fails, save);
    case Reconcile(order, w) =>
      if Enumerates(order, v.owners.m.Keys) {
        PassKeepsAdminPeer(v, order, w, c.group, p);
      }
    case _ =>
  }

  /** The event, or the handler it dies in, is the admin's delete of this id. */
  predicate Deletes(e: Event, id: string) {
    || (e.AdminDelete? && e.id == id)
    || (e.DieIn? && e.op.AdminDelete? && e.op.id == id)
  }

  lemma StepKeepsAdminPeer(s: Server, c: Config, pool: Pool, e: Event, p: Peer)
    requires pool.prefix.bits <= pool.prefix.width && Inv(s)
    requires Lists(s, p) && p.owner == "" && !Deletes(e, p.id)
    ensures Lists(Step(s, c, pool, e), p)
  {
    match s
    case Up(v) =>
      if Serves(e) {
        ServeKeepsAdminPeer(v, c, pool, e, p);
      } else if e.DieIn? {
        if Serves(e.op) {
          DeathOk(v, c, pool, e.op, e.at, Some(p));
        }
      } else {
        DiskAloneIsCovered(v);
        StartingKeepsInv(v.svc.durable, v.owners.disk, e);
      }
    case Down(peers, owners) =>
      if !Serves(e) && !e.DieIn? {
        StartingKeepsInv(peers, owners, e);
      }
  }

  /** A peer without an owner, at any point of a run, stays until an admin deletes its id. */
  lemma {:induction false} AdminPeersStay(c: Config, pool: Pool, events: seq<Event>, more: seq<Event>, p: Peer)
    requires pool.prefix.bits <= pool.prefix.width
    requires Lists(Run(c, pool, events), p) && p.owner == ""
    requires forall e <- more :: !Deletes(e, p.id)
    ensures Lists(Run(c, pool, events + more), p) && p.expiresAt.None?
  {
    RunKeepsInv(c, pool, events);
    if more == [] {
      assert events + more == events;
    } else {
      var shorter, last := more[..|more| - 1], Last(more);
      AdminPeersStay(c, pool, events, shorter, p);
      RunKeepsInv(c, pool, events + shorter);
      assert last in more;
      StepKeepsAdminPeer(Run(c, pool, events + shorter), c, pool, last, p);
      assert events + more == (events + shorter) + [last];
      assert ((events + shorter) + [last])[..|events + shorter|] == events + shorter;
    }
  }
}

/**
 Whole runs of the peer service: any sequence of locked operations, with failing backend
 calls and saves, deaths of the process between any two durable steps, and restarts.
 */
module PeerRuns {
  import opened Wrappers
  import opened FiniteSets
  import opened AtomicFiles
  import opened AddressPool
  import opened PeerService

  datatype Op = Create(req: CreateRequest, w: CreateWorld) | Remove(m: Match, fails: set<nat>, save: Outcome)

  /** `wiped` says that the backend lost its peers before the start, as after a reboot. */
  datatype Event =
    | Do(op: Op)
    | DieIn(op: Op, at: nat)
    | Start(wiped: bool, readOk: bool, fails: set<nat>)
    | DieStarting(wiped: bool, readOk: bool, fails: set<nat>, at: nat)

  datatype Sys = Sys(up: bool, st: State)

  function OpTrace(pool: Pool, st: State, op: Op): (t: seq<Durable>)
    requires pool.prefix.bits <= pool.prefix.width
    ensures t != [] && t[0] == st.durable
  {
    match op
    case Create(req, w) => CreateEffect(pool, st, req, w).trace
    case Remove(m, fails, save) => RemoveEffect(st, m, fails, save).trace
  }

  function Perform(pool: Pool, st: State, op: Op): State
    requires pool.prefix.bits <= pool.prefix.width
  {
    match op
    case Create(req, w) => After(CreateEffect(pool, st, req, w))
    case Remove(m, fails, save) => After(RemoveEffect(st, m, fails, save))
  }

  function Boot(d: Durable, wiped: bool): Durable {
    if wiped then d.(backend := map[]) else d
  }

  function Pick<T>(s: seq<T>, at: nat): (x: T)
    requires s != []
    ensures x in s
  {
    if at < |s| then s[at] else Last(s)
  }

  function Step(pool: Pool, s: Sys, e: Event): Sys
    requires pool.prefix.bits <= pool.prefix.width
  {
    match e
    case Do(op) => if s.up then Sys(true, Perform(pool, s.st, op)) else s
    case DieIn(op, at) => if s.up then Sys(false, State([], Pick(OpTrace(pool, s.st, op), at))) else s
    case Start(wiped, readOk, fails) =>
      if s.up then s else
      var r := RestoreEffect(Boot(s.st.durable, wiped), readOk, fails);
      if r.result.None? then Sys(true, After(r)) else Sys(false, State([], Last(r.trace)))
    case DieStarting(wiped, readOk, fails, at) =>
      if s.up then s else
      Sys(false, State([], Pick(RestoreEffect(Boot(s.st.durable, wiped), readOk, fails).trace, at)))
  }

  const INITIAL := Sys(true, State([], Durable(Disk(Absent, Absent), map[])))

  function Run(pool: Pool, events: seq<Event>): Sys
    requires pool.prefix.bits <= pool.prefix.width
  {
    if events == [] then INITIAL
    else Step(pool, Run(pool, events[..|events| - 1]), Last(events))
  }

  // ---------------------------------------------------------------- the invariant

  ghost predicate DistinctKeys(peers: seq<Peer>) {
    forall i, j :: 0 <= i < j < |peers| ==> peers[i].publicKey != peers[j].publicKey
  }

  ghost predicate DistinctAddresses(peers: seq<Peer>) {
    forall i, j :: 0 <= i < j < |peers| ==> peers[i].address != peers[j].address
  }

  ghost predicate InPool(pool: Pool, peers: seq<Peer>)
    requires pool.prefix.bits <= pool.prefix.width
  {
    forall p <- peers :: p.address.Addr? && pool.Assignable(p.address.a)
  }

  /** Keys and addresses are pairwise distinct, addresses lie between server and broadcast. */
  ghost predicate Sane(pool: Pool, peers: seq<Peer>)
    requires pool.prefix.bits <= pool.prefix.width
  {
    DistinctKeys(peers) && DistinctAddresses(peers) && InPool(pool, peers)
  }

  ghost predicate Inv(pool: Pool, s: Sys)
    requires pool.prefix.bits <= pool.prefix.width
  {
    && !s.st.durable.disk.target.Torn?
    && (s.up ==> s.st.peers == Stored(s.st.durable.disk.target))
    && Sane(pool, Stored(s.st.durable.disk.target))
  }

  // ---------------------------------------------------------------- lists under removal

  lemma {:induction false} KeptMembers(peers: seq<Peer>, m: Match, fails: set<nat>, n: nat)
    requires n <= |peers|
    ensures forall p <- Kept(peers, m, fails, n) :: exists i :: 0 <= i < n && peers[i] == p && !Gone(peers, m, fails, i)
    ensures forall i :: 0 <= i < n && !Gone(peers, m, fails, i) ==> peers[i] in Kept(peers, m, fails, n)
  {
    if n > 0 {
      KeptMembers(peers, m, fails, n - 1);
      var rest := Kept(peers, m, fails, n - 1);
      forall p <- Kept(peers, m, fails, n)
        ensures exists i :: 0 <= i < n && peers[i] == p && !Gone(peers, m, fails, i)
      {
        if p in rest {
          var i :| 0 <= i < n - 1 && peers[i] == p && !Gone(peers, m, fails, i);
        } else {
          assert peers[n - 1] == p && !Gone(peers, m, fails, n - 1);
        }
      }
    }
  }

  lemma {:induction false} KeptSane(pool: Pool, peers: seq<Peer>, m: Match, fails: set<nat>, n: nat)
    requires pool.prefix.bits <= pool.prefix.width
    requires Sane(pool, peers) && n <= |peers|
    ensures Sane(pool, Kept(peers, m, fails, n))
  {
    if n > 0 {
      KeptSane(pool, peers, m, fails, n - 1);
      KeptMembers(peers, m, fails, n - 1);
      var rest := Kept(peers, m, fails, n - 1);
      forall k | 0 <= k < |rest|
        ensures rest[k].publicKey != peers[n - 1].publicKey && rest[k].address != peers[n - 1].address
      {
        assert rest[k] in rest;
        var i :| 0 <= i < n - 1 && peers[i] == rest[k];
      }
    }
  }

  lemma AppendSane(pool: Pool, peers: seq<Peer>, p: Peer)
    requires pool.prefix.bits <= pool.prefix.width
    requires Sane(pool, peers)
    requires p.address.Addr? && pool.Assignable(p.address.a) && p.address.a !in Addresses(peers)
    requires forall q <- peers :: q.publicKey != p.publicKey
    ensures Sane(pool, peers + [p])
  {
    forall k | 0 <= k < |peers| ensures peers[k].publicKey != p.publicKey && peers[k].address != p.address {
      assert peers[k] in peers;
    }
  }

  // ---------------------------------------------------------------- one operation

  lemma AdmittedIsFree(pool: Pool, peers: seq<Peer>, key: Key, opt: CreateOptions)
    requires pool.prefix.bits <= pool.prefix.width
    ensures var r := Admit(pool, peers, key, opt);
            r.Ok? ==> && pool.Assignable(r.value) && r.value !in Addresses(peers)
                      && (forall q <- peers :: q.publicKey != key)
                      && (forall x: nat | pool.Assignable(x) && x < r.value :: x in Addresses(peers))
  {
  }

  /** What one create can leave: the old list, or the old list and one more sane peer. */
  lemma CreateOutcome(pool: Pool, st: State, req: CreateRequest, w: CreateWorld)
    requires pool.prefix.bits <= pool.prefix.width && Sane(pool, st.peers)
    ensures var e := CreateEffect(pool, st, req, w);
            && (e.result.Err? ==> e.peers == st.peers && Last(e.trace).disk.target == st.durable.disk.target)
            && (e.result.Ok? ==> e.peers == st.peers + [e.result.value] && Last(e.trace).disk.target == Whole(e.peers)
                                 && Sane(pool, e.peers))
            && forall k | 0 <= k < |e.trace| ::
                e.trace[k].disk.target in {st.durable.disk.target, Last(e.trace).disk.target}
  {
    var key := ResolveKey(req.key);
    if key.Ok? {
      AdmittedIsFree(pool, st.peers, key.value, req.opt);
      var a := Admit(pool, st.peers, key.value, req.opt);
      if a.Ok? && w.id.Some? {
        AppendSane(pool, st.peers, NewPeer(req, key.value, a.value, w));
      }
    }
  }

  /** Every durable state of an operation holds the file from before or from after it. */
  lemma CreateTargets(pool: Pool, st: State, req: CreateRequest, w: CreateWorld)
    requires pool.prefix.bits <= pool.prefix.width
    ensures var t := CreateEffect(pool, st, req, w).trace;
            forall k | 0 <= k < |t| :: t[k].disk.target in {st.durable.disk.target, Last(t).disk.target}
  {
  }

  lemma RemoveTargets(st: State, m: Match, fails: set<nat>, save: Outcome)
    ensures var t := RemoveEffect(st, m, fails, save).trace;
            forall k | 0 <= k < |t| :: t[k].disk.target in {st.durable.disk.target, Last(t).disk.target}
  {
  }

  lemma RemoveOutcome(pool: Pool, st: State, m: Match, fails: set<nat>, save: Outcome)
    requires pool.prefix.bits <= pool.prefix.width && Sane(pool, st.peers)
    ensures var e := RemoveEffect(st, m, fails, save);
            && Sane(pool, e.peers)
            && ((e.peers == st.peers && Last(e.trace).disk.target == st.durable.disk.target)
                || Last(e.trace).disk.target == Whole(e.peers))
            && forall k | 0 <= k < |e.trace| ::
                e.trace[k].disk.target in {st.durable.disk.target, Last(e.trace).disk.target}
  {
    KeptSane(pool, st.peers, m, fails, |st.peers|);
  }

  lemma PerformKeepsInv(pool: Pool, st: State, op: Op, at: nat)
    requires pool.prefix.bits <= pool.prefix.width && Inv(pool, Sys(true, st))
    ensures Inv(pool, Sys(true, Perform(pool, st, op)))
    ensures Inv(pool, Sys(false, State([], Pick(OpTrace(pool, st, op), at))))
    ensures Pick(OpTrace(pool, st, op), at).disk.target in
              {st.durable.disk.target, Perform(pool, st, op).durable.disk.target}
  {
    match op
    case Create(req, w) => CreateOutcome(pool, st, req, w);
    case Remove(m, fails, save) => RemoveOutcome(pool, st, m, fails, save);
  }

  lemma StartKeepsInv(pool: Pool, d: Durable, readOk: bool, fails: set<nat>)
    requires pool.prefix.bits <= pool.prefix.width && Inv(pool, Sys(false, State([], d)))
    ensures forall x <- RestoreEffect(d, readOk, fails).trace :: x.disk == d.disk
    ensures RestoreEffect(d, readOk, fails).result.None? ==>
              RestoreEffect(d, readOk, fails).peers == Stored(d.disk.target)
  {
  }

  lemma StepKeepsInv(pool: Pool, s: Sys, e: Event)
    requires pool.prefix.bits <= pool.prefix.width && Inv(pool, s)
    ensures Inv(pool, Step(pool, s, e))
  {
    match e
    case Do(op) => if s.up { PerformKeepsInv(pool, s.st, op, 0); }
    case DieIn(op, at) => if s.up { PerformKeepsInv(pool, s.st, op, at); }
    case Start(wiped, readOk, fails) => if !s.up { StartKeepsInv(pool, Boot(s.st.durable, wiped), readOk, fails); }
    case DieStarting(wiped, readOk, fails, _) =>
        if !s.up { StartKeepsInv(pool, Boot(s.st.durable, wiped), readOk, fails); }
  }

  /**
   Over every run the stored list is complete, the list in memory equals it, keys and
   addresses are pairwise distinct and every address lies between server and broadcast.
   */
  lemma {:induction false} RunKeepsInv(pool: Pool, events: seq<Event>)
    requires pool.prefix.bits <= pool.prefix.width
    ensures Inv(pool, Run(pool, events))
  {
    if events != [] {
      RunKeepsInv(pool, events[..|events| - 1]);
      StepKeepsInv(pool, Run(pool, events[..|events| - 1]), Last(events));
    }
  }

  // ---------------------------------------------------------------- crashes

  /** A start that meets no error shows the stored list, and has it in the backend. */
  lemma StartSucceeds(pool: Pool, d: Durable, wiped: bool)
    requires pool.prefix.bits <= pool.prefix.width && Inv(pool, Sys(false, State([], d)))
    ensures var again := Step(pool, Sys(false, State([], d)), Start(wiped, true, {}));
            && again.up
            && again.st.peers == Stored(d.disk.target)
            && InBackend(again.st)
  {
    RestoreSucceeds(pool, Boot(d, wiped));
    var ps := Stored(d.disk.target);
    assert forall j | 0 <= j < |ps| :: ps[j] in ps;
    ReapplyIsTable(Boot(d, wiped).backend, ps, |ps|);
  }

  lemma ListedAddresses(pool: Pool, ps: seq<Peer>)
    requires pool.prefix.bits <= pool.prefix.width && InPool(pool, ps)
    ensures forall j | 0 <= j < |ps| :: !ps[j].address.Garbled?
  {
    assert forall j | 0 <= j < |ps| :: ps[j] in ps;
  }

  lemma RestoreSucceeds(pool: Pool, d: Durable)
    requires pool.prefix.bits <= pool.prefix.width && Inv(pool, Sys(false, State([], d)))
    ensures var e, ps := RestoreEffect(d, true, {}), Stored(d.disk.target);
            && e.result.None? && e.peers == ps
            && (forall j | 0 <= j < |ps| :: !ps[j].address.Garbled?)
            && Last(e.trace) == d.(backend := Reapply(d.backend, ps, |ps|))
  {
    ListedAddresses(pool, Stored(d.disk.target));
    AllApply(pool, Stored(d.disk.target));
  }

  ghost predicate InBackend(st: State) {
    forall i :: 0 <= i < |st.peers| ==>
      && st.peers[i].publicKey in st.durable.backend
      && st.peers[i].address == st.durable.backend[st.peers[i].publicKey]
  }

  /**
   However the process dies inside an operation, the next successful start shows the list
   from before the operation or the list the operation would have left, nothing else,
   and every peer of that list is in the backend.
   */
  lemma RestartLosesNothing(pool: Pool, events: seq<Event>, op: Op, at: nat, wiped: bool)
    requires pool.prefix.bits <= pool.prefix.width && Run(pool, events).up
    ensures var before := Run(pool, events).st;
            var again := Step(pool, Run(pool, events + [DieIn(op, at)]), Start(wiped, true, {}));
            && again.up
            && (again.st.peers == before.peers || again.st.peers == Perform(pool, before, op).peers)
            && InBackend(again.st)
  {
    var s := Run(pool, events);
    RunKeepsInv(pool, events);
    PerformKeepsInv(pool, s.st, op, at);
    assert (events + [DieIn(op, at)])[..|events|] == events;
    StartSucceeds(pool, Pick(OpTrace(pool, s.st, op), at), wiped);
  }

  lemma AllApply(pool: Pool, ps: seq<Peer>)
    requires pool.prefix.bits <= pool.prefix.width && InPool(pool, ps)
    ensures StopAt(ps, {}, 0) == |ps|
  {
    forall j | 0 <= j < |ps| ensures Applies(ps, {}, j) {
      assert ps[j] in ps;
    }
  }

  /** After re-applying, the listed peers are in and everything else is as it was. */
  lemma {:induction false} ReapplyIsTable(b: map<Key, Address>, ps: seq<Peer>, n: nat)
    requires n <= |ps| && DistinctKeys(ps) && forall j | 0 <= j < |ps| :: !ps[j].address.Garbled?
    ensures forall j | 0 <= j < n ::
              ps[j].publicKey in Reapply(b, ps, n) && Reapply(b, ps, n)[ps[j].publicKey] == ps[j].address
    ensures forall k | k in Reapply(b, ps, n) ::
              (exists j :: 0 <= j < n && ps[j].publicKey == k) || (k in b && Reapply(b, ps, n)[k] == b[k])
    ensures forall k | k in b :: k in Reapply(b, ps, n)
  {
    if n > 0 {
      ReapplyIsTable(b, ps, n - 1);
      var r := Reapply(b, ps, n - 1);
      forall k | k in Reapply(b, ps, n)
        ensures (exists j :: 0 <= j < n && ps[j].publicKey == k) || (k in b && Reapply(b, ps, n)[k] == b[k])
      {
        if k == ps[n - 1].publicKey {
        } else if exists j :: 0 <= j < n - 1 && ps[j].publicKey == k {
          var j :| 0 <= j < n - 1 && ps[j].publicKey == k;
        }
      }
    }
  }

  // ---------------------------------------------------------------- the backend as a shadow

  /** Every backend entry is a listed peer with the same address. */
  ghost predicate Shadows(backend: map<Key, Address>, peers: seq<Peer>) {
    forall k | k in backend ::
      exists i :: 0 <= i < |peers| && peers[i].publicKey == k && peers[i].address == backend[k]
  }

  ghost predicate Shadowed(st: State) {
    Shadows(st.durable.backend, st.peers)
  }

  ghost function Lacks(backend: map<Key, Address>, peers: seq<Peer>): set<Key> {
    set p | p in peers && p.publicKey !in backend :: p.publicKey
  }

  /** The listed keys that the backend lacks. */
  ghost function Missing(st: State): set<Key> {
    Lacks(st.durable.backend, st.peers)
  }

  /** The keys removed by one removal. */
  ghost function Removed(st: State, m: Match, fails: set<nat>): set<Key> {
    GoneKeys(st.peers, m, fails, |st.peers|)
  }

  /** With nothing missing, the backend is the list read as a table. */
  lemma NothingMissingIsEqual(st: State)
    requires Shadowed(st) && DistinctKeys(st.peers)
    ensures Missing(st) == {} <==> InBackend(st)
  {
    if Missing(st) == {} {
      forall i | 0 <= i < |st.peers|
        ensures st.peers[i].publicKey in st.durable.backend
                && st.peers[i].address == st.durable.backend[st.peers[i].publicKey]
      {
        assert st.peers[i] in st.peers;
        assert st.peers[i].publicKey !in Missing(st);
        var j :| 0 <= j < |st.peers| && st.peers[j].publicKey == st.peers[i].publicKey
                 && st.peers[j].address == st.durable.backend[st.peers[i].publicKey];
      }
    }
  }

  /** A create leaves a stray backend entry exactly when its rollback fails. */
  lemma StrayIffRollbackFails(pool: Pool, st: State, req: CreateRequest, w: CreateWorld)
    requires pool.prefix.bits <= pool.prefix.width && Shadowed(st)
    ensures var e := CreateEffect(pool, st, req, w);
            && (Shadowed(After(e)) <==> !(e.result == Err(SaveFailed) && !w.rollbackOk))
            && (e.result.Err? && Shadowed(After(e)) ==> After(e).durable.backend == st.durable.backend)
            && (e.result.Ok? ==> Missing(After(e)) == Missing(st))
  {
    var e := CreateEffect(pool, st, req, w);
    var key := ResolveKey(req.key);
    if key.Ok? {
      AdmittedIsFree(pool, st.peers, key.value, req.opt);
      var b := st.durable.backend;
      var admitted := Admit(pool, st.peers, key.value, req.opt);
      if admitted.Ok? && w.id.Some? && w.addOk && ValidName(TrimSpace(req.name)) {
        var a := admitted.value;
        forall i | 0 <= i < |st.peers| ensures st.peers[i].publicKey != key.value {
          assert st.peers[i] in st.peers;
        }
        assert key.value !in b;
        assert b[key.value := Addr(a)] - {key.value} == b;
        if w.save.Done? {
          ShadowGrows(st, After(e), key.value, Addr(a));
        } else if !w.rollbackOk {
          assert key.value in After(e).durable.backend;
        }
      }
    }
  }

  lemma ShadowGrows(st: State, st': State, key: Key, a: Address)
    requires Shadowed(st) && |st'.peers| == |st.peers| + 1 && st'.peers[..|st.peers|] == st.peers
    requires Last(st'.peers).publicKey == key && Last(st'.peers).address == a
    requires st'.durable.backend == st.durable.backend[key := a]
    requires forall p <- st.peers :: p.publicKey != key
    ensures Shadowed(st') && Missing(st') == Missing(st)
  {
    forall k | k in st'.durable.backend
      ensures exists i ::
                0 <= i < |st'.peers| && st'.peers[i].publicKey == k && st'.peers[i].address == st'.durable.backend[k]
    {
      if k == key {
        assert st'.peers[|st.peers|].publicKey == k;
      } else {
        var i :| 0 <= i < |st.peers| && st.peers[i].publicKey == k && st.peers[i].address == st.durable.backend[k];
        assert st'.peers[i] == st.peers[i];
      }
    }
    assert st'.peers == st.peers + [Last(st'.peers)];
  }

  /** What one removal leaves: the backend without the removed keys, and one of two lists. */
  lemma RemoveLeaves(st: State, m: Match, fails: set<nat>, save: Outcome)
    ensures var e := RemoveEffect(st, m, fails, save);
            && After(e).durable.backend == st.durable.backend - Removed(st, m, fails)
            && After(e).peers == if e.result.error == Some(SaveFailed) then st.peers
                else Kept(st.peers, m, fails, |st.peers|)
  {
    NothingGone(st.peers, m, fails, |st.peers|);
  }

  /**
   A removal never strays.  When it is saved the removed keys leave `Missing`; when its
   save fails they join it, and nothing else changes.
   */
  lemma RemovalMovesMissing(st: State, m: Match, fails: set<nat>, save: Outcome)
    requires Shadowed(st) && DistinctKeys(st.peers)
    ensures var e := RemoveEffect(st, m, fails, save);
            && Shadowed(After(e))
            && Missing(After(e)) == if e.result.error == Some(SaveFailed) then Missing(st) + Removed(st, m, fails)
                                    else Missing(st) - Removed(st, m, fails)
  {
    RemoveLeaves(st, m, fails, save);
    MissingWhenKept(st, m, fails);
    MissingWhenRemoved(st, m, fails);
  }

  lemma {:induction false} NothingGone(peers: seq<Peer>, m: Match, fails: set<nat>, n: nat)
    requires n <= |peers|
    ensures |Kept(peers, m, fails, n)| == n <==> GoneKeys(peers, m, fails, n) == {}
    ensures |Kept(peers, m, fails, n)| == n ==> Kept(peers, m, fails, n) == peers[..n]
  {
    if n > 0 {
      NothingGone(peers, m, fails, n - 1);
      SweepStep(peers, m, fails, n - 1);
      assert peers[..n] == peers[..n - 1] + [peers[n - 1]];
    }
  }

  /** Dropping entries from the backend while the list stays. */
  lemma MissingWhenKept(st: State, m: Match, fails: set<nat>)
    requires Shadowed(st)
    ensures var b' := st.durable.backend - Removed(st, m, fails);
            Shadows(b', st.peers) && Lacks(b', st.peers) == Missing(st) + Removed(st, m, fails)
  {
    var gone := Removed(st, m, fails);
    forall k | k in gone ensures k in Lacks(st.durable.backend - gone, st.peers) {
      var i :| 0 <= i < |st.peers| && Gone(st.peers, m, fails, i) && st.peers[i].publicKey == k;
      assert st.peers[i] in st.peers;
    }
  }

  /** With distinct keys, the keys that go and the keys that stay are apart. */
  lemma GoneAndKeptApart(peers: seq<Peer>, m: Match, fails: set<nat>, i: nat)
    requires DistinctKeys(peers) && i < |peers|
    ensures peers[i].publicKey in GoneKeys(peers, m, fails, |peers|) <==> Gone(peers, m, fails, i)
  {
    assert forall j | 0 <= j < |peers| && peers[j].publicKey == peers[i].publicKey :: j == i;
  }

  lemma ShadowsWhenRemoved(st: State, m: Match, fails: set<nat>)
    requires Shadowed(st) && DistinctKeys(st.peers)
    ensures Shadows(st.durable.backend - Removed(st, m, fails), Kept(st.peers, m, fails, |st.peers|))
  {
    var kept := Kept(st.peers, m, fails, |st.peers|);
    var b' := st.durable.backend - Removed(st, m, fails);
    KeptMembers(st.peers, m, fails, |st.peers|);
    forall k | k in b'
      ensures exists i :: 0 <= i < |kept| && kept[i].publicKey == k && kept[i].address == b'[k]
    {
      var i :| 0 <= i < |st.peers| && st.peers[i].publicKey == k && st.peers[i].address == st.durable.backend[k];
      GoneAndKeptApart(st.peers, m, fails, i);
      assert st.peers[i] in kept;
    }
  }

  lemma MissingWhenRemoved(st: State, m: Match, fails: set<nat>)
    requires Shadowed(st) && DistinctKeys(st.peers)
    ensures var b' := st.durable.backend - Removed(st, m, fails);
            var kept := Kept(st.peers, m, fails, |st.peers|);
            Shadows(b', kept) && Lacks(b', kept) == Missing(st) - Removed(st, m, fails)
  {
    ShadowsWhenRemoved(st, m, fails);
    var gone := Removed(st, m, fails);
    var kept := Kept(st.peers, m, fails, |st.peers|);
    var b' := st.durable.backend - gone;
    KeptMembers(st.peers, m, fails, |st.peers|);
    forall k ensures k in Lacks(b', kept) <==> k in Missing(st) && k !in gone {
      if k in Lacks(b', kept) {
        var p :| p in kept && p.publicKey == k;
        var i :| 0 <= i < |st.peers| && st.peers[i] == p && !Gone(st.peers, m, fails, i);
        GoneAndKeptApart(st.peers, m, fails, i);
      }
      if k in Missing(st) && k !in gone {
        var p :| p in st.peers && p.publicKey == k;
        var i :| 0 <= i < |st.peers| && st.peers[i] == p;
        GoneAndKeptApart(st.peers, m, fails, i);
      }
    }
  }

  /** Re-applying a list fills every gap and strays exactly on keys that are not listed. */
  lemma ReapplyShadows(b: map<Key, Address>, ps: seq<Peer>)
    requires DistinctKeys(ps) && forall j | 0 <= j < |ps| :: !ps[j].address.Garbled?
    ensures Lacks(Reapply(b, ps, |ps|), ps) == {}
    ensures Shadows(Reapply(b, ps, |ps|), ps)
            <==> forall k | k in b :: exists i :: 0 <= i < |ps| && ps[i].publicKey == k
  {
    var r := Reapply(b, ps, |ps|);
    ReapplyIsTable(b, ps, |ps|);
    forall k | k in r && exists i :: 0 <= i < |ps| && ps[i].publicKey == k
      ensures exists i :: 0 <= i < |ps| && ps[i].publicKey == k && ps[i].address == r[k]
    {
      var i :| 0 <= i < |ps| && ps[i].publicKey == k;
    }
  }

  /** What one start leaves in the backend. */
  lemma StartFillsBackend(pool: Pool, d: Durable, readOk: bool, fails: set<nat>)
    requires pool.prefix.bits <= pool.prefix.width && Inv(pool, Sys(false, State([], d)))
    requires RestoreEffect(d, readOk, fails).result.None?
    ensures var st := After(RestoreEffect(d, readOk, fails));
            && Missing(st) == {}
            && (Shadowed(st) <==>
                  forall k | k in d.backend :: exists i :: 0 <= i < |st.peers| && st.peers[i].publicKey == k)
  {
    var ps := Stored(d.disk.target);
    assert forall j | 0 <= j < |ps| :: ps[j] in ps;
    ReapplyShadows(d.backend, ps);
  }

  // ---------------------------------------------------------------- runs with good rollbacks

  /** Rollbacks succeed and a start finds an empty backend. */
  predicate GoodRollback(e: Event) {
    && (e.Do? && e.op.Create? ==> e.op.w.save.Done? || e.op.w.rollbackOk)
    && (e.Start? ==> e.wiped)
  }

  predicate RemovalSaved(e: Event) {
    e.Do? && e.op.Remove? ==> e.op.save.Done?
  }

  lemma StepKeepsShadow(pool: Pool, s: Sys, e: Event)
    requires pool.prefix.bits <= pool.prefix.width && Inv(pool, s)
    requires s.up ==> Shadowed(s.st)
    requires GoodRollback(e)
    ensures var s' := Step(pool, s, e); s'.up ==> Shadowed(s'.st)
    ensures var s' := Step(pool, s, e);
            (s.up ==> Missing(s.st) == {}) && RemovalSaved(e) && s'.up ==> Missing(s'.st) == {}
  {
    match e
    case Do(op) =>
      if s.up {
        match op
        case Create(req, w) => {
          StrayIffRollbackFails(pool, s.st, req, w);
          CreateOutcome(pool, s.st, req, w);
        }
        case Remove(m, fails, save) => {
          RemovalMovesMissing(s.st, m, fails, save);
        }
      }
    case DieIn(_, _) =>
    case Start(wiped, readOk, fails) =>
      if !s.up && RestoreEffect(Boot(s.st.durable, wiped), readOk, fails).result.None? {
        StartFillsBackend(pool, Boot(s.st.durable, wiped), readOk, fails);
      }
    case DieStarting(_, _, _, _) =>
  }

  /**
   As long as rollbacks succeed, every backend entry is a listed peer with its address;
   the two agree completely unless the save of some removal failed.
   */
  lemma {:induction false} BackendShadowsList(pool: Pool, events: seq<Event>)
    requires pool.prefix.bits <= pool.prefix.width
    requires forall e <- events :: GoodRollback(e)
    ensures Run(pool, events).up ==> Shadowed(Run(pool, events).st)
    ensures (forall e <- events :: RemovalSaved(e)) && Run(pool, events).up ==> Missing(Run(pool, events).st) == {}
  {
    if events != [] {
      var before := events[..|events| - 1];
      assert Last(events) in events;
      BackendShadowsList(pool, before);
      RunKeepsInv(pool, before);
      StepKeepsShadow(pool, Run(pool, before), Last(events));
    }
  }

  /**
   Repeating a removal whose save failed, at any later point of a run and without further
   failures, takes every key it matches out of `Missing`, and adds none.
   */
  lemma RepeatedRemovalHeals(pool: Pool, events: seq<Event>, m: Match)
    requires pool.prefix.bits <= pool.prefix.width
    requires (forall e <- events :: GoodRollback(e)) && Run(pool, events).up
    ensures var st := Run(pool, events).st;
            var st' := Run(pool, events + [Do(Remove(m, {}, Done))]).st;
            && st'.peers == Kept(st.peers, m, {}, |st.peers|)
            && (forall p <- st'.peers :: !Matches(m, p))
            && Missing(st') == Missing(st) - (set p | p in st.peers && Matches(m, p) :: p.publicKey)
            && ((forall p | p in st.peers && p.publicKey in Missing(st) :: Matches(m, p)) ==> Missing(st') == {})
  {
    var st := Run(pool, events).st;
    RunKeepsInv(pool, events);
    BackendShadowsList(pool, events);
    assert (events + [Do(Remove(m, {}, Done))])[..|events|] == events;
    RemovalMovesMissing(st, m, {}, Done);
    RemoveLeaves(st, m, {}, Done);
    KeptMembers(st.peers, m, {}, |st.peers|);
    RemovedIsMatched(st, m);
  }

  lemma RemovedIsMatched(st: State, m: Match)
    ensures Removed(st, m, {}) == set p | p in st.peers && Matches(m, p) :: p.publicKey
  {
    forall p | p in st.peers && Matches(m, p) ensures p.publicKey in Removed(st, m, {}) {
      var i :| 0 <= i < |st.peers| && st.peers[i] == p;
      assert Gone(st.peers, m, {}, i);
    }
  }

  // ---------------------------------------------------------------- limits

  /** No create raises an owner's count above the limit it was given. */
  lemma LimitKept(pool: Pool, st: State, req: CreateRequest, w: CreateWorld)
    requires pool.prefix.bits <= pool.prefix.width
    ensures var e := CreateEffect(pool, st, req, w);
            && (e.result.Ok? && req.opt.owner != "" && req.opt.maxPerOwner > 0 ==>
                  OwnedCount(e.peers, req.opt.owner) == OwnedCount(st.peers, req.opt.owner) + 1 <= req.opt.maxPerOwner)
            && (e.result == Err(LimitReached) ==>
                  req.opt.maxPerOwner > 0 && req.opt.owner != ""
                      && OwnedCount(st.peers, req.opt.owner) >= req.opt.maxPerOwner)
  {
    var e := CreateEffect(pool, st, req, w);
    if e.result.Ok? {
      assert e.peers[..|st.peers|] == st.peers;
    }
  }

  /**
   A created peer lives exactly its time: a clean expiry pass at any later time keeps it if
   and only if it has no time limit or the limit, counted from the full second, is not reached.
   */
  lemma LivesItsTime(pool: Pool, st: State, req: CreateRequest, w: CreateWorld, later: nat)
    requires pool.prefix.bits <= pool.prefix.width
    requires CreateEffect(pool, st, req, w).result.Ok?
    ensures var e := CreateEffect(pool, st, req, w);
            var swept := RemoveEffect(After(e), Expired(later), {}, Done);
            var full := w.now - w.now % SECOND;
            e.result.value in swept.peers <==> req.opt.ttl <= 0 || later < full + req.opt.ttl
  {
    CreatedIsListed(pool, st, req, w);
    var e := CreateEffect(pool, st, req, w);
    SweepKeeps(After(e), Expired(later), e.result.value);
  }

  lemma CreatedIsListed(pool: Pool, st: State, req: CreateRequest, w: CreateWorld)
    requires pool.prefix.bits <= pool.prefix.width
    requires CreateEffect(pool, st, req, w).result.Ok?
    ensures var e := CreateEffect(pool, st, req, w);
            && e.peers == st.peers + [e.result.value]
            && e.result.value.expiresAt == if req.opt.ttl > 0 then Some(w.now - w.now % SECOND + req.opt.ttl) else None
  {
  }

  /** A removal without failures drops exactly the peers that match. */
  lemma SweepKeeps(st: State, m: Match, p: Peer)
    requires p in st.peers
    ensures p in RemoveEffect(st, m, {}, Done).peers <==> !Matches(m, p)
  {
    RemoveLeaves(st, m, {}, Done);
    KeptMembers(st.peers, m, {}, |st.peers|);
    var i :| 0 <= i < |st.peers| && st.peers[i] == p;
    assert Gone(st.peers, m, {}, i) <==> Matches(m, p);
  }

  lemma AddressesAppend(rest: seq<Peer>, last: Peer)
    requires last.address.Addr?
    ensures Addresses(rest + [last]) == Addresses(rest) + {last.address.a}
  {
    assert last in rest + [last];
  }

  lemma LastIsDistinct(peers: seq<Peer>)
    requires peers != [] && DistinctAddresses(peers) && forall p <- peers :: p.address.Addr?
    ensures Last(peers).address.a !in Addresses(peers[..|peers| - 1])
  {
    var rest := peers[..|peers| - 1];
    forall p <- rest ensures p.address != Last(peers).address {
      var i :| 0 <= i < |rest| && rest[i] == p;
      assert peers[i] == p;
    }
  }

  lemma {:induction false} DistinctAddressCount(peers: seq<Peer>)
    requires DistinctAddresses(peers) && forall p <- peers :: p.address.Addr?
    ensures |Addresses(peers)| == |peers|
  {
    if peers != [] {
      var rest := peers[..|peers| - 1];
      DistinctAddressCount(rest);
      LastIsDistinct(peers);
      AddressesAppend(rest, Last(peers));
      assert peers == rest + [Last(peers)];
    }
  }

  /**
   At every point of every run, the pool is exhausted exactly when all of its
   2^(32-bits) - 3 addresses are taken by as many peers.
   */
  lemma ExhaustedExactlyWhenFull(pool: Pool, events: seq<Event>, key: Key, opt: CreateOptions)
    requires pool.Valid() && Run(pool, events).up
    ensures var peers := Run(pool, events).st.peers;
            && |peers| <= pool.Capacity()
            && (Admit(pool, peers, key, opt) == Err(Exhausted) <==>
                  && |peers| == pool.Capacity()
                  && (forall p <- peers :: p.publicKey != key)
                  && !(opt.maxPerOwner > 0 && opt.owner != "" && OwnedCount(peers, opt.owner) >= opt.maxPerOwner))
  {
    RunKeepsInv(pool, events);
    PoolShape(pool);
    var peers := Run(pool, events).st.peers;
    DistinctAddressCount(peers);
    pool.ExhaustedIff(Addresses(peers));
    assert (set a | a in Addresses(peers) && pool.Assignable(a)) == Addresses(peers);
    var all := Interval(pool.Server() + 1, pool.Broadcast());
    SubsetCard(Addresses(peers), all);
  }
}

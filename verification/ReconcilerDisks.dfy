/** What a working reconcile pass leaves in the backend and in both files. */
module ReconcilerDisks {
  import opened AtomicFiles
  import opened PeerService
  import opened OwnerStores
  import opened Reconciler
  import PeerRuns

  /** A file after a round of work: written whole, or untouched. */
  function Settled<T>(d: Disk<T>, value: T, wrote: bool): Disk<T> {
    if wrote then Disk(Whole(value), Absent) else d
  }

  /** The keys of the peers that a pass drops. */
  function Departed(peers: seq<Peer>, now: nat, out: set<string>): set<Key> {
    set p | p in peers && (Matches(Expired(now), p) || p.owner in out) :: p.publicKey
  }

  /** The provider is asked about this owner, and its answer changes the records. */
  predicate Touched(v: Vpn, s: string, w: World, group: string) {
    && s in v.owners.m && v.owners.m[s].refreshToken != ""
    && OwnedCount(Survivors(v.svc.peers, w.now, {}), s) > 0
    && (Rotation(v.owners.m[s], w.reply(s)).Some? || !StillAllowed(w.reply(s), group))
  }

  ghost predicate SomeTouched(v: Vpn, done: set<string>, w: World, group: string) {
    exists s <- done :: Touched(v, s, w, group)
  }

  ghost predicate DisksInv(v0: Vpn, v: Vpn, done: set<string>, w: World, group: string) {
    && v.svc.durable.backend == v0.svc.durable.backend - Departed(v0.svc.peers, w.now, Revokees(v0, w, group) * done)
    && v.svc.durable.disk == Settled(v0.svc.durable.disk, v.svc.peers, v.svc.peers != v0.svc.peers)
    && |v.svc.peers| <= |v0.svc.peers|
    && v.owners.disk == Settled(v0.owners.disk, v.owners.m, SomeTouched(v0, done, w, group))
  }

  // ---------------------------------------------------------------- one clean removal

  function MatchedKeys(peers: seq<Peer>, m: Match): set<Key> {
    set p | p in peers && Matches(m, p) :: p.publicKey
  }

  lemma CleanDisks(st: State, m: Match)
    ensures var e := RemoveEffect(st, m, {}, Done);
            && |e.peers| <= |st.peers| && (e.peers != st.peers ==> |e.peers| < |st.peers|)
            && After(e).durable.backend == st.durable.backend - MatchedKeys(st.peers, m)
            && After(e).durable.disk == Settled(st.durable.disk, e.peers, e.peers != st.peers)
  {
    PeerRuns.RemoveLeaves(st, m, {}, Done);
    PeerRuns.RemovedIsMatched(st, m);
    PeerRuns.NothingGone(st.peers, m, {}, |st.peers|);
    assert st.peers[..|st.peers|] == st.peers;
  }

  lemma {:induction false} SurvivorsAre(peers: seq<Peer>, now: nat, out: set<string>)
    ensures forall p :: p in Survivors(peers, now, out) <==> p in peers && !Matches(Expired(now), p) && p.owner !in out
  {
    if peers != [] {
      SurvivorsAre(peers[..|peers| - 1], now, out);
      assert peers == peers[..|peers| - 1] + [Last(peers)];
    }
  }

  /** Removing one owner more from the survivors drops the keys of that owner. */
  lemma DepartedWith(peers: seq<Peer>, now: nat, out: set<string>, sub: string)
    ensures Departed(peers, now, out) + MatchedKeys(Survivors(peers, now, out), ByOwner(sub))
         == Departed(peers, now, out + {sub})
  {
    SurvivorsAre(peers, now, out);
  }

  // ---------------------------------------------------------------- the pass

  lemma ExpiringStartsDisks(v0: Vpn, w: World, group: string)
    requires Works(w)
    ensures DisksInv(v0, Expiring(v0, w), {}, w, group)
  {
    CleanDisks(v0.svc, Expired(w.now));
    assert Revokees(v0, w, group) * {} == {};
    assert MatchedKeys(v0.svc.peers, Expired(w.now)) == Departed(v0.svc.peers, w.now, {});
  }

  lemma TouchedOneMore(v0: Vpn, done: set<string>, sub: string, w: World, group: string)
    ensures SomeTouched(v0, done + {sub}, w, group) <==> SomeTouched(v0, done, w, group) || Touched(v0, sub, w, group)
  {}

  /** What a refresh does to the records' file. */
  lemma RefreshDisks(v: Vpn, sub: string, rec: OwnerRecord, w: World)
    requires Works(w)
    ensures var r := Refresh(v, sub, rec, w);
            r.svc == v.svc && r.owners.disk == Settled(v.owners.disk, r.owners.m, Rotation(rec, w.reply(sub)).Some?)
  {}

  lemma RevokedDisks(v: Vpn, sub: string, w: World)
    requires Works(w)
    ensures var r := Revoked(v, sub, w);
            && |r.svc.peers| <= |v.svc.peers| && (r.svc.peers != v.svc.peers ==> |r.svc.peers| < |v.svc.peers|)
            && r.svc.durable.backend == v.svc.durable.backend - MatchedKeys(v.svc.peers, ByOwner(sub))
            && r.svc.durable.disk == Settled(v.svc.durable.disk, r.svc.peers, r.svc.peers != v.svc.peers)
            && r.owners.disk == Disk(Whole(r.owners.m), Absent)
  {
    CleanDisks(v.svc, ByOwner(sub));
    CleanRevocation(v, sub, w);
    CleanRemoval(v.svc, ByOwner(sub));
  }

  lemma SkippedKeepsDisks(v0: Vpn, v: Vpn, done: set<string>, sub: string, w: World, group: string)
    requires DisksInv(v0, v, done, w, group) && !Touched(v0, sub, w, group) && sub !in Revokees(v0, w, group)
    ensures DisksInv(v0, v, done + {sub}, w, group)
  {
    TouchedOneMore(v0, done, sub, w, group);
    assert Revokees(v0, w, group) * (done + {sub}) == Revokees(v0, w, group) * done;
  }

  lemma RotatedKeepsDisks(v0: Vpn, v: Vpn, done: set<string>, sub: string, w: World, group: string)
    requires Works(w) && DisksInv(v0, v, done, w, group)
    requires Touched(v0, sub, w, group) && sub !in Revokees(v0, w, group)
    ensures DisksInv(v0, Refresh(v, sub, v0.owners.m[sub], w), done + {sub}, w, group)
  {
    TouchedOneMore(v0, done, sub, w, group);
    RefreshDisks(v, sub, v0.owners.m[sub], w);
    assert Revokees(v0, w, group) * (done + {sub}) == Revokees(v0, w, group) * done;
  }

  /** Two rounds of writing a list that only shrinks. */
  lemma SettledTwice(d: Disk<seq<Peer>>, a: seq<Peer>, b: seq<Peer>, c: seq<Peer>)
    requires |b| <= |a| && (c != b ==> |c| < |b|)
    ensures Settled(Settled(d, b, b != a), c, c != b) == Settled(d, c, c != a)
  {}

  lemma RevokedKeepsDisks(v0: Vpn, v: Vpn, done: set<string>, sub: string, w: World, group: string)
    requires Works(w) && DisksInv(v0, v, done, w, group) && PassInv(v0, v, done, w, group)
    requires sub in Revokees(v0, w, group) && sub !in done
    ensures DisksInv(v0, Revoked(Refresh(v, sub, v0.owners.m[sub], w), sub, w), done + {sub}, w, group)
  {
    var out := Revokees(v0, w, group) * done;
    var v1 := Refresh(v, sub, v0.owners.m[sub], w);
    var r := Revoked(v1, sub, w);
    RefreshDisks(v, sub, v0.owners.m[sub], w);
    RevokedDisks(v1, sub, w);
    SettledTwice(v0.svc.durable.disk, v0.svc.peers, v.svc.peers, r.svc.peers);
    DepartedWith(v0.svc.peers, w.now, out, sub);
    TouchedOneMore(v0, done, sub, w, group);
    assert Revokees(v0, w, group) * (done + {sub}) == out + {sub};
    var b, d, k := v0.svc.durable.backend, Departed(v0.svc.peers, w.now, out), MatchedKeys(v.svc.peers, ByOwner(sub));
    assert b - d - k == b - (d + k);
  }

  lemma RoundKeepsDisks(v0: Vpn, v: Vpn, done: set<string>, sub: string, w: World, group: string)
    requires Works(w) && DisksInv(v0, v, done, w, group) && PassInv(v0, v, done, w, group)
    requires sub in v0.owners.m && sub !in done
    ensures DisksInv(v0, Round(v, sub, v0.owners.m[sub], w, group), done + {sub}, w, group)
  {
    AskedAndRejected(v0, v, done, sub, w, group);
    if sub in Revokees(v0, w, group) {
      RevokedKeepsDisks(v0, v, done, sub, w, group);
    } else if Touched(v0, sub, w, group) {
      RotatedKeepsDisks(v0, v, done, sub, w, group);
    } else {
      SkippedKeepsDisks(v0, v, done, sub, w, group);
      SkippedRound(v, sub, v0.owners.m[sub], w, group);
    }
  }

  /** A round that neither rotates nor revokes does nothing. */
  lemma SkippedRound(v: Vpn, sub: string, rec: OwnerRecord, w: World, group: string)
    requires rec.refreshToken == "" || OwnedCount(v.svc.peers, sub) == 0
             || (Rotation(rec, w.reply(sub)).None? && StillAllowed(w.reply(sub), group))
    ensures Round(v, sub, rec, w, group) == v
  {}

  lemma {:induction false} RoundsKeepDisks(v0: Vpn, order: seq<string>, w: World, group: string)
    requires Works(w) && forall s <- order :: s in v0.owners.m
    requires forall i, j :: 0 <= i < j < |order| ==> order[i] != order[j]
    ensures DisksInv(v0, Reconciled(v0, order, w, group), (set s | s in order), w, group)
  {
    if order == [] {
      ExpiringStartsDisks(v0, w, group);
      assert (set s | s in order) == {};
    } else {
      var shorter := order[..|order| - 1];
      OneMoreVisited(order);
      RoundsKeepDisks(v0, shorter, w, group);
      RoundsKeepPass(v0, shorter, w, group);
      RoundKeepsDisks(v0, Reconciled(v0, shorter, w, group), (set s | s in shorter), Last(order), w, group);
    }
  }

  // ---------------------------------------------------------------- the whole outcome

  /** The outcome of a working pass, read from the state it starts with alone. */
  ghost function PassOutcome(v: Vpn, w: World, group: string): Vpn {
    var out := Revokees(v, w, group);
    var peers := Survivors(v.svc.peers, w.now, out);
    var m := map s | s in v.owners.m && s !in out :: RecordAfter(v.svc.peers, s, v.owners.m[s], w);
    Vpn(
      State(peers, Durable(Settled(v.svc.durable.disk, peers, peers != v.svc.peers),
                           v.svc.durable.backend - Departed(v.svc.peers, w.now, out))),
      Owners(m, Settled(v.owners.disk, m, SomeTouched(v, v.owners.m.Keys, w, group))),
      v.pending,
      map id | id in v.sessions && v.sessions[id].user.sub !in out :: v.sessions[id])
  }

  /** A working pass ends in that outcome: memory, backend and both files. */
  lemma WorkingPassOutcome(v: Vpn, order: seq<string>, w: World, group: string)
    requires Works(w) && Enumerates(order, v.owners.m.Keys)
    ensures Reconciled(v, order, w, group) == PassOutcome(v, w, group)
  {
    WorkingPass(v, order, w, group);
    RoundsKeepPass(v, order, w, group);
    RoundsKeepDisks(v, order, w, group);
    assert (set s | s in order) == v.owners.m.Keys;
    assert Revokees(v, w, group) * v.owners.m.Keys == Revokees(v, w, group);
  }

  /** The outcome, on disk and in the backend too, does not depend on the order of the map. */
  lemma PassIgnoresOrder(v: Vpn, a: seq<string>, b: seq<string>, w: World, group: string)
    requires Works(w) && Enumerates(a, v.owners.m.Keys) && Enumerates(b, v.owners.m.Keys)
    ensures Reconciled(v, a, w, group) == Reconciled(v, b, w, group)
  {
    WorkingPassOutcome(v, a, w, group);
    WorkingPassOutcome(v, b, w, group);
  }

  /** List, file and backend agree, and the records are those on disk. */
  ghost predicate InStep(v: Vpn) {
    && v.svc.peers == Stored(v.svc.durable.disk.target)
    && PeerRuns.Shadowed(v.svc) && PeerRuns.InBackend(v.svc)
    && v.owners.m == StoredTable(v.owners.disk.target)
  }

  lemma SurvivorsShadow(peers: seq<Peer>, b: map<Key, Address>, now: nat, out: set<string>)
    requires PeerRuns.DistinctKeys(peers) && PeerRuns.Shadows(b, peers)
    ensures PeerRuns.Shadows(b - Departed(peers, now, out), Survivors(peers, now, out))
  {
    var rest, b' := Survivors(peers, now, out), b - Departed(peers, now, out);
    SurvivorsAre(peers, now, out);
    forall k | k in b'
      ensures exists i :: 0 <= i < |rest| && rest[i].publicKey == k && rest[i].address == b'[k]
    {
      var i :| 0 <= i < |peers| && peers[i].publicKey == k && peers[i].address == b[k];
      assert peers[i] in rest;
    }
  }

  lemma SurvivorsInBackend(peers: seq<Peer>, b: map<Key, Address>, now: nat, out: set<string>, k: nat)
    requires PeerRuns.DistinctKeys(peers) && k < |Survivors(peers, now, out)|
    requires forall i :: 0 <= i < |peers| ==> peers[i].publicKey in b && peers[i].address == b[peers[i].publicKey]
    ensures var p, b' := Survivors(peers, now, out)[k], b - Departed(peers, now, out);
            p.publicKey in b' && p.address == b'[p.publicKey]
  {
    var p := Survivors(peers, now, out)[k];
    SurvivorsAre(peers, now, out);
    assert p in Survivors(peers, now, out);
    var i :| 0 <= i < |peers| && peers[i] == p;
    forall q | q in peers && (Matches(Expired(now), q) || q.owner in out) ensures q.publicKey != p.publicKey {
      var j :| 0 <= j < |peers| && peers[j] == q;
    }
  }

  /** A working pass keeps list, file and backend equal, and the records equal to their file. */
  lemma WorkingPassInStep(v: Vpn, order: seq<string>, w: World, group: string)
    requires Works(w) && Enumerates(order, v.owners.m.Keys) && InStep(v) && PeerRuns.DistinctKeys(v.svc.peers)
    ensures InStep(Reconciled(v, order, w, group))
  {
    var r, out := PassOutcome(v, w, group), Revokees(v, w, group);
    WorkingPassOutcome(v, order, w, group);
    SurvivorsShadow(v.svc.peers, v.svc.durable.backend, w.now, out);
    forall k | 0 <= k < |r.svc.peers|
      ensures r.svc.peers[k].publicKey in r.svc.durable.backend
      ensures r.svc.peers[k].address == r.svc.durable.backend[r.svc.peers[k].publicKey]
    {
      SurvivorsInBackend(v.svc.peers, v.svc.durable.backend, w.now, out, k);
    }
    RecordsUntouched(v, w, group);
  }

  /** When no answer changes a record, the records stay as they are. */
  lemma RecordsUntouched(v: Vpn, w: World, group: string)
    ensures !SomeTouched(v, v.owners.m.Keys, w, group) ==> PassOutcome(v, w, group).owners.m == v.owners.m
  {
    if !SomeTouched(v, v.owners.m.Keys, w, group) {
      forall s <- v.owners.m
        ensures s !in Revokees(v, w, group) && RecordAfter(v.svc.peers, s, v.owners.m[s], w) == v.owners.m[s]
      {
        assert !Touched(v, s, w, group);
      }
    }
  }
}

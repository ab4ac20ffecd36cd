/**
 The whole VPN service as one value, and the reconciler that revokes or keeps peers
 according to the identity provider (refresh: section 6 of RFC 6749, `invalid_grant`:
 section 5.2).  A handler or a reconcile pass is one step here.
 */
module Reconciler {
  import opened Wrappers
  import opened AtomicFiles
  import opened PeerService
  import opened OwnerStores
  import opened SignIn
  import PeerRuns

  datatype Vpn = Vpn(svc: State, owners: Owners, pending: Pendings, sessions: Sessions)

  /** What a refreshed ID token says about groups, if it says anything. */
  datatype RefreshedId = NoIdToken | Unverifiable | Undecodable | Groups(groups: seq<string>)

  datatype TokenReply =
    | Unreachable
    | Refused(code: string, status: Option<int>)
    | Refreshed(refresh: string, id: RefreshedId)

  /** Only a definite answer revokes; every other outcome keeps the peers. */
  predicate StillAllowed(reply: TokenReply, group: string) {
    match reply
    case Unreachable => true
    case Refused(code, status) => !(code == "invalid_grant" || status == Some(400) || status == Some(401))
    case Refreshed(_, id) => id.Groups? ==> group in id.groups
  }

  /** The refresh token to store instead of the one used, if the provider rotated it. */
  function Rotation(rec: OwnerRecord, reply: TokenReply): Option<string> {
    if reply.Refreshed? && reply.refresh != "" && reply.refresh != rec.refreshToken then Some(reply.refresh) else None
  }

  /** The world's answers during one pass, per owner where there are several. */
  datatype World = World(
    now: nat, expiryFails: set<nat>, expirySave: Outcome,
    reply: string -> TokenReply, rotationSave: string -> Outcome,
    revokeFails: string -> set<nat>, revokeSave: string -> Outcome, deleteSave: string -> Outcome)

  function Revoked(v: Vpn, sub: string, w: World): Vpn {
    var e := RemoveEffect(v.svc, ByOwner(sub), w.revokeFails(sub), w.revokeSave(sub));
    var swept := v.(svc := After(e));
    if e.result.error.Some? then swept
    else swept.(owners := DeleteRecord(v.owners, sub, w.deleteSave(sub)),
                sessions := RevokeSection(v.sessions, sub))
  }

  function Refresh(v: Vpn, sub: string, rec: OwnerRecord, w: World): Vpn {
    match Rotation(rec, w.reply(sub))
    case None => v
    case Some(token) => v.(owners := SetRecord(v.owners, sub, rec.name, token, w.rotationSave(sub)))
  }

  /** One round of the loop over the snapshot of the owner records. */
  function Round(v: Vpn, sub: string, rec: OwnerRecord, w: World, group: string): Vpn {
    if rec.refreshToken == "" || OwnedCount(v.svc.peers, sub) == 0 then v
    else
      var v1 := Refresh(v, sub, rec, w);
      if StillAllowed(w.reply(sub), group) then v1 else Revoked(v1, sub, w)
  }

  function Rounds(v: Vpn, snapshot: Table, order: seq<string>, w: World, group: string): Vpn
    requires forall s <- order :: s in snapshot
  {
    if order == [] then v
    else
      var before := Rounds(v, snapshot, order[..|order| - 1], w, group);
      Round(before, Last(order), snapshot[Last(order)], w, group)
  }

  function Expiring(v: Vpn, w: World): Vpn {
    v.(svc := After(RemoveEffect(v.svc, Expired(w.now), w.expiryFails, w.expirySave)))
  }

  /** An order in which a loop may visit every key of a map once. */
  ghost predicate Enumerates(order: seq<string>, keys: set<string>) {
    && (forall s <- order :: s in keys)
    && (forall s <- keys :: s in order)
    && (forall i, j :: 0 <= i < j < |order| ==> order[i] != order[j])
  }

  function Reconciled(v: Vpn, order: seq<string>, w: World, group: string): Vpn
    requires forall s <- order :: s in v.owners.m
  {
    Rounds(Expiring(v, w), v.owners.m, order, w, group)
  }

  // ---------------------------------------------------------------- a pass without failures

  ghost predicate Works(w: World) {
    && w.expiryFails == {} && w.expirySave.Done?
    && forall s :: w.rotationSave(s).Done? && w.revokeFails(s) == {} && w.revokeSave(s).Done? && w.deleteSave(s).Done?
  }

  /** The peers that are not expired and whose owner is not in `out`, in order. */
  function Survivors(peers: seq<Peer>, now: nat, out: set<string>): seq<Peer> {
    if peers == [] then []
    else
      var rest := Survivors(peers[..|peers| - 1], now, out);
      var p := Last(peers);
      if Matches(Expired(now), p) || p.owner in out then rest else rest + [p]
  }

  /** An owner with a refresh token, whom the provider definitely rejects. */
  predicate Rejected(m: Table, sub: string, w: World, group: string) {
    sub in m && m[sub].refreshToken != "" && !StillAllowed(w.reply(sub), group)
  }

  /** The rejected owners that still have an unexpired peer. */
  ghost function Revokees(v: Vpn, w: World, group: string): set<string> {
    set s | s in v.owners.m && Rejected(v.owners.m, s, w, group) && OwnedCount(Survivors(v.svc.peers, w.now, {}), s) > 0
  }

  /** The record after the pass: the token rotates for owners that were asked about. */
  function RecordAfter(peers: seq<Peer>, sub: string, rec: OwnerRecord, w: World): OwnerRecord {
    if rec.refreshToken == "" || OwnedCount(Survivors(peers, w.now, {}), sub) == 0 then rec
    else
      match Rotation(rec, w.reply(sub))
      case None => rec
      case Some(token) => OwnerRecord(rec.name, token)
  }

  lemma {:induction false} KeptExpired(peers: seq<Peer>, now: nat, n: nat)
    requires n <= |peers|
    ensures Kept(peers, Expired(now), {}, n) == Survivors(peers[..n], now, {})
  {
    if n > 0 {
      KeptExpired(peers, now, n - 1);
      assert peers[..n][..n - 1] == peers[..n - 1];
      assert Last(peers[..n]) == peers[n - 1];
    }
  }

  /** Peers by owner, as a filter of their own; the loop of one removal computes it. */
  function WithoutOwner(peers: seq<Peer>, sub: string): seq<Peer> {
    if peers == [] then []
    else
      var rest := WithoutOwner(peers[..|peers| - 1], sub);
      if Last(peers).owner == sub then rest else rest + [Last(peers)]
  }

  lemma {:induction false} KeptByOwner(peers: seq<Peer>, sub: string, n: nat)
    requires n <= |peers|
    ensures Kept(peers, ByOwner(sub), {}, n) == WithoutOwner(peers[..n], sub)
  {
    if n > 0 {
      KeptByOwner(peers, sub, n - 1);
      assert peers[..n][..n - 1] == peers[..n - 1];
      assert Last(peers[..n]) == peers[n - 1];
    }
  }

  lemma {:induction false} SurvivorsWithout(peers: seq<Peer>, now: nat, out: set<string>, sub: string)
    ensures WithoutOwner(Survivors(peers, now, out), sub) == Survivors(peers, now, out + {sub})
  {
    if peers != [] {
      var rest, p := peers[..|peers| - 1], Last(peers);
      SurvivorsWithout(rest, now, out, sub);
      var s := Survivors(rest, now, out);
      assert (s + [p])[..|s|] == s;
    }
  }

  lemma CountSnoc(peers: seq<Peer>, p: Peer, sub: string)
    ensures OwnedCount(peers + [p], sub) == OwnedCount(peers, sub) + if p.owner == sub then 1 else 0
  {
    assert (peers + [p])[..|peers|] == peers;
  }

  lemma {:induction false} CountSurvivors(peers: seq<Peer>, now: nat, out: set<string>, sub: string)
    requires sub !in out
    ensures OwnedCount(Survivors(peers, now, out), sub) == OwnedCount(Survivors(peers, now, {}), sub)
  {
    if peers != [] {
      var rest, p := peers[..|peers| - 1], Last(peers);
      CountSurvivors(rest, now, out, sub);
      var s, s0 := Survivors(rest, now, out), Survivors(rest, now, {});
      CountSnoc(s, p, sub);
      CountSnoc(s0, p, sub);
    }
  }

  /** A removal without failures leaves exactly the peers that do not match. */
  lemma CleanRemoval(st: State, m: Match)
    ensures var e := RemoveEffect(st, m, {}, Done);
            && e.peers == Kept(st.peers, m, {}, |st.peers|)
            && e.result.error.None?
  {
    PeerRuns.NothingGone(st.peers, m, {}, |st.peers|);
  }

  /** The state of a working pass after the owners in `done` were visited. */
  ghost predicate PassInv(v0: Vpn, v: Vpn, done: set<string>, w: World, group: string) {
    var out := Revokees(v0, w, group) * done;
    && v.svc.peers == Survivors(v0.svc.peers, w.now, out)
    && v.pending == v0.pending
    && (forall s :: s in v.owners.m <==> s in v0.owners.m && s !in out)
    && (forall s <- v.owners.m :: v.owners.m[s] ==
          if s in done then RecordAfter(v0.svc.peers, s, v0.owners.m[s], w) else v0.owners.m[s])
    && v.sessions == (map id | id in v0.sessions && v0.sessions[id].user.sub !in out :: v0.sessions[id])
  }

  lemma ExpiringStartsPass(v0: Vpn, w: World, group: string)
    requires Works(w)
    ensures PassInv(v0, Expiring(v0, w), {}, w, group)
  {
    CleanRemoval(v0.svc, Expired(w.now));
    KeptExpired(v0.svc.peers, w.now, |v0.svc.peers|);
    assert v0.svc.peers[..|v0.svc.peers|] == v0.svc.peers;
    assert Revokees(v0, w, group) * {} == {};
    assert v0.sessions == (map id | id in v0.sessions :: v0.sessions[id]);
  }

  /** The round revokes exactly the owners that the whole pass revokes. */
  lemma AskedAndRejected(v0: Vpn, v: Vpn, done: set<string>, sub: string, w: World, group: string)
    requires PassInv(v0, v, done, w, group) && sub in v0.owners.m && sub !in done
    ensures OwnedCount(v.svc.peers, sub) == OwnedCount(Survivors(v0.svc.peers, w.now, {}), sub)
    ensures sub in Revokees(v0, w, group) <==>
            && v0.owners.m[sub].refreshToken != "" && OwnedCount(v.svc.peers, sub) > 0
            && !StillAllowed(w.reply(sub), group)
  {
    CountSurvivors(v0.svc.peers, w.now, Revokees(v0, w, group) * done, sub);
  }

  /** A spared owner that is not asked about keeps its record. */
  lemma SkippedKeepsPass(v0: Vpn, v: Vpn, done: set<string>, sub: string, w: World, group: string)
    requires PassInv(v0, v, done, w, group) && sub in v0.owners.m && sub !in Revokees(v0, w, group)
    requires RecordAfter(v0.svc.peers, sub, v0.owners.m[sub], w) == v0.owners.m[sub]
    ensures PassInv(v0, v, done + {sub}, w, group)
  {
    var all := Revokees(v0, w, group);
    assert all * (done + {sub}) == all * done;
  }

  lemma RefreshedKeepsPass(v0: Vpn, v: Vpn, done: set<string>, sub: string, w: World, group: string)
    requires PassInv(v0, v, done, w, group) && sub in v0.owners.m && sub !in done && sub !in Revokees(v0, w, group)
    requires v0.owners.m[sub].refreshToken != "" && OwnedCount(Survivors(v0.svc.peers, w.now, {}), sub) > 0
    ensures PassInv(v0, Refresh(v, sub, v0.owners.m[sub], w), done + {sub}, w, group)
  {
    var all := Revokees(v0, w, group);
    assert all * (done + {sub}) == all * done;
    RefreshTouchesOne(v, sub, v0.owners.m[sub], w);
    RefreshRotates(v, sub, v0.owners.m[sub], w);
  }

  /** What a refresh leaves as the record of the owner asked about. */
  lemma RefreshRotates(v: Vpn, sub: string, rec: OwnerRecord, w: World)
    requires sub in v.owners.m && v.owners.m[sub] == rec
    ensures var r := Refresh(v, sub, rec, w);
            && r.owners.m.Keys == v.owners.m.Keys
            && r.owners.m[sub] == (match Rotation(rec, w.reply(sub))
                                   case None => rec
                                   case Some(token) => OwnerRecord(rec.name, token))
            && forall s | s in v.owners.m && s != sub :: r.owners.m[s] == v.owners.m[s]
  {
  }

  lemma SparedKeepsPass(v0: Vpn, v: Vpn, done: set<string>, sub: string, w: World, group: string)
    requires PassInv(v0, v, done, w, group)
    requires sub in v0.owners.m && sub !in done && sub !in Revokees(v0, w, group)
    ensures PassInv(v0, Round(v, sub, v0.owners.m[sub], w, group), done + {sub}, w, group)
  {
    AskedAndRejected(v0, v, done, sub, w, group);
    if v0.owners.m[sub].refreshToken != "" && OwnedCount(v.svc.peers, sub) > 0 {
      RefreshedKeepsPass(v0, v, done, sub, w, group);
    } else {
      SkippedKeepsPass(v0, v, done, sub, w, group);
    }
  }

  /** One round over an owner not visited before. */
  lemma RoundKeepsPass(v0: Vpn, v: Vpn, done: set<string>, sub: string, w: World, group: string)
    requires Works(w) && PassInv(v0, v, done, w, group)
    requires sub in v0.owners.m && sub !in done
    ensures PassInv(v0, Round(v, sub, v0.owners.m[sub], w, group), done + {sub}, w, group)
  {
    if sub in Revokees(v0, w, group) {
      AskedAndRejected(v0, v, done, sub, w, group);
      RevokedKeepsPass(v0, v, done, sub, w, group);
    } else {
      SparedKeepsPass(v0, v, done, sub, w, group);
    }
  }

  /** Revoking without failures, field by field. */
  lemma CleanRevocation(v: Vpn, sub: string, w: World)
    requires Works(w)
    ensures var r := Revoked(v, sub, w);
            && r.svc.peers == WithoutOwner(v.svc.peers, sub)
            && r.owners.m == v.owners.m - {sub}
            && r.sessions == RevokeSection(v.sessions, sub)
            && r.pending == v.pending
  {
    CleanRemoval(v.svc, ByOwner(sub));
    KeptByOwner(v.svc.peers, sub, |v.svc.peers|);
    assert v.svc.peers[..|v.svc.peers|] == v.svc.peers;
  }

  lemma RefreshTouchesOne(v: Vpn, sub: string, rec: OwnerRecord, w: World)
    requires sub in v.owners.m
    ensures var r := Refresh(v, sub, rec, w);
            && r.svc == v.svc && r.sessions == v.sessions && r.pending == v.pending
            && r.owners.m - {sub} == v.owners.m - {sub}
  {
  }

  lemma RevokedKeepsPass(v0: Vpn, v: Vpn, done: set<string>, sub: string, w: World, group: string)
    requires Works(w) && PassInv(v0, v, done, w, group)
    requires sub in Revokees(v0, w, group) && sub !in done
    ensures PassInv(v0, Revoked(Refresh(v, sub, v0.owners.m[sub], w), sub, w), done + {sub}, w, group)
  {
    var all := Revokees(v0, w, group);
    var v1 := Refresh(v, sub, v0.owners.m[sub], w);
    assert all * (done + {sub}) == all * done + {sub};
    RefreshTouchesOne(v, sub, v0.owners.m[sub], w);
    CleanRevocation(v1, sub, w);
    SurvivorsWithout(v0.svc.peers, w.now, all * done, sub);
    WithoutOneMore(v0, v, all * done, sub);
  }

  /** Sessions lose one more subject. */
  lemma WithoutOneMore(v0: Vpn, v: Vpn, out: set<string>, sub: string)
    requires v.sessions == (map id | id in v0.sessions && v0.sessions[id].user.sub !in out :: v0.sessions[id])
    ensures RevokeSection(v.sessions, sub) ==
            (map id | id in v0.sessions && v0.sessions[id].user.sub !in out + {sub} :: v0.sessions[id])
  {
  }

  lemma OneMoreVisited(order: seq<string>)
    requires order != [] && forall i, j :: 0 <= i < j < |order| ==> order[i] != order[j]
    ensures var shorter := order[..|order| - 1];
            && Last(order) !in shorter && (forall s <- shorter :: s in order)
            && (set s | s in order) == (set s | s in shorter) + {Last(order)}
  {
    var shorter := order[..|order| - 1];
    assert forall i | 0 <= i < |shorter| :: shorter[i] == order[i];
    assert order == shorter + [Last(order)];
  }

  lemma {:induction false} RoundsKeepPass(v0: Vpn, order: seq<string>, w: World, group: string)
    requires Works(w) && forall s <- order :: s in v0.owners.m
    requires forall i, j :: 0 <= i < j < |order| ==> order[i] != order[j]
    ensures PassInv(v0, Reconciled(v0, order, w, group), (set s | s in order), w, group)
  {
    if order == [] {
      ExpiringStartsPass(v0, w, group);
      assert (set s | s in order) == {};
    } else {
      var shorter := order[..|order| - 1];
      OneMoreVisited(order);
      RoundsKeepPass(v0, shorter, w, group);
      RoundKeepsPass(v0, Reconciled(v0, shorter, w, group), (set s | s in shorter), Last(order), w, group);
    }
  }

  /**
   One pass with a working backend and store, visiting the owners in whatever order: the
   old list in order, minus expired peers and minus the peers of rejected owners; sessions
   and records go exactly for rejected owners with an unexpired peer.
   */
  lemma WorkingPass(v: Vpn, order: seq<string>, w: World, group: string)
    requires Works(w) && Enumerates(order, v.owners.m.Keys)
    ensures var r := Reconciled(v, order, w, group);
            var out := Revokees(v, w, group);
            && r.svc.peers == Survivors(v.svc.peers, w.now,
                (set s | s in v.owners.m && Rejected(v.owners.m, s, w, group)))
            && r.owners.m == (map s | s in v.owners.m && s !in out :: RecordAfter(v.svc.peers, s, v.owners.m[s], w))
            && r.sessions == (map id | id in v.sessions && v.sessions[id].user.sub !in out :: v.sessions[id])
            && r.pending == v.pending
  {
    RoundsKeepPass(v, order, w, group);
    var all := Revokees(v, w, group);
    assert all * (set s | s in order) == all;
    SurvivorsOfRejected(v.svc.peers, w.now, all, set s | s in v.owners.m && Rejected(v.owners.m, s, w, group));
  }

  /** Naming rejected owners without unexpired peers removes nothing more. */
  lemma {:induction false} SurvivorsOfRejected(peers: seq<Peer>, now: nat, out: set<string>, rejected: set<string>)
    requires out <= rejected
    requires forall s | s in rejected && OwnedCount(Survivors(peers, now, {}), s) > 0 :: s in out
    ensures Survivors(peers, now, out) == Survivors(peers, now, rejected)
  {
    if peers != [] {
      var rest, p := peers[..|peers| - 1], Last(peers);
      var s0 := Survivors(rest, now, {});
      assert (s0 + [p])[..|s0|] == s0;
      SurvivorsOfRejected(rest, now, out, rejected);
    }
  }

  lemma {:induction false} RoundsWithoutRejection(v: Vpn, snapshot: Table, order: seq<string>, w: World, group: string)
    requires forall s <- order :: s in snapshot && s in v.owners.m && !Rejected(snapshot, s, w, group)
    ensures var r := Rounds(v, snapshot, order, w, group);
            && r.svc == v.svc && r.sessions == v.sessions && r.pending == v.pending
            && r.owners.m.Keys == v.owners.m.Keys
  {
    if order != [] {
      var before := order[..|order| - 1];
      RoundsWithoutRejection(v, snapshot, before, w, group);
      RefreshTouchesOne(Rounds(v, snapshot, before, w, group), Last(order), snapshot[Last(order)], w);
    }
  }

  /** An expiry pass loses only expired peers, whatever fails. */
  lemma ExpiringLosesExpired(v: Vpn, w: World)
    ensures forall p <- v.svc.peers :: p in Expiring(v, w).svc.peers || Matches(Expired(w.now), p)
    ensures forall p <- Expiring(v, w).svc.peers :: p in v.svc.peers
  {
    var m, n := Expired(w.now), |v.svc.peers|;
    PeerRuns.RemoveLeaves(v.svc, m, w.expiryFails, w.expirySave);
    PeerRuns.KeptMembers(v.svc.peers, m, w.expiryFails, n);
    forall p <- v.svc.peers ensures p in Kept(v.svc.peers, m, w.expiryFails, n) || Matches(m, p) {
      var i :| 0 <= i < n && v.svc.peers[i] == p;
    }
  }

  /**
   As long as the provider gives no definite rejection, a pass loses no session, no record and
   no unexpired peer, whichever backend calls and saves fail meanwhile.
   */
  lemma OutageKeepsPeers(v: Vpn, order: seq<string>, w: World, group: string)
    requires Enumerates(order, v.owners.m.Keys)
    requires forall s <- v.owners.m :: !Rejected(v.owners.m, s, w, group)
    ensures var r := Reconciled(v, order, w, group);
            && (forall p <- v.svc.peers :: p in r.svc.peers || Matches(Expired(w.now), p))
            && (forall p <- r.svc.peers :: p in v.svc.peers)
            && r.sessions == v.sessions && r.pending == v.pending
            && r.owners.m.Keys == v.owners.m.Keys
            && (Works(w) ==> r.svc.peers == Survivors(v.svc.peers, w.now, {}))
  {
    RoundsWithoutRejection(Expiring(v, w), v.owners.m, order, w, group);
    ExpiringLosesExpired(v, w);
    if Works(w) {
      ExpiringStartsPass(v, w, group);
      assert Revokees(v, w, group) * {} == {};
    }
  }
}

/**
 What the VPN service answers and changes, read from requests, replies and lists, so that the
 functions that decide rest on something else than themselves.
 */
module VpnAnswers {
  import opened Wrappers
  import opened AtomicFiles
  import opened AddressPool
  import opened PeerService
  import opened OwnerStores
  import opened SignIn
  import opened Reconciler
  import opened VpnHandlers
  import PeerRuns
  import ReconcilerDisks

  // ---------------------------------------------------------------- the reconcile pass

  predicate Unexpired(p: Peer, now: nat) {
    p.expiresAt.None? || now < p.expiresAt.value
  }

  /** The provider has said that this user is gone, or no longer in the group. */
  predicate Definite(reply: TokenReply, group: string) {
    || (reply.Refused? && (reply.code == "invalid_grant" || reply.status == Some(400) || reply.status == Some(401)))
    || (reply.Refreshed? && reply.id.Groups? && group !in reply.id.groups)
  }

  /** An owner whose refresh token was tried and met a definite answer. */
  predicate Lost(m: Table, sub: string, w: World, group: string) {
    sub in m && m[sub].refreshToken != "" && Definite(w.reply(sub), group)
  }

  lemma LostIsRejected(m: Table, sub: string, w: World, group: string)
    ensures Lost(m, sub, w, group) <==> Rejected(m, sub, w, group)
  {}

  lemma UnexpiredStays(p: Peer, now: nat)
    ensures Unexpired(p, now) <==> !Matches(Expired(now), p)
  {}

  /**
   While the provider is unreachable, answers with an error that is no verdict, or says
   nothing against the group, no unexpired peer, session or record goes, whatever else fails.
   */
  lemma OutageCostsNothing(v: Vpn, order: seq<string>, w: World, group: string)
    requires Enumerates(order, v.owners.m.Keys)
    requires forall s <- v.owners.m :: var reply := w.reply(s);
               || reply.Unreachable?
               || (reply.Refused? && reply.code != "invalid_grant" && reply.status != Some(400)
                   && reply.status != Some(401))
               || (reply.Refreshed? && (reply.id.Groups? ==> group in reply.id.groups))
    ensures var r := Reconciled(v, order, w, group);
            && (forall p <- v.svc.peers :: (p.expiresAt.None? || w.now < p.expiresAt.value) ==> p in r.svc.peers)
            && (forall p <- r.svc.peers :: p in v.svc.peers)
            && r.sessions == v.sessions && r.owners.m.Keys == v.owners.m.Keys
  {
    forall s <- v.owners.m ensures !Rejected(v.owners.m, s, w, group) {
      LostIsRejected(v.owners.m, s, w, group);
    }
    OutageKeepsPeers(v, order, w, group);
  }

  function OwnedAt(peers: seq<Peer>, sub: string): set<nat> {
    set i: nat | i < |peers| && peers[i].owner == sub
  }

  lemma {:induction false} CountsOwner(peers: seq<Peer>, sub: string)
    ensures OwnedCount(peers, sub) == |OwnedAt(peers, sub)|
  {
    if peers == [] {
      assert OwnedAt(peers, sub) == {};
    } else {
      var n := |peers| - 1;
      CountsOwner(peers[..n], sub);
      assert OwnedAt(peers, sub) == OwnedAt(peers[..n], sub) + if Last(peers).owner == sub then {n} else {};
    }
  }

  lemma {:induction false} SomeOwned(peers: seq<Peer>, sub: string)
    ensures OwnedCount(peers, sub) > 0 <==> exists p <- peers :: p.owner == sub
  {
    if peers != [] {
      SomeOwned(peers[..|peers| - 1], sub);
      assert peers == peers[..|peers| - 1] + [Last(peers)];
    }
  }

  /** A lost owner with an unexpired peer. */
  ghost predicate Revokes(v: Vpn, sub: string, w: World, group: string) {
    Lost(v.owners.m, sub, w, group) && exists p <- v.svc.peers :: p.owner == sub && Unexpired(p, w.now)
  }

  lemma RevokesAre(v: Vpn, sub: string, w: World, group: string)
    ensures Revokes(v, sub, w, group) <==> sub in Revokees(v, w, group)
  {
    LostIsRejected(v.owners.m, sub, w, group);
    SomeOwned(Survivors(v.svc.peers, w.now, {}), sub);
    ReconcilerDisks.SurvivorsAre(v.svc.peers, w.now, {});
  }

  /**
   One working pass, owner by owner: a peer stays exactly when it is unexpired and its owner is
   not lost; sessions and record go exactly for a lost owner with an unexpired peer.
   */
  lemma PassByOwner(v: Vpn, order: seq<string>, w: World, group: string)
    requires Works(w) && Enumerates(order, v.owners.m.Keys)
    ensures var r := Reconciled(v, order, w, group);
            && (forall p :: p in r.svc.peers <==>
                  p in v.svc.peers && Unexpired(p, w.now) && !Lost(v.owners.m, p.owner, w, group))
            && (forall s :: s in r.owners.m <==> s in v.owners.m && !Revokes(v, s, w, group))
            && (forall id :: id in r.sessions <==>
                  id in v.sessions && !Revokes(v, v.sessions[id].user.sub, w, group))
            && (forall id <- r.sessions :: r.sessions[id] == v.sessions[id])
  {
    WorkingPass(v, order, w, group);
    var lost := set s | s in v.owners.m && Rejected(v.owners.m, s, w, group);
    ReconcilerDisks.SurvivorsAre(v.svc.peers, w.now, lost);
    forall s ensures Lost(v.owners.m, s, w, group) <==> s in lost {
      LostIsRejected(v.owners.m, s, w, group);
    }
    forall s ensures Revokes(v, s, w, group) <==> s in Revokees(v, w, group) {
      RevokesAre(v, s, w, group);
    }
  }

  /** A definite answer costs an owner with a refresh token every peer, and no one else any. */
  lemma DefiniteAnswerRevokes(v: Vpn, order: seq<string>, w: World, group: string, sub: string)
    requires Works(w) && Enumerates(order, v.owners.m.Keys) && sub in v.owners.m && v.owners.m[sub].refreshToken != ""
    requires var reply := w.reply(sub);
             || (reply.Refused? && (reply.code == "invalid_grant" || reply.status == Some(400)
                 || reply.status == Some(401)))
             || (reply.Refreshed? && reply.id.Groups? && group !in reply.id.groups)
    ensures var r := Reconciled(v, order, w, group);
            && (forall p <- r.svc.peers :: p.owner != sub)
            && ((exists p <- v.svc.peers :: p.owner == sub && (p.expiresAt.None? || w.now < p.expiresAt.value)) ==>
                  sub !in r.owners.m && forall id <- r.sessions :: r.sessions[id].user.sub != sub)
  {
    PassByOwner(v, order, w, group);
  }

  /** An owner whose token the pass tries. */
  ghost predicate Tried(v: Vpn, sub: string, w: World) {
    && sub in v.owners.m && v.owners.m[sub].refreshToken != ""
    && exists p <- v.svc.peers :: p.owner == sub && Unexpired(p, w.now)
  }

  lemma TriedIs(v: Vpn, sub: string, w: World)
    requires sub in v.owners.m
    ensures Tried(v, sub, w) <==>
            v.owners.m[sub].refreshToken != "" && OwnedCount(Survivors(v.svc.peers, w.now, {}), sub) > 0
  {
    SomeOwned(Survivors(v.svc.peers, w.now, {}), sub);
    ReconcilerDisks.SurvivorsAre(v.svc.peers, w.now, {});
  }

  lemma RotatesTo(v: Vpn, sub: string, w: World)
    requires sub in v.owners.m
    ensures var reply, rec := w.reply(sub), v.owners.m[sub];
            RecordAfter(v.svc.peers, sub, rec, w) ==
              OwnerRecord(rec.name,
                          if Tried(v, sub, w) && reply.Refreshed? && reply.refresh != "" then reply.refresh
                          else rec.refreshToken)
  {
    TriedIs(v, sub, w);
  }

  /** After a working pass a record has the newest token the provider gave, under its old name. */
  lemma TokensAfterPass(v: Vpn, order: seq<string>, w: World, group: string, sub: string)
    requires Works(w) && Enumerates(order, v.owners.m.Keys)
    requires sub in v.owners.m && sub in Reconciled(v, order, w, group).owners.m
    ensures var reply, rec := w.reply(sub), v.owners.m[sub];
            Reconciled(v, order, w, group).owners.m[sub] ==
              OwnerRecord(rec.name,
                          if Tried(v, sub, w) && reply.Refreshed? && reply.refresh != "" then reply.refresh
                          else rec.refreshToken)
  {
    WorkingPass(v, order, w, group);
    RotatesTo(v, sub, w);
  }

  /** When removing a lost owner's peers meets an error, record and sessions stay. */
  lemma FailedRevokeKeepsAccess(v: Vpn, sub: string, w: World)
    requires exists i: nat :: i < |v.svc.peers| && v.svc.peers[i].owner == sub && i in w.revokeFails(sub)
    ensures Revoked(v, sub, w).owners == v.owners && Revoked(v, sub, w).sessions == v.sessions
  {
    var i: nat :| i < |v.svc.peers| && v.svc.peers[i].owner == sub && i in w.revokeFails(sub);
    assert Matches(ByOwner(sub), v.svc.peers[i]);
    assert SomeFail(v.svc.peers, ByOwner(sub), w.revokeFails(sub), |v.svc.peers|);
  }

  // ---------------------------------------------------------------- owner records

  /** A sign-in or rotation replaces the name, and the token only by a token. */
  lemma RecordAfterSet(o: Owners, sub: string, name: string, token: string, save: Outcome)
    ensures var m := SetRecord(o, sub, name, token, save).m;
            && sub in m && m[sub].name == name
            && (token != "" ==> m[sub].refreshToken == token)
            && (token == "" && sub in o.m ==> m[sub].refreshToken == o.m[sub].refreshToken)
            && (token == "" && sub !in o.m ==> m[sub].refreshToken == "")
            && (forall s | s != sub :: s in m <==> s in o.m) && (forall s | s in o.m && s != sub :: m[s] == o.m[s])
    ensures var d := SetRecord(o, sub, name, token, save).disk;
            if save.Done? then d.target == Whole(SetRecord(o, sub, name, token, save).m) else d.target == o.disk.target
  {}

  lemma RecordsAfterDelete(o: Owners, sub: string, save: Outcome)
    ensures var m := DeleteRecord(o, sub, save).m;
            && sub !in m && (forall s | s != sub :: s in m <==> s in o.m) && (forall s <- m :: m[s] == o.m[s])
    ensures var d := DeleteRecord(o, sub, save).disk;
            if save.Done? then d.target == Whole(DeleteRecord(o, sub, save).m) else d.target == o.disk.target
  {}

  // ---------------------------------------------------------------- who is admitted

  /** The user of a live session. */
  function Live(v: Vpn, who: Caller): Option<User> {
    if who.sid.Some? && who.sid.value in v.sessions && who.now <= v.sessions[who.sid.value].expires then
      Some(v.sessions[who.sid.value].user)
    else None
  }

  /** A request that changes something is admitted with a live session and from our origin only. */
  lemma RequireAnswers(v: Vpn, who: Caller)
    ensures var (r, answer) := RequireStep(v, who);
            && (answer.Ok? <==> Live(v, who).Some? && who.sameOrigin)
            && (answer.Ok? ==> answer.value == Live(v, who).value)
            && (answer == Err(CrossOrigin) <==> Live(v, who).Some? && !who.sameOrigin)
            && (answer == Err(NoSession) <==> Live(v, who).None?)
            && r.svc == v.svc && r.owners == v.owners && r.pending == v.pending
            && (forall id <- r.sessions :: id in v.sessions && r.sessions[id] == v.sessions[id])
            && (forall id <- v.sessions ::
                  id in r.sessions || (who.sid == Some(id) && who.now > v.sessions[id].expires))
  {}

  /** Nothing is created or deleted for a caller without a live session or from elsewhere. */
  lemma ForeignOriginChangesNothing(
    v: Vpn, c: Config, pool: Pool, who: Caller, name: string, key: KeyInput, cw: CreateWorld,
    id: string, fails: set<nat>, save: Outcome)
    requires pool.prefix.bits <= pool.prefix.width && (!who.sameOrigin || Live(v, who).None?)
    ensures var (made, peer) := CreateMineStep(v, c, pool, who, name, key, cw);
            && made.svc == v.svc && made.owners == v.owners
            && peer == Err(if Live(v, who).None? then NoSession else CrossOrigin)
    ensures var (gone, denied) := DeleteMineStep(v, who, id, fails, save);
            && gone.svc == v.svc && gone.owners == v.owners
            && denied == Some(if Live(v, who).None? then NoSession else CrossOrigin)
    ensures var out := LogoutStep(v, who);
            && out.svc == v.svc && out.owners == v.owners
            && forall s | s in v.sessions && who.now <= v.sessions[s].expires ::
                 s in out.sessions && out.sessions[s] == v.sessions[s]
  {
    RequireAnswers(v, who);
  }

  /** A logout that is admitted ends the caller's session and no other. */
  lemma LogoutEndsOwnSession(v: Vpn, who: Caller)
    requires Live(v, who).Some? && who.sameOrigin
    ensures LogoutStep(v, who) == v.(sessions := v.sessions - {who.sid.value})
  {
    RequireAnswers(v, who);
  }

  // ---------------------------------------------------------------- what removals remove

  /** Positions that a removal was asked for. */
  predicate AskedFor(m: Match, p: Peer) {
    match m
    case ById(id) => p.id == id
    case ByIdAndOwner(id, owner) => p.id == id && p.owner == owner
    case ByOwner(owner) => p.owner == owner
    case Expired(now) => p.expiresAt.Some? && p.expiresAt.value <= now
  }

  /** The positions whose removal the backend refused stay, all others that were asked for go. */
  lemma {:induction false} KeptPositions(peers: seq<Peer>, m: Match, fails: set<nat>, n: nat)
    requires n <= |peers|
    ensures forall p :: p in Kept(peers, m, fails, n) <==>
              exists i: nat :: i < n && peers[i] == p && !(AskedFor(m, p) && i !in fails)
    ensures |Kept(peers, m, fails, n)| == n <==> forall i: nat | i < n :: AskedFor(m, peers[i]) ==> i in fails
  {
    if n > 0 {
      KeptPositions(peers, m, fails, n - 1);
      var last := peers[n - 1];
      assert Matches(m, last) <==> AskedFor(m, last);
      var before := Kept(peers, m, fails, n - 1);
      forall p ensures p in Kept(peers, m, fails, n) <==>
                 exists i: nat :: i < n && peers[i] == p && !(AskedFor(m, p) && i !in fails)
      {
        if p in before {
          var i: nat :| i < n - 1 && peers[i] == p && !(AskedFor(m, p) && i !in fails);
        }
        if p == last && !(AskedFor(m, p) && n - 1 !in fails) {
          assert p in Kept(peers, m, fails, n);
        }
      }
    }
  }

  /** What one removal does to the list and what it reports, whatever fails. */
  lemma RemovalAnswers(st: State, m: Match, fails: set<nat>, save: Outcome)
    ensures var e := RemoveEffect(st, m, fails, save);
            var goes := exists i: nat :: i < |st.peers| && AskedFor(m, st.peers[i]) && i !in fails;
            var refused := exists i: nat :: i < |st.peers| && AskedFor(m, st.peers[i]) && i in fails;
            && (forall p <- e.peers :: p in st.peers)
            && (forall p <- st.peers :: p in e.peers || AskedFor(m, p))
            && (e.result.removed > 0 <==> goes && save.Done?)
            && (e.result.error == Some(SaveFailed) <==> goes && !save.Done?)
            && (e.result.error == Some(BackendFailed) <==> refused && (goes ==> save.Done?))
            && (e.result.error.None? <==> !refused && (goes ==> save.Done?))
            && (e.result.error.None? ==> forall p <- e.peers :: !AskedFor(m, p))
            && (!goes || !save.Done? ==> e.peers == st.peers)
  {
    var n := |st.peers|;
    KeptPositions(st.peers, m, fails, n);
    PeerRuns.NothingGone(st.peers, m, fails, n);
    assert st.peers[..n] == st.peers;
    RefusedPositions(st.peers, m, fails);
    forall p <- st.peers ensures p in Kept(st.peers, m, fails, n) || AskedFor(m, p) {
      var i: nat :| i < n && st.peers[i] == p;
    }
  }

  lemma RefusedPositions(peers: seq<Peer>, m: Match, fails: set<nat>)
    ensures SomeFail(peers, m, fails, |peers|) <==> exists i: nat :: i < |peers| && AskedFor(m, peers[i]) && i in fails
  {
    assert forall i: nat | i < |peers| :: Matches(m, peers[i]) <==> AskedFor(m, peers[i]);
  }

  /**
   Self-service delete touches the caller's own peer of that id and nothing else: every peer of
   another owner or id stays, success leaves none of that id and owner, and without failures
   the answer is not found exactly when there was none.
   */
  lemma DeleteMineOnlyOwn(v: Vpn, who: Caller, id: string, fails: set<nat>, save: Outcome)
    requires Live(v, who).Some? && who.sameOrigin
    ensures var sub := Live(v, who).value.sub;
            var (r, denied) := DeleteMineStep(v, who, id, fails, save);
            var some := exists p <- v.svc.peers :: p.id == id && p.owner == sub;
            && (forall p <- v.svc.peers :: p.id != id || p.owner != sub ==> p in r.svc.peers)
            && (forall p <- r.svc.peers :: p in v.svc.peers)
            && (denied.None? ==> some && forall p <- r.svc.peers :: !(p.id == id && p.owner == sub))
            && (denied == Some(Failed(NotFound)) ==> r.svc.peers == v.svc.peers)
            && (fails == {} && save.Done? ==>
                  && (denied == Some(Failed(NotFound)) <==> !some)
                  && (denied.None? <==> some))
            && r.owners == v.owners && r.sessions == v.sessions && r.pending == v.pending
  {
    RequireAnswers(v, who);
    var sub := Live(v, who).value.sub;
    RemovalAnswers(v.svc, ByIdAndOwner(id, sub), fails, save);
    AskedSomewhere(v.svc.peers, ByIdAndOwner(id, sub));
  }

  lemma AskedSomewhere(peers: seq<Peer>, m: Match)
    ensures (exists p <- peers :: AskedFor(m, p)) <==> exists i: nat :: i < |peers| && AskedFor(m, peers[i])
  {
    if exists p <- peers :: AskedFor(m, p) {
      var p :| p in peers && AskedFor(m, p);
      var i: nat :| i < |peers| && peers[i] == p;
    }
  }

  /** The admin's delete goes by the id alone. */
  lemma AdminDeleteOnlyThatId(v: Vpn, id: string, fails: set<nat>, save: Outcome)
    ensures var r := AdminDeleteStep(v, id, fails, save);
            var error := DeleteOneError(RemoveEffect(v.svc, ById(id), fails, save).result);
            var some := exists p <- v.svc.peers :: p.id == id;
            && (forall p <- v.svc.peers :: p.id != id ==> p in r.svc.peers)
            && (forall p <- r.svc.peers :: p in v.svc.peers)
            && (error.None? ==> some && forall p <- r.svc.peers :: p.id != id)
            && (fails == {} && save.Done? ==> (error == Some(NotFound) <==> !some) && (error.None? <==> some))
            && r.owners == v.owners && r.sessions == v.sessions
  {
    RemovalAnswers(v.svc, ById(id), fails, save);
    AskedSomewhere(v.svc.peers, ById(id));
  }

  // ---------------------------------------------------------------- what creates create

  /** Names are trimmed of Unicode spaces at both ends and of nothing else. */
  predicate Space(c: char) {
    || c as int in {0x09, 0x0a, 0x0b, 0x0c, 0x0d, 0x20, 0x85, 0xa0, 0x1680, 0x2028, 0x2029, 0x202f, 0x205f, 0x3000}
    || 0x2000 <= c as int <= 0x200a
  }

  predicate Spaces(s: string) {
    forall c <- s :: Space(c)
  }

  ghost predicate TrimmedTo(s: string, t: string) {
    && (exists i, j | 0 <= i <= j <= |s| :: t == s[i..j] && Spaces(s[..i]) && Spaces(s[j..]))
    && (t != "" ==> !Space(t[0]) && !Space(t[|t| - 1]))
  }

  lemma {:induction false} TrimIsSlice(s: string) returns (i: nat, j: nat)
    ensures i <= j <= |s| && TrimSpace(s) == s[i..j]
    ensures forall k | 0 <= k < i || j <= k < |s| :: IsSpace(s[k])
    decreases |s|
  {
    i, j := 0, |s|;
    if s != "" && IsSpace(s[0]) {
      i, j := TrimIsSlice(s[1..]);
      assert s[1..][i..j] == s[i + 1..j + 1];
      i, j := i + 1, j + 1;
    } else if s != "" && IsSpace(s[|s| - 1]) {
      i, j := TrimIsSlice(s[..|s| - 1]);
      assert s[..|s| - 1][i..j] == s[i..j];
    }
  }

  lemma TrimIsTrimmed(s: string)
    ensures TrimmedTo(s, TrimSpace(s))
  {
    var i, j := TrimIsSlice(s);
    assert forall c: char :: Space(c) <==> IsSpace(c);
    assert Spaces(s[..i]) && Spaces(s[j..]) && TrimSpace(s) == s[i..j];
  }

  predicate GoodName(n: string) {
    1 <= |n| <= 64 && forall c <- n :: !(c as int < 0x20 || 0x7f <= c as int <= 0x9f)
  }

  /** The key a request brings or gets, if there is one. */
  function KeyOf(k: KeyInput): Option<Key> {
    if k.Supplied? && k.wellFormed then Some(k.key) else if k.Generated? then k.pair else None
  }

  /** The count of an owner's peers, position by position. */
  ghost function CountOf(peers: seq<Peer>, owner: string): nat {
    |OwnedAt(peers, owner)|
  }

  predicate Free(pool: Pool, peers: seq<Peer>, a: nat)
    requires pool.prefix.bits <= pool.prefix.width
  {
    pool.prefix.base + 1 < a < pool.prefix.base + pool.prefix.Size() - 1 && forall p <- peers :: p.address != Addr(a)
  }

  ghost predicate AtLimit(peers: seq<Peer>, opt: CreateOptions) {
    opt.maxPerOwner > 0 && opt.owner != "" && CountOf(peers, opt.owner) >= opt.maxPerOwner
  }

  lemma AdmitAnswers(pool: Pool, peers: seq<Peer>, key: Key, opt: CreateOptions)
    requires pool.prefix.bits <= pool.prefix.width
    ensures var r := Admit(pool, peers, key, opt);
            var taken := exists p <- peers :: p.publicKey == key;
            && (r == Err(DuplicateKey) <==> taken)
            && (r == Err(LimitReached) <==> !taken && AtLimit(peers, opt))
            && (r == Err(Exhausted) <==> !taken && !AtLimit(peers, opt) && forall a: nat :: !Free(pool, peers, a))
            && (r.Ok? <==> !taken && !AtLimit(peers, opt) && exists a: nat :: Free(pool, peers, a))
            && (r.Ok? ==> Free(pool, peers, r.value) && forall a: nat | a < r.value :: !Free(pool, peers, a))
  {
    CountsOwner(peers, opt.owner);
    forall a: nat ensures Free(pool, peers, a) <==> pool.Assignable(a) && a !in Addresses(peers) {
      if a in Addresses(peers) {
        var p :| p in peers && p.address.Addr? && p.address.a == a;
      }
    }
  }

  /** Which answer a create gives, in the order in which its checks come. */
  lemma CreateAnswers(pool: Pool, st: State, req: CreateRequest, w: CreateWorld)
    requires pool.prefix.bits <= pool.prefix.width
    ensures var r := CreateEffect(pool, st, req, w).result;
            var named := GoodName(TrimSpace(req.name)); var key := KeyOf(req.key);
            var admitted := named && key.Some? && Admit(pool, st.peers, key.value, req.opt).Ok?;
            && (r == Err(Invalid) <==> !named || (req.key.Supplied? && !req.key.wellFormed))
            && (r == Err(KeyGeneration) <==> named && req.key == Generated(None))
            && (r == Err(Random) <==> admitted && w.id.None?)
            && (r == Err(BackendFailed) <==> admitted && w.id.Some? && !w.addOk)
            && (r == Err(SaveFailed) <==> admitted && w.id.Some? && w.addOk && !w.save.Done?)
            && (r.Ok? <==> admitted && w.id.Some? && w.addOk && w.save.Done?)
            && (named && key.Some? && !admitted ==> r == Err(Admit(pool, st.peers, key.value, req.opt).error))
  {
    if KeyOf(req.key).Some? {
      AdmitAnswers(pool, st.peers, KeyOf(req.key).value, req.opt);
    }
  }

  /** The peer that a create lists, field by field. */
  lemma CreatedPeer(pool: Pool, st: State, req: CreateRequest, w: CreateWorld)
    requires pool.prefix.bits <= pool.prefix.width && CreateEffect(pool, st, req, w).result.Ok?
    ensures var e := CreateEffect(pool, st, req, w);
            var p := e.result.value;
            && e.peers == st.peers + [p]
            && TrimmedTo(req.name, p.name) && GoodName(p.name)
            && Some(p.id) == w.id && Some(p.publicKey) == KeyOf(req.key)
            && p.owner == req.opt.owner && p.ownerName == req.opt.ownerName
            && p.createdAt <= w.now < p.createdAt + 1_000_000_000 && p.createdAt % 1_000_000_000 == 0
            && p.expiresAt == (if req.opt.ttl > 0 then Some(p.createdAt + req.opt.ttl) else None)
  {
    TrimIsTrimmed(req.name);
    WholeSeconds(w.now);
  }

  lemma WholeSeconds(now: nat)
    ensures now - now % SECOND <= now < now - now % SECOND + 1_000_000_000
    ensures now - now % SECOND >= 0 && (now - now % SECOND) % 1_000_000_000 == 0
  {
    MaskedIsValid(now, SECOND);
  }

  /** Its address is the lowest free one, and the backend has it under its key. */
  lemma CreatedAddress(pool: Pool, st: State, req: CreateRequest, w: CreateWorld)
    requires pool.prefix.bits <= pool.prefix.width && CreateEffect(pool, st, req, w).result.Ok?
    ensures var e := CreateEffect(pool, st, req, w);
            var p := e.result.value;
            && p.address.Addr? && Free(pool, st.peers, p.address.a)
            && (forall a: nat | a < p.address.a :: !Free(pool, st.peers, a))
            && After(e).durable.backend == st.durable.backend[p.publicKey := p.address]
  {
    AdmitAnswers(pool, st.peers, ResolveKey(req.key).value, req.opt);
  }

  /** Self-service creates for the caller, for the configured time and up to the configured number. */
  lemma CreateMineAnswers(
    v: Vpn, c: Config, pool: Pool, who: Caller, name: string, key: KeyInput, cw: CreateWorld)
    requires pool.prefix.bits <= pool.prefix.width && CreateMineStep(v, c, pool, who, name, key, cw).1.Ok?
    ensures Live(v, who).Some? && who.sameOrigin
    ensures var (r, made) := CreateMineStep(v, c, pool, who, name, key, cw);
            var u, p := Live(v, who).value, made.value;
            && r.svc.peers == v.svc.peers + [p] && p.owner == u.sub && p.ownerName == u.name
            && p.expiresAt == (if c.peerTTL > 0 then Some(p.createdAt + c.peerTTL) else None)
            && (c.maxPeers > 0 && u.sub != "" ==> CountOf(v.svc.peers, u.sub) < c.maxPeers)
            && r.owners == v.owners && r.sessions == v.sessions
  {
    RequireAnswers(v, who);
    var u := Live(v, who).value;
    var req := CreateRequest(name, key, CreateOptions(u.sub, u.name, c.peerTTL, c.maxPeers));
    CreatedPeer(pool, v.svc, req, cw);
    CreatedUnderLimit(pool, v.svc, req, cw);
  }

  lemma CreatedUnderLimit(pool: Pool, st: State, req: CreateRequest, w: CreateWorld)
    requires pool.prefix.bits <= pool.prefix.width && CreateEffect(pool, st, req, w).result.Ok?
    ensures req.opt.maxPerOwner > 0 && req.opt.owner != "" ==> CountOf(st.peers, req.opt.owner) < req.opt.maxPerOwner
  {
    CountsOwner(st.peers, req.opt.owner);
  }

  /** The admin's peers have no owner and never expire, and no limit stops them. */
  lemma AdminCreates(v: Vpn, pool: Pool, name: string, key: KeyInput, cw: CreateWorld)
    requires pool.prefix.bits <= pool.prefix.width
    ensures var r := AdminCreateStep(v, pool, name, key, cw);
            && r.owners == v.owners && r.sessions == v.sessions && r.pending == v.pending
            && (r.svc.peers == v.svc.peers
                || exists p ::
                     r.svc.peers == v.svc.peers + [p] && p.owner == "" && p.ownerName == "" && p.expiresAt.None?)
            && (r.svc.peers != v.svc.peers <==>
                  && GoodName(TrimSpace(name)) && KeyOf(key).Some? && cw.id.Some? && cw.addOk && cw.save.Done?
                  && (forall p <- v.svc.peers :: p.publicKey != KeyOf(key).value)
                  && exists a: nat :: Free(pool, v.svc.peers, a))
  {
    var req := CreateRequest(name, key, CreateOptions("", "", 0, 0));
    CreateAnswers(pool, v.svc, req, cw);
    if CreateEffect(pool, v.svc, req, cw).result.Ok? {
      CreatedPeer(pool, v.svc, req, cw);
    } else {
      RefusedKeepsList(pool, v.svc, req, cw);
    }
    if KeyOf(key).Some? {
      AdmitAnswers(pool, v.svc.peers, KeyOf(key).value, req.opt);
    }
  }

  lemma RefusedKeepsList(pool: Pool, st: State, req: CreateRequest, w: CreateWorld)
    requires pool.prefix.bits <= pool.prefix.width && CreateEffect(pool, st, req, w).result.Err?
    ensures CreateEffect(pool, st, req, w).peers == st.peers
  {}

  /** The list a user sees: the peers of that owner, each as often as it is listed. */
  lemma OwnedAreTheirs(peers: seq<Peer>, owner: string)
    ensures forall p :: p in Owned(peers, owner) <==> p in peers && p.owner == owner
    ensures |Owned(peers, owner)| == CountOf(peers, owner)
  {
    OwnedMembers(peers, owner);
    CountsOwner(peers, owner);
  }

  lemma {:induction false} OwnedMembers(peers: seq<Peer>, owner: string)
    ensures forall p :: p in Owned(peers, owner) <==> p in peers && p.owner == owner
    ensures |Owned(peers, owner)| == OwnedCount(peers, owner)
  {
    if peers != [] {
      OwnedMembers(peers[..|peers| - 1], owner);
      assert peers == peers[..|peers| - 1] + [Last(peers)];
    }
  }

  // ---------------------------------------------------------------- starts

  /** A start succeeds exactly when the file is absent, or whole with addresses that the backend takes. */
  lemma StartAnswers(d: Durable, readOk: bool, fails: set<nat>)
    ensures var e := RestoreEffect(d, readOk, fails);
            var ps := if d.disk.target.Whole? then d.disk.target.value else [];
            && (e.result.None? <==>
                  || d.disk.target.Absent?
                  || (d.disk.target.Whole? && readOk && AllApplied(ps, fails, |ps|)))
            && (e.result == Some(ReadFailed) <==> !d.disk.target.Absent? && !readOk)
            && (e.result == Some(BadJson) <==> d.disk.target.Torn? && readOk)
            && (e.result == Some(BadAddress) <==>
                  d.disk.target.Whole? && readOk
                  && exists i: nat :: i < |ps| && ps[i].address.Garbled? && AllApplied(ps, fails, i))
            && (e.result.None? ==> e.peers == ps)
  {
    if d.disk.target.Whole? && readOk {
      StopsAtFirst(d.disk.target.value, fails);
    }
  }

  /** The first peer that a start cannot apply. */
  lemma StopsAtFirst(ps: seq<Peer>, fails: set<nat>)
    ensures var stop := StopAt(ps, fails, 0);
            && (stop == |ps| <==> AllApplied(ps, fails, |ps|))
            && (stop < |ps| && ps[stop].address.Garbled? <==>
                  exists i: nat :: i < |ps| && ps[i].address.Garbled? && AllApplied(ps, fails, i))
  {
    var stop := StopAt(ps, fails, 0);
    forall j: nat | j < stop ensures !ps[j].address.Garbled? && j !in fails {
      assert Applies(ps, fails, j);
    }
    assert AllApplied(ps, fails, stop);
    if stop < |ps| {
      assert !Applies(ps, fails, stop);
      assert ps[stop].address.Garbled? || stop in fails;
    }
  }

  predicate AllApplied(ps: seq<Peer>, fails: set<nat>, i: nat)
    requires i <= |ps|
  {
    forall j | 0 <= j < i :: !ps[j].address.Garbled? && j !in fails
  }

  // ---------------------------------------------------------------- sign-ins

  /** A sign-in waits ten minutes and 1000 may wait; those that expired do not count. */
  lemma LoginAnswers(pending: Pendings, now: int, state: string, nonce: string, verifier: string)
    ensures var (r, ok) := LoginSection(pending, now, state, nonce, verifier);
            var live := set k | k in pending && now <= pending[k].expires;
            && (ok <==> |live| < 1000)
            && (forall k | k != state || !ok :: k in r <==> k in live)
            && (forall k | k in r && (k != state || !ok) :: r[k] == pending[k])
            && (ok ==> state in r && r[state] == PendingLogin(verifier, nonce, now + 600_000_000_000))
  {
    var live := set k | k in pending && now <= pending[k].expires;
    assert Prune(pending, now).Keys == live;
    assert |Prune(pending, now)| == |Prune(pending, now).Keys|;
  }

  /**
   A callback signs in exactly when its cookie carries the state, the state waits unexpired,
   the exchange gives a verified token with the nonce, a subject and the group, and the record
   can be saved.  With the right cookie the state is used up in any case, without it nothing changes.
   */
  lemma CallbackAnswers(v: Vpn, c: Config, r: CallbackRequest)
    ensures var (after, answer) := CallbackStep(v, c, r);
            var cookie := r.cookie == Some(r.state) && r.state != "";
            var login := if r.state in v.pending then Some(v.pending[r.state]) else None;
            && (!cookie ==> after == v && answer == Err(StateMismatch))
            && (cookie ==> after.pending == v.pending - {r.state} && answer != Err(StateMismatch))
            && (answer.Ok? <==>
                  && cookie && login.Some? && r.now <= login.value.expires && r.error == "" && r.code != ""
                  && r.ex.Tokens? && r.ex.idToken.Verified? && r.ex.idToken.nonce == login.value.nonce
                  && r.ex.idToken.subject != "" && r.ex.idToken.claims.Some?
                  && c.group in r.ex.idToken.claims.value.groups && r.save.Done?)
            && (answer == Err(LoginExpired) <==> cookie && (login.None? || r.now > login.value.expires))
            && after.svc == v.svc
  {}

  lemma CallbackOpens(v: Vpn, c: Config, r: CallbackRequest)
    requires CallbackStep(v, c, r).1.Ok?
    ensures var (after, answer) := CallbackStep(v, c, r);
            var claims := r.ex.idToken.claims.value; var sub := r.ex.idToken.subject;
            var name := if claims.preferredUsername != "" then claims.preferredUsername
                        else if claims.email != "" then claims.email else sub;
            && answer.value == User(sub, name)
            && after.sessions == v.sessions[r.sid := Session(User(sub, name), r.openedAt + 28_800_000_000_000)]
            && sub in after.owners.m && after.owners.m[sub].name == name
            && (r.ex.refresh != "" ==> after.owners.m[sub].refreshToken == r.ex.refresh)
            && (r.ex.refresh == "" && sub in v.owners.m ==>
                  after.owners.m[sub].refreshToken == v.owners.m[sub].refreshToken)
  {}

  /** A callback that does not sign in opens no session. */
  lemma FailedCallbackOpensNothing(v: Vpn, c: Config, r: CallbackRequest)
    requires CallbackStep(v, c, r).1.Err?
    ensures CallbackStep(v, c, r).0.sessions == v.sessions
    ensures !CallbackStep(v, c, r).1.error.StoreFailed? ==> CallbackStep(v, c, r).0.owners == v.owners
  {}
}

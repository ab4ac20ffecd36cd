/**
 Isolation over packet runs: the forward chain together with the connection table.  Which
 entry a packet belongs to is the environment's choice, within what `Plausible` allows:
 hosts stay behind their interfaces, related packets stay between the two interfaces of
 their parent, and no flow is destination-translated.
 */
module FirewallRuns {
  import opened Wrappers
  import opened Firewall

  /** A confirmed entry, by the packet that opened it.  Expected flows have a parent. */
  datatype Flow = Flow(first: Packet, parent: Option<nat>, replied: bool)

  /** `flows` is history and only grows; `live` are the entries that have not timed out. */
  datatype Table = Table(flows: seq<Flow>, live: set<nat>)

  datatype Tie =
    | Opening
    | Original(id: nat)
    | Reply(id: nat)
    | Errand(id: nat)    // related to an entry, such as an ICMP error; makes no entry
    | Expected(id: nat)  // related to an entry through a helper; makes an entry of its own
    | Bad

  datatype Event = Arrive(p: Packet, tie: Tie) | Timeout(id: nat)

  predicate SamePair(p: Packet, q: Packet) {
    (p.iif == q.iif && p.oif == q.oif) || (p.iif == q.oif && p.oif == q.iif)
  }

  predicate Plausible(t: Table, p: Packet, tie: Tie) {
    && !p.dnat
    && match tie
       case Opening => true
       case Bad => true
       case Original(id) => id in t.live && id < |t.flows| && p.iif == t.flows[id].first.iif
           && p.oif == t.flows[id].first.oif
       case Reply(id) => id in t.live && id < |t.flows| && p.iif == t.flows[id].first.oif
           && p.oif == t.flows[id].first.iif
       case Errand(id) => id in t.live && id < |t.flows| && SamePair(p, t.flows[id].first)
       case Expected(id) => id in t.live && id < |t.flows| && SamePair(p, t.flows[id].first)
  }

  /** The state matched by `ct state`: original packets stay new until a reply was seen. */
  function StateOf(t: Table, tie: Tie): Ct
    requires tie.Original? ==> tie.id < |t.flows|
  {
    match tie
    case Opening => New
    case Original(id) => if t.flows[id].replied then Established else if t.flows[id].parent.Some? then Related else New
    case Reply(_) => Established
    case Errand(_) => Related
    case Expected(_) => Related
    case Bad => Invalid
  }

  predicate Forwards(i: Interfaces, c: Comments, t: Table, p: Packet, tie: Tie) {
    Plausible(t, p, tie) && Forward(i, c, p, StateOf(t, tie)) == Accept
  }

  function Confirm(t: Table, f: Flow): Table {
    Table(t.flows + [f], t.live + {|t.flows|})
  }

  function Step(i: Interfaces, c: Comments, t: Table, e: Event): Table {
    match e
    case Timeout(id) => t.(live := t.live - {id})
    case Arrive(p, tie) =>
      if !Forwards(i, c, t, p, tie) then t
      else
        match tie
        case Opening => Confirm(t, Flow(p, None, false))
        case Expected(id) => Confirm(t, Flow(p, Some(id), false))
        case Reply(id) => t.(flows := t.flows[id := t.flows[id].(replied := true)])
        case _ => t
  }

  function Run(i: Interfaces, c: Comments, events: seq<Event>): Table {
    if events == [] then Table([], {})
    else Step(i, c, Run(i, c, events[..|events| - 1]), events[|events| - 1])
  }

  /** The flow that a chain of expectations goes back to. */
  function Root(t: Table, id: nat): (r: nat)
    requires id < |t.flows|
    requires forall k :: 0 <= k < |t.flows| && t.flows[k].parent.Some? ==> t.flows[k].parent.value < k
    ensures r <= id && t.flows[r].parent.None?
  {
    match t.flows[id].parent
    case None => id
    case Some(up) => Root(t, up)
  }

  // ---------------------------------------------------------------- the invariant

  /** Every flow without a parent was accepted as new; the others share their parent's interfaces. */
  ghost predicate Inv(i: Interfaces, c: Comments, t: Table) {
    && (forall k :: 0 <= k < |t.flows| && t.flows[k].parent.Some? ==>
          t.flows[k].parent.value < k && SamePair(t.flows[k].first, t.flows[t.flows[k].parent.value].first))
    && (forall k :: 0 <= k < |t.flows| && t.flows[k].parent.None? ==>
          !t.flows[k].first.dnat && Forward(i, c, t.flows[k].first, New) == Accept)
  }

  lemma StepKeepsInv(i: Interfaces, c: Comments, t: Table, e: Event)
    requires Inv(i, c, t)
    ensures Inv(i, c, Step(i, c, t, e))
  {
    var t' := Step(i, c, t, e);
    assert forall k | 0 <= k < |t.flows| ::
             t'.flows[k].first == t.flows[k].first && t'.flows[k].parent == t.flows[k].parent;
  }

  lemma {:induction false} RunKeepsInv(i: Interfaces, c: Comments, events: seq<Event>)
    ensures Inv(i, c, Run(i, c, events))
  {
    if events != [] {
      RunKeepsInv(i, c, events[..|events| - 1]);
      StepKeepsInv(i, c, Run(i, c, events[..|events| - 1]), events[|events| - 1]);
    }
  }

  lemma {:induction false} RootSharesPair(i: Interfaces, c: Comments, t: Table, id: nat)
    requires Inv(i, c, t) && id < |t.flows|
    ensures SamePair(t.flows[id].first, t.flows[Root(t, id)].first)
  {
    if t.flows[id].parent.Some? {
      RootSharesPair(i, c, t, t.flows[id].parent.value);
    }
  }

  /** The entry a forwarded packet belongs or is related to. */
  function EntryOf(tie: Tie): nat {
    if tie.Opening? || tie.Bad? then 0 else tie.id
  }

  /** What any forwarded packet rests on: it is new, or its root flow was once accepted as new. */
  lemma ForwardedRestsOnNew(i: Interfaces, c: Comments, events: seq<Event>, p: Packet, tie: Tie)
    requires var t := Run(i, c, events); Forwards(i, c, t, p, tie)
    ensures var t := Run(i, c, events);
            && Inv(i, c, t)
            && !tie.Bad?
            && (tie.Opening? ==> Forward(i, c, p, New) == Accept)
            && (!tie.Opening? ==>
                  var id := EntryOf(tie);
                  && id < |t.flows|
                  && var first := t.flows[Root(t, id)].first;
                     SamePair(p, first) && !first.dnat && Forward(i, c, first, New) == Accept)
  {
    var t := Run(i, c, events);
    RunKeepsInv(i, c, events);
    if tie.Bad? {
      TrackedVerdict(i, c, p, Invalid);
    } else if !tie.Opening? {
      RootSharesPair(i, c, t, EntryOf(tie));
    }
  }

  // ---------------------------------------------------------------- server isolation

  /** No new flow from the server interface to the LAN is ever accepted without SRV_TO_LAN. */
  lemma NoNewServerToLan(i: Interfaces, c: Comments, p: Packet)
    requires Valid(i) && c.srvLan != "" && !p.dnat && p.iif == i.srv && p.oif == i.lan
    ensures Forward(i, c, p, New) == Drop
  {
    NewFlowAccepted(i, c, p);
  }

  /**
   When SRV_TO_LAN is missing or not "1", or the server segment is not switched on, every
   forwarded server-to-LAN packet belongs or is related to a flow whose first packet went
   from the LAN to the server.
   */
  lemma ServersAreIsolated(i: Interfaces, env: Env, c: Comments, events: seq<Event>, p: Packet, tie: Tie)
    requires Valid(i) && c == CommentsFor(env)
    requires || "SRV_TO_LAN" !in env || env["SRV_TO_LAN"] != "1"
             || !SaysOver(env, "SRV_ENABLE", "SRV_ENABLE_OVERRIDE")
    requires var t := Run(i, c, events); Forwards(i, c, t, p, tie)
    requires p.iif == i.srv && p.oif == i.lan
    ensures var t := Run(i, c, events);
            && Inv(i, c, t)
            && !tie.Opening? && !tie.Bad? && EntryOf(tie) < |t.flows|
            && var first := t.flows[Root(t, EntryOf(tie))].first;
               first.iif == i.lan && first.oif == i.srv
  {
    CommentsFollowEntries(env);
    ForwardedRestsOnNew(i, c, events, p, tie);
    if tie.Opening? {
      NoNewServerToLan(i, c, p);
    } else {
      var t := Run(i, c, events);
      var first := t.flows[Root(t, EntryOf(tie))].first;
      if first.iif == i.srv && first.oif == i.lan {
        NoNewServerToLan(i, c, first);
      }
    }
  }

  // ---------------------------------------------------------------- VPN isolation

  /** New flows between LAN and peers: never outwards, inwards only past both VPN lines. */
  lemma NewBetweenPeersAndLan(i: Interfaces, c: Comments, p: Packet)
    requires Valid(i) && !p.dnat && (c.vpnLan == "" ==> c.vpn == "")
    ensures p.iif == i.lan && p.oif == i.wg ==> Forward(i, c, p, New) == Drop
    ensures p.iif == i.wg && p.oif == i.lan ==>
              (Forward(i, c, p, New) == Accept <==> c.vpnLan == "" && (p.six || i.wgNet4.Has(p.saddr)))
  {
    NewFlowAccepted(i, c, p);
  }

  /** What a forwarded peer-to-LAN packet rests on. */
  lemma PeerToLanRoot(i: Interfaces, c: Comments, events: seq<Event>, p: Packet, tie: Tie)
    requires Valid(i) && (c.vpnLan == "" ==> c.vpn == "")
    requires var t := Run(i, c, events); Forwards(i, c, t, p, tie)
    requires p.iif == i.wg && p.oif == i.lan
    ensures var t := Run(i, c, events);
            && Inv(i, c, t)
            && !tie.Bad? && (!tie.Opening? ==> EntryOf(tie) < |t.flows|)
            && var first := if tie.Opening? then p else t.flows[Root(t, EntryOf(tie))].first;
               && first.iif == i.wg && first.oif == i.lan
               && c.vpnLan == "" && (first.six || i.wgNet4.Has(first.saddr))
  {
    ForwardedRestsOnNew(i, c, events, p, tie);
    var t := Run(i, c, events);
    NewBetweenPeersAndLan(i, c, if tie.Opening? then p else t.flows[Root(t, EntryOf(tie))].first);
  }

  /**
   When VPN_TO_LAN is missing or not "1", or the VPN is not switched on, no run forwards a
   packet from a peer to the LAN.
   */
  lemma PeersAreIsolated(i: Interfaces, env: Env, c: Comments, events: seq<Event>, p: Packet, tie: Tie)
    requires Valid(i) && c == CommentsFor(env)
    requires || "VPN_TO_LAN" !in env || env["VPN_TO_LAN"] != "1"
             || !SaysOver(env, "VPN_ENABLE", "VPN_ENABLE_OVERRIDE")
    requires p.iif == i.wg && p.oif == i.lan
    ensures !Forwards(i, c, Run(i, c, events), p, tie)
  {
    CommentsFollowEntries(env);
    if Forwards(i, c, Run(i, c, events), p, tie) {
      PeerToLanRoot(i, c, events, p, tie);
    }
  }

  /**
   With VPN_TO_LAN on, every forwarded IPv4 peer-to-LAN packet goes back to a flow that a
   peer opened towards the LAN, and that flow's IPv4 source lay in VPN_NET4.
   */
  lemma PeersStayInTheirNet(i: Interfaces, env: Env, c: Comments, events: seq<Event>, p: Packet, tie: Tie)
    requires Valid(i) && c == CommentsFor(env)
    requires var t := Run(i, c, events); Forwards(i, c, t, p, tie)
    requires p.iif == i.wg && p.oif == i.lan
    ensures var t := Run(i, c, events);
            && Inv(i, c, t) && !tie.Bad? && (!tie.Opening? ==> EntryOf(tie) < |t.flows|)
            && var first := if tie.Opening? then p else t.flows[Root(t, EntryOf(tie))].first;
               first.iif == i.wg && first.oif == i.lan && (!first.six ==> i.wgNet4.Has(first.saddr))
  {
    CommentsFollowEntries(env);
    PeerToLanRoot(i, c, events, p, tie);
  }

  /**
   The source rule looks at IPv4 only: an opening peer-to-LAN packet gets past it without
   a source in VPN_NET4 exactly when it is IPv6.
   */
  lemma SourceRuleIsIpv4Only(i: Interfaces, env: Env, c: Comments, events: seq<Event>, p: Packet)
    requires Valid(i) && c == CommentsFor(env)
    requires "VPN_TO_LAN" in env && env["VPN_TO_LAN"] == "1" && SaysOver(env, "VPN_ENABLE", "VPN_ENABLE_OVERRIDE")
    requires p.iif == i.wg && p.oif == i.lan && !p.dnat && !i.wgNet4.Has(p.saddr)
    ensures Forwards(i, c, Run(i, c, events), p, Opening) <==> p.six
  {
    CommentsFollowEntries(env);
    NewBetweenPeersAndLan(i, c, p);
  }
}

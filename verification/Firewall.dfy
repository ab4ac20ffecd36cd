/**
 The forward chain of the router: a first-match rule list whose optional lines are
 commented out by the variables that `load_env` derives from the `.env` flags.
 */
module Firewall {
  import opened Prefixes

  // ---------------------------------------------------------------- load_env

  type Env = map<string, string>

  /** `: "${NAME:=default}"` followed by the override, where one exists. */
  function Setting(env: Env, name: string, default: string): string {
    if name in env && env[name] != "" then env[name] else default
  }

  function Overridden(env: Env, name: string, override: string, default: string): string {
    if override in env && env[override] != "" then env[override] else Setting(env, name, default)
  }

  function SrvOn(env: Env): bool {
    Overridden(env, "SRV_ENABLE", "SRV_ENABLE_OVERRIDE", "0") == "1"
  }

  function SrvToLanOn(env: Env): bool {
    SrvOn(env) && Setting(env, "SRV_TO_LAN", "0") == "1"
  }

  function VpnOn(env: Env): bool {
    Overridden(env, "VPN_ENABLE", "VPN_ENABLE_OVERRIDE", "0") == "1"
  }

  function VpnToLanOn(env: Env): bool {
    VpnOn(env) && Setting(env, "VPN_TO_LAN", "0") == "1"
  }

  function DockerOn(env: Env): bool {
    Overridden(env, "DOCKER_COMPAT", "DOCKER_COMPAT_OVERRIDE", "0") == "1"
  }

  /** The text put in front of a gated line: nothing, or a comment sign. */
  datatype Comments = Comments(srv: string, srvLan: string, vpn: string, vpnLan: string, docker: string)

  function Gated(on: bool): string {
    if on then "" else "# "
  }

  /** What `load_env` makes of the flags. */
  function CommentsFor(env: Env): Comments {
    Comments(Gated(SrvOn(env)), Gated(SrvToLanOn(env)), Gated(VpnOn(env)), Gated(VpnToLanOn(env)), Gated(DockerOn(env)))
  }

  /** The entry is there and says 1. */
  predicate Says(env: Env, name: string) {
    name in env && env[name] == "1"
  }

  /** The override says 1, or it is missing or empty and the entry says 1. */
  predicate SaysOver(env: Env, name: string, override: string) {
    if override in env && env[override] != "" then env[override] == "1" else name in env && env[name] == "1"
  }

  /** A line is active exactly when the entries of the environment say so. */
  predicate FollowsEntries(env: Env, c: Comments) {
    && c.srv == (if SaysOver(env, "SRV_ENABLE", "SRV_ENABLE_OVERRIDE") then "" else "# ")
    && c.srvLan == (if SaysOver(env, "SRV_ENABLE", "SRV_ENABLE_OVERRIDE") && Says(env, "SRV_TO_LAN") then "" else "# ")
    && c.vpn == (if SaysOver(env, "VPN_ENABLE", "VPN_ENABLE_OVERRIDE") then "" else "# ")
    && c.vpnLan == (if SaysOver(env, "VPN_ENABLE", "VPN_ENABLE_OVERRIDE") && Says(env, "VPN_TO_LAN") then "" else "# ")
    && c.docker == (if SaysOver(env, "DOCKER_COMPAT", "DOCKER_COMPAT_OVERRIDE") then "" else "# ")
  }

  /** Defaults and overrides in sequence come to what the entries say. */
  lemma CommentsFollowEntries(env: Env)
    ensures FollowsEntries(env, CommentsFor(env))
  {}

  method LoadEnv(env: Env) returns (c: Comments)
    ensures c == CommentsFor(env) && FollowsEntries(env, c)
  {
    var srvEnable := Setting(env, "SRV_ENABLE", "0");
    if "SRV_ENABLE_OVERRIDE" in env && env["SRV_ENABLE_OVERRIDE"] != "" {
      srvEnable := env["SRV_ENABLE_OVERRIDE"];
    }
    var srvToLan := Setting(env, "SRV_TO_LAN", "0");
    var vpnEnable := Setting(env, "VPN_ENABLE", "0");
    if "VPN_ENABLE_OVERRIDE" in env && env["VPN_ENABLE_OVERRIDE"] != "" {
      vpnEnable := env["VPN_ENABLE_OVERRIDE"];
    }
    var vpnToLan := Setting(env, "VPN_TO_LAN", "0");
    var dockerCompat := Setting(env, "DOCKER_COMPAT", "0");
    if "DOCKER_COMPAT_OVERRIDE" in env && env["DOCKER_COMPAT_OVERRIDE"] != "" {
      dockerCompat := env["DOCKER_COMPAT_OVERRIDE"];
    }

    assert (srvEnable == "1" <==> SrvOn(env)) && (vpnEnable == "1" <==> VpnOn(env));
    assert dockerCompat == "1" <==> DockerOn(env);

    var srvCmt, srvLanCmt, vpnCmt, vpnLanCmt, dockerCmt;
    if srvEnable == "1" {
      srvCmt := "";
    } else {
      srvCmt := "# ";
    }
    if srvEnable == "1" && srvToLan == "1" {
      srvLanCmt := "";
    } else {
      srvLanCmt := "# ";
    }
    if vpnEnable == "1" {
      vpnCmt := "";
    } else {
      vpnCmt := "# ";
    }
    if vpnEnable == "1" && vpnToLan == "1" {
      vpnLanCmt := "";
    } else {
      vpnLanCmt := "# ";
    }
    if dockerCompat == "1" {
      dockerCmt := "";
    } else {
      dockerCmt := "# ";
    }
    c := Comments(srvCmt, srvLanCmt, vpnCmt, vpnLanCmt, dockerCmt);
    assert c == CommentsFor(env);
    CommentsFollowEntries(env);
  }

  // ---------------------------------------------------------------- packets and rules

  datatype Ct = New | Established | Related | Invalid

  datatype Proto = Tcp(ack: bool) | Udp | Icmp | Other

  datatype Packet = Packet(iif: string, oif: string, six: bool, saddr: nat, proto: Proto, dnat: bool)

  datatype Verdict = Accept | Drop | NoVerdict

  datatype Cond =
    | Iif(pattern: string)
    | Oif(pattern: string)
    | SaddrOutside(net: Prefix)
    | IpTcpAck
    | IpUdp
    | IpIcmp
    | StatusDnat

  /** `CtVmap` is the verdict map on the connection state; the others are a plain match. */
  datatype Rule = CtVmap | Match(conds: seq<Cond>, verdict: Verdict)

  datatype Gate = Always | Srv | SrvLan | Vpn | VpnLan | Docker

  datatype Line = Line(gate: Gate, rule: Rule)

  /** A trailing asterisk makes an interface name a prefix. */
  predicate NameMatches(pattern: string, name: string) {
    if pattern != "" && pattern[|pattern| - 1] == '*' then pattern[..|pattern| - 1] <= name else name == pattern
  }

  predicate CondHolds(c: Cond, p: Packet) {
    match c
    case Iif(pattern) => NameMatches(pattern, p.iif)
    case Oif(pattern) => NameMatches(pattern, p.oif)
    case SaddrOutside(net) => !p.six && net.bits <= net.width && !net.Has(p.saddr)
    case IpTcpAck => !p.six && p.proto.Tcp? && p.proto.ack
    case IpUdp => !p.six && p.proto.Udp?
    case IpIcmp => !p.six && p.proto.Icmp?
    case StatusDnat => p.dnat
  }

  function RuleVerdict(r: Rule, p: Packet, ct: Ct): Verdict {
    match r
    case CtVmap => if ct.Established? || ct.Related? then Accept else if ct.Invalid? then Drop else NoVerdict
    case Match(conds, v) => if forall c <- conds :: CondHolds(c, p) then v else NoVerdict
  }

  predicate Active(g: Gate, c: Comments) {
    match g
    case Always => true
    case Srv => c.srv == ""
    case SrvLan => c.srvLan == ""
    case Vpn => c.vpn == ""
    case VpnLan => c.vpnLan == ""
    case Docker => c.docker == ""
  }

  function LineVerdict(l: Line, c: Comments, p: Packet, ct: Ct): Verdict {
    if Active(l.gate, c) then RuleVerdict(l.rule, p, ct) else NoVerdict
  }

  /** The first active line with a verdict decides; the policy of the chain is drop. */
  function Evaluate(lines: seq<Line>, c: Comments, p: Packet, ct: Ct): (v: Verdict)
    ensures v != NoVerdict
  {
    if lines == [] then Drop
    else
      var v := LineVerdict(lines[0], c, p, ct);
      if v != NoVerdict then v else Evaluate(lines[1..], c, p, ct)
  }

  datatype Interfaces = Interfaces(wan: string, lan: string, srv: string, wg: string, wgNet4: Prefix)

  /** MSS clamping, logging and counting take part but give no verdict. */
  const ENTRY: seq<Line> := [Line(Always, CtVmap), Line(Always, Match([], NoVerdict))]

  function LanLines(i: Interfaces): seq<Line> {
    [
      Line(Always, Match([Iif(i.lan), Oif(i.wan)], Accept)),
      Line(Always, Match([Iif(i.lan), Oif(i.lan)], Accept)),
      Line(Always, Match([Iif(i.wan), Oif(i.lan), IpTcpAck], Accept)),
      Line(Always, Match([Iif(i.wan), Oif(i.lan), IpUdp], Accept)),
      Line(Always, Match([Iif(i.wan), Oif(i.lan), IpIcmp], Accept))
    ]
  }

  function Segments(i: Interfaces): seq<Line> {
    [
      Line(Srv, Match([Iif(i.srv), Oif(i.wan)], Accept)),
      Line(Srv, Match([Iif(i.lan), Oif(i.srv)], Accept)),
      Line(SrvLan, Match([Iif(i.srv), Oif(i.lan)], Accept)),
      Line(Vpn, Match([Iif(i.wg), SaddrOutside(i.wgNet4)], Drop)),
      Line(VpnLan, Match([Iif(i.wg), Oif(i.lan)], Accept))
    ]
  }

  const TAIL: seq<Line> := [
    Line(Always, Match([StatusDnat], Accept)),
    Line(Docker, Match([Iif("docker0")], Accept)),
    Line(Docker, Match([Oif("docker0")], Accept)),
    Line(Docker, Match([Iif("br-*")], Accept)),
    Line(Docker, Match([Oif("br-*")], Accept)),
    Line(Always, Match([], NoVerdict)),
    Line(Always, Match([], NoVerdict))
  ]

  function ForwardChain(i: Interfaces): seq<Line> {
    ENTRY + LanLines(i) + Segments(i) + TAIL
  }

  function Forward(i: Interfaces, c: Comments, p: Packet, ct: Ct): Verdict {
    Evaluate(ForwardChain(i), c, p, ct)
  }

  // ---------------------------------------------------------------- the chain in closed form

  predicate IsDocker(name: string) {
    name == "docker0" || "br-" <= name
  }

  predicate Plain(name: string) {
    name != "" && name[|name| - 1] != '*' && !IsDocker(name)
  }

  /** Pairwise distinct names without wildcards, none of them a Docker bridge. */
  ghost predicate Valid(i: Interfaces) {
    && Plain(i.wan) && Plain(i.lan) && Plain(i.srv) && Plain(i.wg)
    && i.wan != i.lan && i.wan != i.srv && i.wan != i.wg && i.lan != i.srv && i.lan != i.wg && i.srv != i.wg
    && i.wgNet4.width == 32 && i.wgNet4.Valid()
  }

  lemma {:induction false} EvaluateSplit(a: seq<Line>, b: seq<Line>, c: Comments, p: Packet, ct: Ct)
    ensures Evaluate(a + b, c, p, ct) ==
            if exists k :: 0 <= k < |a| && LineVerdict(a[k], c, p, ct) != NoVerdict then Evaluate(a, c, p, ct)
            else Evaluate(b, c, p, ct)
  {
    if a == [] {
      assert a + b == b;
    } else {
      assert (a + b)[1..] == a[1..] + b;
      EvaluateSplit(a[1..], b, c, p, ct);
      var v := LineVerdict(a[0], c, p, ct);
      if v == NoVerdict {
        assert forall k | 0 <= k < |a[1..]| :: a[1..][k] == a[k + 1];
        if exists k :: 0 <= k < |a| && LineVerdict(a[k], c, p, ct) != NoVerdict {
          var k :| 0 <= k < |a| && LineVerdict(a[k], c, p, ct) != NoVerdict;
          assert a[1..][k - 1] == a[k];
        }
      }
    }
  }

  /** A packet that an established or related connection claims is accepted, an invalid one dropped. */
  lemma TrackedVerdict(i: Interfaces, c: Comments, p: Packet, ct: Ct)
    requires ct != New
    ensures Forward(i, c, p, ct) == if ct == Invalid then Drop else Accept
  {
    var chain := ForwardChain(i);
    assert chain[0] == Line(Always, CtVmap);
  }

  predicate LanAccepts(i: Interfaces, p: Packet) {
    || (p.iif == i.lan && (p.oif == i.wan || p.oif == i.lan))
    || (p.iif == i.wan && p.oif == i.lan && !p.six && (p.proto.Udp? || p.proto.Icmp? || (p.proto.Tcp? && p.proto.ack)))
  }

  /** What the `k`-th line of the LAN block accepts. */
  predicate LanLineAccepts(i: Interfaces, p: Packet, k: nat) {
    match k
    case 0 => p.iif == i.lan && p.oif == i.wan
    case 1 => p.iif == i.lan && p.oif == i.lan
    case 2 => p.iif == i.wan && p.oif == i.lan && CondHolds(IpTcpAck, p)
    case 3 => p.iif == i.wan && p.oif == i.lan && CondHolds(IpUdp, p)
    case 4 => p.iif == i.wan && p.oif == i.lan && CondHolds(IpIcmp, p)
    case _ => false
  }

  lemma LanLine(i: Interfaces, c: Comments, p: Packet, k: nat)
    requires Valid(i) && k < |LanLines(i)|
    ensures LineVerdict(LanLines(i)[k], c, p, New) == if LanLineAccepts(i, p, k) then Accept else NoVerdict
  {
    var l := LanLines(i)[k];
    if k == 0 {
      PairVerdict(l, i.lan, i.wan, c, p);
    } else if k == 1 {
      PairVerdict(l, i.lan, i.lan, c, p);
    } else {
      TripleVerdict(l, i.wan, i.lan, if k == 2 then IpTcpAck else if k == 3 then IpUdp else IpIcmp, c, p);
    }
  }

  lemma LanVerdict(i: Interfaces, c: Comments, p: Packet)
    requires Valid(i)
    ensures forall k :: 0 <= k < |LanLines(i)| ==> LineVerdict(LanLines(i)[k], c, p, New) in {Accept, NoVerdict}
    ensures (exists k :: 0 <= k < |LanLines(i)| && LineVerdict(LanLines(i)[k], c, p, New) != NoVerdict)
            <==> LanAccepts(i, p)
  {
    forall k | 0 <= k < |LanLines(i)|
      ensures LineVerdict(LanLines(i)[k], c, p, New) == if LanLineAccepts(i, p, k) then Accept else NoVerdict
    {
      LanLine(i, c, p, k);
    }
    SomeLanLine(i, p);
    assert |LanLines(i)| == 5;
  }

  lemma SomeLanLine(i: Interfaces, p: Packet)
    ensures LanAccepts(i, p) <==> exists k :: 0 <= k < 5 && LanLineAccepts(i, p, k)
  {
    assert LanAccepts(i, p) ==> || LanLineAccepts(i, p, 0) || LanLineAccepts(i, p, 1) || LanLineAccepts(i, p, 2)
                                || LanLineAccepts(i, p, 3) || LanLineAccepts(i, p, 4);
  }

  lemma EntryVerdict(c: Comments, p: Packet)
    ensures !exists k :: 0 <= k < |ENTRY| && LineVerdict(ENTRY[k], c, p, New) != NoVerdict
  {
    assert LineVerdict(ENTRY[0], c, p, New) == NoVerdict && LineVerdict(ENTRY[1], c, p, New) == NoVerdict;
  }

  lemma PairVerdict(l: Line, a: string, b: string, c: Comments, p: Packet)
    requires l.rule == Match([Iif(a), Oif(b)], Accept) && Plain(a) && Plain(b)
    ensures LineVerdict(l, c, p, New) == if Active(l.gate, c) && p.iif == a && p.oif == b then Accept else NoVerdict
  {
    var conds := [Iif(a), Oif(b)];
    assert conds[0] in conds && conds[1] in conds;
  }

  lemma TripleVerdict(l: Line, a: string, b: string, x: Cond, c: Comments, p: Packet)
    requires l.rule == Match([Iif(a), Oif(b), x], Accept) && Plain(a) && Plain(b)
    ensures LineVerdict(l, c, p, New) ==
            if Active(l.gate, c) && p.iif == a && p.oif == b && CondHolds(x, p) then Accept else NoVerdict
  {
    var conds := [Iif(a), Oif(b), x];
    assert conds[0] in conds && conds[1] in conds && conds[2] in conds;
  }

  lemma {:induction false} AllAccept(lines: seq<Line>, c: Comments, p: Packet, ct: Ct)
    requires forall k :: 0 <= k < |lines| ==> LineVerdict(lines[k], c, p, ct) in {Accept, NoVerdict}
    ensures Evaluate(lines, c, p, ct) == Accept
            <==> exists k :: 0 <= k < |lines| && LineVerdict(lines[k], c, p, ct) != NoVerdict
  {
    if lines != [] {
      assert forall k | 0 <= k < |lines[1..]| :: lines[1..][k] == lines[k + 1];
      AllAccept(lines[1..], c, p, ct);
      if LineVerdict(lines[0], c, p, ct) == NoVerdict
         && exists k :: 0 <= k < |lines| && LineVerdict(lines[k], c, p, ct) != NoVerdict {
        var k :| 0 <= k < |lines| && LineVerdict(lines[k], c, p, ct) != NoVerdict;
        assert lines[1..][k - 1] == lines[k];
      }
    }
  }

  predicate SegmentsAccept(i: Interfaces, c: Comments, p: Packet)
    requires i.wgNet4.bits <= i.wgNet4.width
  {
    || (c.srv == "" && p.iif == i.srv && p.oif == i.wan)
    || (c.srv == "" && p.iif == i.lan && p.oif == i.srv)
    || (c.srvLan == "" && p.iif == i.srv && p.oif == i.lan)
    || (c.vpnLan == "" && p.iif == i.wg && p.oif == i.lan && !Spoofed(i, c, p))
  }

  /** The WireGuard source rule; it looks at IPv4 sources only. */
  predicate Spoofed(i: Interfaces, c: Comments, p: Packet)
    requires i.wgNet4.bits <= i.wgNet4.width
  {
    c.vpn == "" && p.iif == i.wg && !p.six && !i.wgNet4.Has(p.saddr)
  }

  lemma SpoofVerdict(i: Interfaces, c: Comments, p: Packet)
    requires Valid(i)
    ensures LineVerdict(Segments(i)[3], c, p, New) == if Spoofed(i, c, p) then Drop else NoVerdict
  {
    var conds := [Iif(i.wg), SaddrOutside(i.wgNet4)];
    assert conds[0] in conds && conds[1] in conds;
  }

  lemma SegmentsVerdict(i: Interfaces, c: Comments, p: Packet)
    requires Valid(i)
    ensures var l := Segments(i);
            var decided := exists k :: 0 <= k < |l| && LineVerdict(l[k], c, p, New) != NoVerdict;
            && (decided <==> SegmentsAccept(i, c, p) || Spoofed(i, c, p))
            && (decided ==> (Evaluate(l, c, p, New) == Accept <==> SegmentsAccept(i, c, p)))
  {
    var l := Segments(i);
    PairVerdict(l[0], i.srv, i.wan, c, p);
    PairVerdict(l[1], i.lan, i.srv, c, p);
    PairVerdict(l[2], i.srv, i.lan, c, p);
    SpoofVerdict(i, c, p);
    PairVerdict(l[4], i.wg, i.lan, c, p);
    assert Evaluate(l[4..], c, p, New) == if LineVerdict(l[4], c, p, New) == Accept then Accept else Drop;
    assert l[3..][1..] == l[4..] && l[2..][1..] == l[3..] && l[1..][1..] == l[2..];
    assert Evaluate(l[3..], c, p, New) == if Spoofed(i, c, p) then Drop else Evaluate(l[4..], c, p, New);
    assert Evaluate(l[2..], c, p, New) == if LineVerdict(l[2], c, p, New) == Accept then Accept
           else Evaluate(l[3..], c, p, New);
    assert Evaluate(l[1..], c, p, New) == if LineVerdict(l[1], c, p, New) == Accept then Accept
           else Evaluate(l[2..], c, p, New);
  }

  predicate TailAccepts(c: Comments, p: Packet) {
    p.dnat || (c.docker == "" && (IsDocker(p.iif) || IsDocker(p.oif)))
  }

  lemma SingleVerdict(l: Line, x: Cond, c: Comments, p: Packet)
    requires l.rule == Match([x], Accept)
    ensures LineVerdict(l, c, p, New) == if Active(l.gate, c) && CondHolds(x, p) then Accept else NoVerdict
  {
    assert [x][0] in [x];
  }

  lemma TailVerdict(c: Comments, p: Packet)
    ensures Evaluate(TAIL, c, p, New) == Accept <==> TailAccepts(c, p)
  {
    var l := TAIL;
    SingleVerdict(l[0], StatusDnat, c, p);
    SingleVerdict(l[1], Iif("docker0"), c, p);
    SingleVerdict(l[2], Oif("docker0"), c, p);
    SingleVerdict(l[3], Iif("br-*"), c, p);
    SingleVerdict(l[4], Oif("br-*"), c, p);
    assert "br-*"[..3] == "br-";
    assert LineVerdict(l[5], c, p, New) == NoVerdict && LineVerdict(l[6], c, p, New) == NoVerdict;
    AllAccept(l, c, p, New);
    assert TailAccepts(c, p) ==> || LineVerdict(l[0], c, p, New) == Accept || LineVerdict(l[1], c, p, New) == Accept
                                 || LineVerdict(l[2], c, p, New) == Accept || LineVerdict(l[3], c, p, New) == Accept
                                 || LineVerdict(l[4], c, p, New) == Accept;
  }

  /** For every packet that opens a flow and every setting of the flags. */
  lemma NewFlowAccepted(i: Interfaces, c: Comments, p: Packet)
    requires Valid(i)
    ensures Forward(i, c, p, New) == Accept <==>
            LanAccepts(i, p) || SegmentsAccept(i, c, p) || (TailAccepts(c, p) && !Spoofed(i, c, p))
  {
    assert ForwardChain(i) == ENTRY + (LanLines(i) + (Segments(i) + TAIL));
    EvaluateSplit(ENTRY, LanLines(i) + (Segments(i) + TAIL), c, p, New);
    EntryVerdict(c, p);
    EvaluateSplit(LanLines(i), Segments(i) + TAIL, c, p, New);
    EvaluateSplit(Segments(i), TAIL, c, p, New);
    LanVerdict(i, c, p);
    AllAccept(LanLines(i), c, p, New);
    SegmentsVerdict(i, c, p);
    TailVerdict(c, p);
  }
}

/** What the normaliser and the planner of the cleaner guarantee. */
module CleanerTheorems {
  import opened Wrappers
  import opened CleanerCore

  // ---------------------------------------------------------------- normal forms read back

  /** The canonical text of an origin is read back as that origin. */
  function EntryOf(o: Origin): Entry {
    Explicit(Url(o.protocol, "", "", o.hostname, o.port, "/", "", ""))
  }

  function Entries(origins: seq<Origin>): (r: seq<Entry>)
    ensures |r| == |origins|
  {
    seq(|origins|, i requires 0 <= i < |origins| => EntryOf(origins[i]))
  }

  function RawOfRule(r: Rule): RawRule {
    RawRule(Some(r.scope), List(Entries(r.origins)))
  }

  function RawOfTypeRules(rules: TypeRules): (r: seq<(Option<DataType>, Option<RawRule>)>)
    ensures |r| == |rules|
  {
    seq(|rules|, i requires 0 <= i < |rules| => (Some(rules[i].0), Some(RawOfRule(rules[i].1))))
  }

  function RawOfTypes(types: seq<DataType>): (r: seq<Option<DataType>>)
    ensures |r| == |types|
  {
    seq(|types|, i requires 0 <= i < |types| => Some(types[i]))
  }

  function RawOfPreset(p: Preset): RawPreset {
    RawPreset(Some(p.id), Some(p.name), Some(RawOfTypes(p.types)), RawOfTypeRules(p.typeRules), Some(p.range),
              RawOfRule(p.rule), p.reload, p.closeWindows, p.protectedWeb, p.extension)
  }

  function RawOfPresets(ps: seq<Preset>): (r: seq<Option<RawPreset>>)
    ensures |r| == |ps|
  {
    seq(|ps|, i requires 0 <= i < |ps| => Some(RawOfPreset(ps[i])))
  }

  /** What a stored normal form parses to. */
  function RawOf(s: Settings): RawSettings {
    RawSettings(true, s.enabled, s.syncEnabled, Some(s.theme), Some(s.activePreset), Some(RawOfPresets(s.presets)),
                RawAutomation(Some(s.automation.minutes), s.automation.startup, s.automation.tabClose,
                    Some(s.automation.presetId)))
  }

  // ---------------------------------------------------------------- origin lists

  ghost predicate GoodOrigin(o: Origin) {
    IsWeb(o.protocol) && '*' !in o.hostname
  }

  ghost predicate GoodList(origins: seq<Origin>) {
    Distinct(origins) && forall o <- origins :: GoodOrigin(o)
  }

  lemma {:induction false} ExpandedAreGood(entries: seq<Entry>)
    requires ExpandAll(entries).Ok?
    ensures forall o <- ExpandAll(entries).value :: GoodOrigin(o)
  {
    if entries != [] {
      ExpandedAreGood(entries[1..]);
      assert forall o <- Expand(entries[0]).value :: GoodOrigin(o);
    }
  }

  lemma OriginsAreGood(raw: RawList)
    requires Origins(raw).Ok?
    ensures GoodList(Origins(raw).value)
  {
    if raw.List? {
      ExpandedAreGood(raw.entries);
    }
  }

  lemma {:induction false} ExpandEntries(origins: seq<Origin>)
    requires forall o <- origins :: GoodOrigin(o)
    ensures ExpandAll(Entries(origins)) == Ok(origins)
  {
    if origins != [] {
      assert origins[0] in origins;
      ExpandEntries(origins[1..]);
      assert Entries(origins)[1..] == Entries(origins[1..]);
      assert Entries(origins)[0] == EntryOf(origins[0]);
      assert Expand(EntryOf(origins[0])) == Ok([origins[0]]);
      assert [origins[0]] + origins[1..] == origins;
    }
  }

  lemma {:induction false} DedupDistinct<T(!new)>(s: seq<T>)
    requires Distinct(s)
    ensures Dedup(s) == s
  {
    if s != [] {
      DedupDistinct(s[..|s| - 1]);
      assert s[|s| - 1] !in s[..|s| - 1];
      assert s == s[..|s| - 1] + [s[|s| - 1]];
    }
  }

  /** A normal list is read back as itself when it fits, and refused when it does not. */
  lemma OriginsReadBack(origins: seq<Origin>)
    requires GoodList(origins)
    ensures Origins(List(Entries(origins))) == if |origins| <= MAX_ORIGINS then Ok(origins) else Err(TooManyOrigins)
  {
    ExpandEntries(origins);
    DedupDistinct(origins);
  }

  // ---------------------------------------------------------------- rules

  ghost predicate GoodRule(r: Rule) {
    GoodList(r.origins) && ((r.scope == Include || r.scope == Exclude) ==> r.origins != [])
  }

  predicate Fits(r: Rule) {
    |r.origins| <= MAX_ORIGINS
  }

  lemma NormalRuleIsGood(v: Option<RawRule>)
    requires NormalRule(v).Ok?
    ensures GoodRule(NormalRule(v).value)
  {
    OriginsAreGood(v.value.origins);
  }

  lemma RuleReadsBack(r: Rule)
    requires GoodRule(r)
    ensures NormalRule(Some(RawOfRule(r))) == if Fits(r) then Ok(r) else Err(TooManyOrigins)
  {
    OriginsReadBack(r.origins);
  }

  ghost predicate GoodTypeRules(rules: TypeRules) {
    && (forall i, j :: 0 <= i < j < |rules| ==> rules[i].0 != rules[j].0)
    && (forall i :: 0 <= i < |rules| ==> GoodRule(rules[i].1))
  }

  predicate TypeRulesFit(rules: TypeRules) {
    forall i :: 0 <= i < |rules| ==> Fits(rules[i].1)
  }

  lemma {:induction false} PutIsGood(rules: TypeRules, t: DataType, r: Rule)
    requires GoodTypeRules(rules) && GoodRule(r)
    ensures GoodTypeRules(Put(rules, t, r))
    ensures forall i | 0 <= i < |Put(rules, t, r)| ::
              Put(rules, t, r)[i].0 == t || exists j :: 0 <= j < |rules| && rules[j].0 == Put(rules, t, r)[i].0
  {
    if rules != [] && rules[0].0 != t {
      PutIsGood(rules[1..], t, r);
      var rest := Put(rules[1..], t, r);
      forall i | 0 <= i < |rest| ensures rest[i].0 != rules[0].0 {
        if rest[i].0 != t {
          var j :| 0 <= j < |rules[1..]| && rules[1..][j].0 == rest[i].0;
          assert rules[j + 1].0 == rest[i].0;
        }
      }
      forall i | 0 <= i < |rest| && rest[i].0 != t ensures exists j :: 0 <= j < |rules| && rules[j].0 == rest[i].0 {
        var j :| 0 <= j < |rules[1..]| && rules[1..][j].0 == rest[i].0;
        assert rules[j + 1].0 == rest[i].0;
      }
    }
  }

  /** A new key goes to the end. */
  lemma {:induction false} PutAppends(rules: TypeRules, t: DataType, r: Rule)
    requires forall i :: 0 <= i < |rules| ==> rules[i].0 != t
    ensures Put(rules, t, r) == rules + [(t, r)]
  {
    if rules != [] {
      PutAppends(rules[1..], t, r);
      assert [rules[0]] + (rules[1..] + [(t, r)]) == rules + [(t, r)];
    }
  }

  lemma {:induction false} NormalTypeRulesAreGood(raw: seq<(Option<DataType>, Option<RawRule>)>)
    requires NormalTypeRules(raw).Ok?
    ensures GoodTypeRules(NormalTypeRules(raw).value)
  {
    if raw != [] {
      NormalTypeRulesAreGood(raw[..|raw| - 1]);
      NormalRuleIsGood(raw[|raw| - 1].1);
      PutIsGood(NormalTypeRules(raw[..|raw| - 1]).value, raw[|raw| - 1].0.value, NormalRule(raw[|raw| - 1].1).value);
    }
  }

  /** The raw form of one more rule. */
  lemma TypeRulesSnoc(front: TypeRules, last: (DataType, Rule))
    ensures RawOfTypeRules(front + [last]) == RawOfTypeRules(front) + [(Some(last.0), Some(RawOfRule(last.1)))]
    ensures TypeRulesFit(front + [last]) <==> TypeRulesFit(front) && Fits(last.1)
    ensures GoodTypeRules(front + [last]) ==>
              GoodTypeRules(front) && GoodRule(last.1) && forall i :: 0 <= i < |front| ==> front[i].0 != last.0
  {
    var all := front + [last];
    assert all[|front|] == last;
    assert forall i | 0 <= i < |front| :: all[i] == front[i];
  }

  lemma NormalTypeRulesSnoc(raw: seq<(Option<DataType>, Option<RawRule>)>, t: DataType, r: RawRule)
    ensures NormalTypeRules(raw + [(Some(t), Some(r))]) ==
            if NormalTypeRules(raw).Err? then NormalTypeRules(raw)
            else if NormalRule(Some(r)).Err? then Err(NormalRule(Some(r)).error)
            else Ok(Put(NormalTypeRules(raw).value, t, NormalRule(Some(r)).value))
  {
    assert (raw + [(Some(t), Some(r))])[..|raw|] == raw;
  }

  lemma {:induction false} TypeRulesReadBack(rules: TypeRules)
    requires GoodTypeRules(rules)
    ensures NormalTypeRules(RawOfTypeRules(rules)) == if TypeRulesFit(rules) then Ok(rules) else Err(TooManyOrigins)
  {
    if rules != [] {
      var front, last := rules[..|rules| - 1], rules[|rules| - 1];
      assert rules == front + [last];
      TypeRulesSnoc(front, last);
      TypeRulesReadBack(front);
      NormalTypeRulesSnoc(RawOfTypeRules(front), last.0, RawOfRule(last.1));
      RuleReadsBack(last.1);
      PutAppends(front, last.0, last.1);
    }
  }

  // ---------------------------------------------------------------- presets

  ghost predicate GoodPreset(p: Preset) {
    && ValidId(p.id)
    && p.name != "" && Trim(p.name) == p.name && Utf16Length(p.name) <= 80
    && p.types != [] && Distinct(p.types)
    && GoodRule(p.rule) && GoodTypeRules(p.typeRules)
    && FirstProblem(p, p.types).None?
  }

  predicate PresetFits(p: Preset) {
    Fits(p.rule) && TypeRulesFit(p.typeRules)
  }

  lemma {:induction false} TrimTwice(s: string)
    ensures Trim(Trim(s)) == Trim(s)
    decreases |s|
  {
    if s != "" {
      if IsJsSpace(s[0]) {
        TrimTwice(s[1..]);
      } else if IsJsSpace(s[|s| - 1]) {
        TrimTwice(s[..|s| - 1]);
      }
    }
  }

  lemma NormalPresetIsGood(v: Option<RawPreset>)
    requires NormalPreset(v).Ok?
    ensures GoodPreset(NormalPreset(v).value)
  {
    var raw := v.value;
    NormalRuleIsGood(Some(raw.rule));
    NormalTypeRulesAreGood(raw.typeRules);
    TrimTwice(raw.name.value);
    var types := TypesOf(raw.types.value);
    assert types[0] in types;
  }

  lemma TypesReadBack(p: Preset)
    requires p.types != [] && Distinct(p.types)
    ensures KnownTypes(Some(RawOfTypes(p.types))) && Dedup(TypesOf(RawOfTypes(p.types))) == p.types
  {
    DedupDistinct(p.types);
    assert TypesOf(RawOfTypes(p.types)) == p.types;
  }

  lemma PresetReadsBack(p: Preset)
    requires GoodPreset(p)
    ensures NormalPreset(Some(RawOfPreset(p))) == if PresetFits(p) then Ok(p) else Err(TooManyOrigins)
  {
    TypesReadBack(p);
    TypeRulesReadBack(p.typeRules);
    RuleReadsBack(p.rule);
  }

  lemma PresetsCons(p: Preset, rest: seq<Preset>)
    ensures NormalPresets(RawOfPresets([p] + rest)) ==
            var first := NormalPreset(Some(RawOfPreset(p)));
            if first.Err? then Err(first.error)
            else
              var more := NormalPresets(RawOfPresets(rest));
              if more.Err? then more else Ok([first.value] + more.value)
  {
    assert RawOfPresets([p] + rest)[1..] == RawOfPresets(rest);
  }

  lemma {:induction false} PresetsReadBack(ps: seq<Preset>)
    requires forall p <- ps :: GoodPreset(p)
    ensures NormalPresets(RawOfPresets(ps)) == if forall p <- ps :: PresetFits(p) then Ok(ps) else Err(TooManyOrigins)
  {
    if ps != [] {
      assert ps[0] in ps;
      PresetReadsBack(ps[0]);
      PresetsReadBack(ps[1..]);
      PresetsCons(ps[0], ps[1..]);
      assert ps == [ps[0]] + ps[1..];
    }
  }

  lemma {:induction false} NormalPresetsAreGood(raw: seq<Option<RawPreset>>)
    requires NormalPresets(raw).Ok?
    ensures |NormalPresets(raw).value| == |raw|
    ensures forall p <- NormalPresets(raw).value :: GoodPreset(p)
  {
    if raw != [] {
      NormalPresetIsGood(raw[0]);
      NormalPresetsAreGood(raw[1..]);
    }
  }

  // ---------------------------------------------------------------- settings

  ghost predicate GoodSettings(s: Settings) {
    && 1 <= |s.presets| <= 20 && UniqueIds(s.presets)
    && (forall p <- s.presets :: GoodPreset(p))
    && HasPreset(s.presets, Some(s.activePreset)) && HasPreset(s.presets, Some(s.automation.presetId))
    && (s.automation.minutes == 0 || 1 <= s.automation.minutes <= 10080)
  }

  /** Every expanded origin list has at most 100 entries. */
  predicate SettingsFit(s: Settings) {
    forall p <- s.presets :: PresetFits(p)
  }

  lemma NormalSettingsAreGood(v: RawSettings)
    requires NormalSettings(v).Ok?
    ensures GoodSettings(NormalSettings(v).value)
  {
    NormalPresetsAreGood(v.presets.value);
  }

  lemma SettingsReadBack(s: Settings)
    requires GoodSettings(s)
    ensures NormalSettings(RawOf(s)) == if SettingsFit(s) then Ok(s) else Err(TooManyOrigins)
  {
    PresetsReadBack(s.presets);
  }

  /** A stored normal form is given back exactly when every expanded origin list fits. */
  lemma StoredReadsBackIff(v: RawSettings)
    requires NormalSettings(v).Ok?
    ensures var s := NormalSettings(v).value;
            && (NormalSettings(RawOf(s)) == Ok(s) <==> SettingsFit(s))
            && (!SettingsFit(s) ==> NormalSettings(RawOf(s)) == Err(TooManyOrigins))
  {
    NormalSettingsAreGood(v);
    SettingsReadBack(NormalSettings(v).value);
  }

  // ---------------------------------------------------------------- a settings file that locks itself out

  function Host(n: nat): string {
    seq(n + 1, _ => 'a')
  }

  function BareHost(n: nat): Entry {
    Bare(Url("http:", "", "", Host(n), "", "/", "", ""), Url("https:", "", "", Host(n), "", "/", "", ""))
  }

  function BareHosts(n: nat): seq<Entry> {
    if n == 0 then [] else [BareHost(n - 1)] + BareHosts(n - 1)
  }

  function Doubled(n: nat): (r: seq<Origin>)
    ensures |r| == 2 * n
  {
    if n == 0 then [] else [Origin("http:", Host(n - 1), ""), Origin("https:", Host(n - 1), "")] + Doubled(n - 1)
  }

  lemma {:induction false} HostsExpand(n: nat)
    ensures |BareHosts(n)| == n && ExpandAll(BareHosts(n)) == Ok(Doubled(n))
  {
    if n > 0 {
      HostsExpand(n - 1);
      assert BareHosts(n)[1..] == BareHosts(n - 1);
      assert Expand(BareHost(n - 1)) == Ok([Origin("http:", Host(n - 1), ""), Origin("https:", Host(n - 1), "")]);
    }
  }

  lemma {:induction false} DoubledAt(n: nat, i: nat)
    requires i < 2 * n
    ensures Doubled(n)[i] == Origin(if i % 2 == 0 then "http:" else "https:", Host(n - 1 - i / 2), "")
  {
    if i >= 2 {
      DoubledAt(n - 1, i - 2);
    }
  }

  lemma HostsDistinct(n: nat)
    ensures Distinct(Doubled(n))
  {
    forall i, j | 0 <= i < j < 2 * n ensures Doubled(n)[i] != Doubled(n)[j] {
      DoubledAt(n, i);
      DoubledAt(n, j);
      assert i / 2 == j / 2 ==> i % 2 == 0 && j % 2 == 1;
      assert |Host(n - 1 - i / 2)| == n - i / 2 && |Host(n - 1 - j / 2)| == n - j / 2;
    }
  }

  function HostNormal(n: nat): Preset {
    Preset(Rule(Include, Doubled(n)), "hosts", "Hosts", [Cache], [], Hour, false, false, false, false)
  }

  /** One preset whose include list is `n` bare hosts. */
  function HostPreset(n: nat): RawPreset {
    RawOfPreset(HostNormal(n)).(rule := RawRule(Some(Include), List(BareHosts(n))))
  }

  function HostSettings(n: nat): RawSettings {
    RawSettings(true, true, false, Some(Dark), Some("hosts"), Some([Some(HostPreset(n))]),
                RawAutomation(Some(0), false, false, Some("hosts")))
  }

  lemma HostNames()
    ensures ValidId("hosts") && Trim("Hosts") == "Hosts" && Utf16Length("Hosts") <= 80
  {
    assert "Hosts"[1..] == "osts" && "osts"[1..] == "sts" && "sts"[1..] == "ts" && "ts"[1..] == "s";
  }

  lemma HostRuleAccepted(n: nat)
    requires 1 <= n <= MAX_ORIGINS
    ensures NormalRule(Some(RawRule(Some(Include), List(BareHosts(n))))) == Ok(Rule(Include, Doubled(n)))
  {
    HostsExpand(n);
    HostsDistinct(n);
    DedupDistinct(Doubled(n));
  }

  lemma HostPresetAccepted(n: nat)
    requires 1 <= n <= MAX_ORIGINS
    ensures NormalPreset(Some(HostPreset(n))) == Ok(HostNormal(n))
  {
    HostNames();
    HostRuleAccepted(n);
    TypesReadBack(HostNormal(n));
    TypeRulesReadBack([]);
    assert FirstProblem(HostNormal(n), [Cache]).None?;
  }

  lemma OnePreset(v: RawPreset)
    requires NormalPreset(Some(v)).Ok?
    ensures NormalPresets([Some(v)]) == Ok([NormalPreset(Some(v)).value])
  {
    var raw := [Some(v)];
    assert raw[1..] == [];
    var p := NormalPreset(raw[0]).value;
    assert NormalPresets(raw) == Ok([p] + []);
    assert [p] + [] == [p];
  }

  lemma HostSettingsAccepted(n: nat)
    requires 1 <= n <= MAX_ORIGINS
    ensures NormalSettings(HostSettings(n)) ==
            Ok(Settings(true, false, Dark, "hosts", [HostNormal(n)], Automation(0, false, false, "hosts")))
  {
    HostPresetAccepted(n);
    OnePreset(HostPreset(n));
    assert HostNormal(n) in [HostNormal(n)];
  }

  /** Fifty-one distinct bare hosts are accepted and stored, and can never be read again. */
  lemma FiftyOneHostsLockOut()
    ensures NormalSettings(HostSettings(51)).Ok?
    ensures NormalSettings(RawOf(NormalSettings(HostSettings(51)).value)) == Err(TooManyOrigins)
  {
    HostSettingsAccepted(51);
    assert HostNormal(51) in NormalSettings(HostSettings(51)).value.presets;
    assert !PresetFits(HostNormal(51));
    StoredReadsBackIff(HostSettings(51));
  }

  // ---------------------------------------------------------------- what a plan denotes

  predicate Names(e: Entry, o: Origin) {
    match e
    case NotText => false
    case Blank => false
    case Explicit(u) => u.Url? && OriginOf(u) == o
    case Bare(h, s) => (h.Url? && OriginOf(h) == o) || (s.Url? && OriginOf(s) == o)
  }

  ghost predicate ListNames(raw: RawList, o: Origin) {
    raw.List? && exists e <- raw.entries :: Names(e, o)
  }

  /** The last override written for a type, read from the raw value. */
  function OverrideOf(raw: seq<(Option<DataType>, Option<RawRule>)>, t: DataType): Option<RawRule> {
    if raw == [] then None
    else if raw[|raw| - 1].0 == Some(t) then raw[|raw| - 1].1
    else OverrideOf(raw[..|raw| - 1], t)
  }

  ghost predicate RuleCovers(r: RawRule, active: Url, o: Origin) {
    match r.scope
    case None => false
    case Some(Active) => active.Url? && OriginOf(active) == o
    case Some(Include) => ListNames(r.origins, o)
    case Some(Exclude) => !ListNames(r.origins, o)
    case Some(All) => true
  }

  /** What the user asked for, read from the raw preset alone. */
  ghost predicate Asked(v: RawPreset, active: Url, t: DataType, o: Origin) {
    && v.types.Some? && Some(t) in v.types.value
    && var own := OverrideOf(v.typeRules, t);
       RuleCovers(if own.Some? then own.value else v.rule, active, o)
  }

  predicate FilterCovers(f: Filter, o: Origin) {
    match f
    case Only(os) => o in os
    case Except(os) => o !in os
    case Everywhere => true
  }

  /** What the browser removes when it is given the calls of a plan. */
  ghost predicate Removes(plan: Plan, t: DataType, o: Origin) {
    exists i :: 0 <= i < |plan.calls| && plan.calls[i].t == t && FilterCovers(plan.calls[i].filter, o)
  }

  lemma {:induction false} ExpandedNames(entries: seq<Entry>, o: Origin)
    requires ExpandAll(entries).Ok?
    ensures o in ExpandAll(entries).value <==> exists e <- entries :: Names(e, o)
  {
    if entries != [] {
      ExpandedNames(entries[1..], o);
      assert o in Expand(entries[0]).value <==> Names(entries[0], o);
      assert entries == [entries[0]] + entries[1..];
    }
  }

  lemma OriginsName(raw: RawList, o: Origin)
    requires Origins(raw).Ok?
    ensures o in Origins(raw).value <==> ListNames(raw, o)
  {
    if raw.List? {
      ExpandedNames(raw.entries, o);
    }
  }

  lemma FilterCoversRule(v: RawRule, active: Url, o: Origin)
    requires NormalRule(Some(v)).Ok? && FilterFor(NormalRule(Some(v)).value, active).Ok?
    ensures FilterCovers(FilterFor(NormalRule(Some(v)).value, active).value, o) <==> RuleCovers(v, active, o)
  {
    OriginsName(v.origins, o);
  }

  lemma {:induction false} LookupPut(rules: TypeRules, t: DataType, r: Rule, u: DataType)
    ensures Lookup(Put(rules, t, r), u) == if u == t then Some(r) else Lookup(rules, u)
  {
    if rules != [] && rules[0].0 != t {
      LookupPut(rules[1..], t, r, u);
    }
  }

  lemma {:induction false} LookupIsOverride(raw: seq<(Option<DataType>, Option<RawRule>)>, t: DataType)
    requires NormalTypeRules(raw).Ok?
    ensures var own := OverrideOf(raw, t);
            Lookup(NormalTypeRules(raw).value, t) ==
            if own.None? then None else if NormalRule(own).Ok? then Some(NormalRule(own).value) else None
    ensures OverrideOf(raw, t).Some? ==> NormalRule(OverrideOf(raw, t)).Ok?
  {
    if raw != [] {
      var front := raw[..|raw| - 1];
      LookupIsOverride(front, t);
      LookupPut(NormalTypeRules(front).value, raw[|raw| - 1].0.value, NormalRule(raw[|raw| - 1].1).value, t);
    }
  }

  /** One call per selected type, in order, each for its own rule. */
  lemma {:induction false} CallsMatchTypes(p: Preset, types: seq<DataType>, active: Url, since: int)
    requires CallsFor(p, types, active, since).Ok?
    ensures var calls := CallsFor(p, types, active, since).value;
            && |calls| == |types|
            && forall i :: 0 <= i < |types| ==> CallFor(p, types[i], active, since) == Ok(calls[i])
  {
    if types != [] {
      CallsMatchTypes(p, types[1..], active, since);
    }
  }

  lemma TypesAsked(types: seq<Option<DataType>>, t: DataType)
    requires forall x <- types :: x.Some?
    ensures t in Dedup(TypesOf(types)) <==> Some(t) in types
  {
    if Some(t) in types {
      var i :| 0 <= i < |types| && types[i] == Some(t);
      assert TypesOf(types)[i] == t;
    }
    if t in TypesOf(types) {
      var i :| 0 <= i < |types| && TypesOf(types)[i] == t;
      assert types[i] in types;
    }
  }

  lemma PresetRules(v: RawPreset)
    requires NormalPreset(Some(v)).Ok?
    ensures var p := NormalPreset(Some(v)).value;
            && NormalRule(Some(v.rule)) == Ok(p.rule)
            && NormalTypeRules(v.typeRules) == Ok(p.typeRules)
  {}

  /** The raw rule behind the rule that a type gets. */
  function RawRuleFor(v: RawPreset, t: DataType): RawRule {
    var own := OverrideOf(v.typeRules, t);
    if own.Some? then own.value else v.rule
  }

  lemma RuleForIsNormal(v: RawPreset, p: Preset, t: DataType)
    requires NormalRule(Some(v.rule)) == Ok(p.rule) && NormalTypeRules(v.typeRules) == Ok(p.typeRules)
    ensures NormalRule(Some(RawRuleFor(v, t))) == Ok(RuleFor(p, t))
  {
    LookupIsOverride(v.typeRules, t);
  }

  lemma RuleForMeetsRequest(v: RawPreset, active: Url, t: DataType, o: Origin)
    requires NormalPreset(Some(v)).Ok? && Some(t) in v.types.value
    requires FilterFor(RuleFor(NormalPreset(Some(v)).value, t), active).Ok?
    ensures FilterCovers(FilterFor(RuleFor(NormalPreset(Some(v)).value, t), active).value, o)
            <==> Asked(v, active, t, o)
  {
    PresetRules(v);
    RuleForIsNormal(v, NormalPreset(Some(v)).value, t);
    FilterCoversRule(RawRuleFor(v, t), active, o);
  }

  /** A plan has one call per selected type, in order. */
  lemma PlanFollowsTypes(p: Preset, active: Url, now: int)
    requires PlanOf(p, active, now).Ok?
    ensures var calls := PlanOf(p, active, now).value.calls;
            && |calls| == |p.types|
            && forall i :: 0 <= i < |p.types| ==>
                 && calls[i].t == p.types[i]
                 && FilterFor(RuleFor(p, p.types[i]), active) == Ok(calls[i].filter)
  {
    CallsMatchTypes(p, p.types, active, SinceOf(p, now));
  }

  /** A planned call of a type covers what its rule covers; other types have no call. */
  lemma PlanFollowsRules(p: Preset, active: Url, now: int, t: DataType, o: Origin)
    requires PlanOf(p, active, now).Ok? && Distinct(p.types)
    ensures var plan := PlanOf(p, active, now).value;
            && (Removes(plan, t, o) ==> t in p.types)
            && (t in p.types ==>
                  FilterFor(RuleFor(p, t), active).Ok?
                  && (Removes(plan, t, o) <==> FilterCovers(FilterFor(RuleFor(p, t), active).value, o)))
  {
    PlanFollowsTypes(p, active, now);
    var calls := PlanOf(p, active, now).value.calls;
    if t in p.types {
      var i :| 0 <= i < |p.types| && p.types[i] == t;
      assert forall j :: 0 <= j < |calls| && calls[j].t == t ==> j == i;
      assert calls[i].t == t;
    }
  }

  /**
   For every preset a plan is made for, the planned calls remove exactly the (type, origin)
   pairs that the raw scope and overrides name, with one call per distinct type.
   */
  lemma PlanRemovesWhatWasAsked(v: RawPreset, active: Url, now: int, t: DataType, o: Origin)
    requires PlanFor(Some(v), active, now).Ok?
    ensures var plan := PlanFor(Some(v), active, now).value;
            && (Removes(plan, t, o) <==> Asked(v, active, t, o))
            && (forall i, j :: 0 <= i < j < |plan.calls| ==> plan.calls[i].t != plan.calls[j].t)
  {
    var p := NormalPreset(Some(v)).value;
    PlanFollowsTypes(p, active, now);
    PlanFollowsRules(p, active, now, t, o);
    TypesAsked(v.types.value, t);
    if t in p.types {
      RuleForMeetsRequest(v, active, t, o);
    }
  }

  lemma {:induction false} NoProblemAnywhere(p: Preset, types: seq<DataType>)
    requires FirstProblem(p, types).None?
    ensures forall t <- types :: TypeProblem(p, t).None?
  {
    if types != [] {
      NoProblemAnywhere(p, types[1..]);
      assert types == [types[0]] + types[1..];
    }
  }

  predicate WholeCall(p: Preset, c: Call) {
    && c.t in p.types && c.protectedWeb == p.protectedWeb && c.extension == p.extension
    && (c.t in {History, Downloads, FormData} || c.protectedWeb || c.extension ==> c.filter == Everywhere)
  }

  lemma WholeTypeUnfiltered(p: Preset, t: DataType, active: Url, since: int)
    requires t in p.types && TypeProblem(p, t).None? && CallFor(p, t, active, since).Ok?
    ensures WholeCall(p, CallFor(p, t, active, since).value)
  {
  }

  lemma WholeTypesUnfiltered(p: Preset, active: Url, now: int)
    requires PlanOf(p, active, now).Ok? && FirstProblem(p, p.types).None?
    ensures forall c <- PlanOf(p, active, now).value.calls :: WholeCall(p, c)
  {
    NoProblemAnywhere(p, p.types);
    CallsMatchTypes(p, p.types, active, SinceOf(p, now));
    var calls := PlanOf(p, active, now).value.calls;
    forall i | 0 <= i < |calls| ensures WholeCall(p, calls[i]) {
      assert p.types[i] in p.types;
      WholeTypeUnfiltered(p, p.types[i], active, SinceOf(p, now));
    }
  }

  /**
   Types that the browser cannot filter, and app data, are only ever cleared unfiltered;
   a plan that may run unattended touches nothing but the two caches.
   */
  lemma UnfilterableOnlyWhole(v: Option<RawPreset>, active: Url, now: int)
    requires PlanFor(v, active, now).Ok?
    ensures forall c <- PlanFor(v, active, now).value.calls ::
              && (c.t in {History, Downloads, FormData} || c.protectedWeb || c.extension ==> c.filter == Everywhere)
              && (PlanFor(v, active, now).value.automaticSafe ==>
                    (c.t == Cache || c.t == CacheStorage) && !c.protectedWeb && !c.extension)
  {
    WholeTypesUnfiltered(NormalPreset(v).value, active, now);
  }

  // ---------------------------------------------------------------- the bound, read from the raw value

  function NamedBy(e: Entry): set<Origin> {
    match e
    case NotText => {}
    case Blank => {}
    case Explicit(u) => if u.Url? then {OriginOf(u)} else {}
    case Bare(h, s) => (if h.Url? then {OriginOf(h)} else {}) + (if s.Url? then {OriginOf(s)} else {})
  }

  /** The distinct origins that a list names. */
  function NamedIn(entries: seq<Entry>): set<Origin> {
    set e, o | e in entries && o in NamedBy(e) :: o
  }

  predicate ListFits(raw: RawList) {
    raw.List? ==> |NamedIn(raw.entries)| <= MAX_ORIGINS
  }

  predicate OverrideFits(raw: seq<(Option<DataType>, Option<RawRule>)>, t: DataType) {
    OverrideOf(raw, t).Some? ==> ListFits(OverrideOf(raw, t).value.origins)
  }

  predicate RawPresetFits(v: RawPreset) {
    ListFits(v.rule.origins) && forall t: DataType :: OverrideFits(v.typeRules, t)
  }

  /** No list that counts names more than 100 distinct origins. */
  predicate RawSettingsFit(v: RawSettings) {
    v.presets.Some? ==> forall p <- v.presets.value :: p.Some? ==> RawPresetFits(p.value)
  }

  lemma {:induction false} DistinctCard<T(!new)>(s: seq<T>)
    requires Distinct(s)
    ensures |set x | x in s| == |s|
  {
    if s != [] {
      var front, last := s[..|s| - 1], s[|s| - 1];
      DistinctCard(front);
      assert s == front + [last];
      assert (set x | x in s) == (set x | x in front) + {last};
    }
  }

  lemma NamedIsListed(entries: seq<Entry>, o: Origin)
    ensures o in NamedIn(entries) <==> exists e <- entries :: Names(e, o)
  {
    assert forall e <- entries :: o in NamedBy(e) <==> Names(e, o);
  }

  lemma OriginsCount(raw: RawList)
    requires Origins(raw).Ok?
    ensures |Origins(raw).value| <= MAX_ORIGINS <==> ListFits(raw)
  {
    OriginsAreGood(raw);
    DistinctCard(Origins(raw).value);
    if raw.List? {
      forall o ensures o in Origins(raw).value <==> o in NamedIn(raw.entries) {
        OriginsName(raw, o);
        NamedIsListed(raw.entries, o);
      }
      assert (set o | o in Origins(raw).value) == NamedIn(raw.entries);
    }
  }

  lemma RuleCount(v: RawRule)
    requires NormalRule(Some(v)).Ok?
    ensures Fits(NormalRule(Some(v)).value) <==> ListFits(v.origins)
  {
    OriginsCount(v.origins);
  }

  lemma {:induction false} LookupFinds(rules: TypeRules, t: DataType)
    ensures Lookup(rules, t).Some? ==> (t, Lookup(rules, t).value) in rules
    ensures forall i | 0 <= i < |rules| && rules[i].0 == t :: Lookup(rules, t).Some?
  {
    if rules != [] && rules[0].0 != t {
      LookupFinds(rules[1..], t);
      assert rules == [rules[0]] + rules[1..];
    }
  }

  predicate TypeFits(rules: TypeRules, t: DataType) {
    Lookup(rules, t).Some? ==> Fits(Lookup(rules, t).value)
  }

  lemma LookupAll(rules: TypeRules)
    requires GoodTypeRules(rules)
    ensures TypeRulesFit(rules) <==> forall t: DataType :: TypeFits(rules, t)
  {
    if TypeRulesFit(rules) {
      forall t: DataType ensures TypeFits(rules, t) {
        LookupFinds(rules, t);
      }
    }
    if forall t: DataType :: TypeFits(rules, t) {
      forall i | 0 <= i < |rules| ensures Fits(rules[i].1) {
        LookupFinds(rules, rules[i].0);
        assert TypeFits(rules, rules[i].0);
        var j :| 0 <= j < |rules| && rules[j] == (rules[i].0, Lookup(rules, rules[i].0).value);
        assert rules[j].0 == rules[i].0;
      }
    }
  }

  lemma OverrideCount(raw: seq<(Option<DataType>, Option<RawRule>)>, t: DataType)
    requires NormalTypeRules(raw).Ok?
    ensures TypeFits(NormalTypeRules(raw).value, t) <==> OverrideFits(raw, t)
  {
    LookupIsOverride(raw, t);
    if OverrideOf(raw, t).Some? {
      RuleCount(OverrideOf(raw, t).value);
    }
  }

  lemma OverridesCount(raw: seq<(Option<DataType>, Option<RawRule>)>)
    requires NormalTypeRules(raw).Ok?
    ensures TypeRulesFit(NormalTypeRules(raw).value) <==> forall t: DataType :: OverrideFits(raw, t)
  {
    NormalTypeRulesAreGood(raw);
    LookupAll(NormalTypeRules(raw).value);
    forall t: DataType ensures TypeFits(NormalTypeRules(raw).value, t) <==> OverrideFits(raw, t) {
      OverrideCount(raw, t);
    }
  }

  lemma PresetCount(v: RawPreset)
    requires NormalPreset(Some(v)).Ok?
    ensures PresetFits(NormalPreset(Some(v)).value) <==> RawPresetFits(v)
  {
    RuleCount(v.rule);
    OverridesCount(v.typeRules);
    PresetRules(v);
  }

  lemma {:induction false} PresetsCount(raw: seq<Option<RawPreset>>)
    requires NormalPresets(raw).Ok?
    ensures (forall p <- NormalPresets(raw).value :: PresetFits(p)) <==>
            forall v <- raw :: v.Some? ==> RawPresetFits(v.value)
  {
    if raw != [] {
      PresetsCount(raw[1..]);
      PresetCount(raw[0].value);
      PresetsHead(raw);
    }
  }

  lemma PresetsHead(raw: seq<Option<RawPreset>>)
    requires raw != [] && NormalPresets(raw).Ok?
    ensures var ps := NormalPresets(raw).value;
            (forall p <- ps :: PresetFits(p)) <==>
              PresetFits(NormalPreset(raw[0]).value) && forall p <- NormalPresets(raw[1..]).value :: PresetFits(p)
    ensures (forall v <- raw :: v.Some? ==> RawPresetFits(v.value)) <==>
            (raw[0].Some? ==> RawPresetFits(raw[0].value)) && forall v <- raw[1..] :: v.Some? ==> RawPresetFits(v.value)
  {
    var head, rest := NormalPreset(raw[0]).value, NormalPresets(raw[1..]).value;
    assert NormalPresets(raw).value == [head] + rest;
    assert ([head] + rest)[0] == head;
    assert raw == [raw[0]] + raw[1..];
  }

  /**
   Normalising twice is normalising once exactly when no list of the raw value that counts
   names more than 100 distinct origins.  The bound is tested before bare hosts double.
   */
  lemma SettingsIdempotentIff(v: RawSettings)
    requires NormalSettings(v).Ok?
    ensures var s := NormalSettings(v).value;
            && (NormalSettings(RawOf(s)) == Ok(s) <==> RawSettingsFit(v))
            && (NormalSettings(RawOf(s)) == Err(TooManyOrigins) <==> !RawSettingsFit(v))
  {
    StoredReadsBackIff(v);
    PresetsCount(v.presets.value);
  }
}

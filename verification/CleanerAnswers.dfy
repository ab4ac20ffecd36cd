/**
 What the normaliser, the planner and the worker of the cleaner answer, read from raw values
 and literal bounds, so that the functions that decide rest on something else than themselves.
 */
module CleanerAnswers {
  import opened Wrappers
  import opened CleanerCore
  import opened CleanerTheorems
  import opened CleanerWorker
  import opened CleanerTraces
  import opened CleanerRuns
  import opened CleanerSafety

  // ---------------------------------------------------------------- origin lists

  /** An http or https origin and nothing more. */
  predicate ExactUrl(u: Url) {
    && u.Url? && (u.protocol == "http:" || u.protocol == "https:")
    && u.username == "" && u.password == "" && u.pathname == "/" && u.search == "" && u.hash == "" && '*' !in u.hostname
  }

  predicate ExactEntry(e: Entry) {
    (e.Explicit? && ExactUrl(e.url)) || (e.Bare? && ExactUrl(e.http) && ExactUrl(e.https))
  }

  predicate ExactList(raw: RawList) {
    raw.Missing? || (raw.List? && |raw.entries| <= 100 && forall e <- raw.entries :: ExactEntry(e))
  }

  lemma {:induction false} ExpandsExact(entries: seq<Entry>)
    ensures ExpandAll(entries).Ok? <==> forall e <- entries :: ExactEntry(e)
    ensures ExpandAll(entries).Ok? && entries != [] ==> ExpandAll(entries).value != []
  {
    if entries != [] {
      ExpandsExact(entries[1..]);
      assert Expand(entries[0]).Ok? <==> ExactEntry(entries[0]);
      assert entries == [entries[0]] + entries[1..];
    }
  }

  /** A list is accepted exactly when it has at most 100 entries and all are exact. */
  lemma ListAcceptedIff(raw: RawList)
    ensures Origins(raw).Ok? <==> ExactList(raw)
    ensures Origins(raw).Ok? ==> (Origins(raw).value == [] <==> !(raw.List? && raw.entries != []))
    ensures raw.NotAList? || (raw.List? && |raw.entries| > 100) ==> Origins(raw) == Err(TooManyOrigins)
  {
    if raw.List? {
      ExpandsExact(raw.entries);
      if ExpandAll(raw.entries).Ok? && ExpandAll(raw.entries).value != [] {
        assert ExpandAll(raw.entries).value[0] in Dedup(ExpandAll(raw.entries).value);
      }
    }
  }

  // ---------------------------------------------------------------- rules

  predicate GoodRawRule(v: RawRule) {
    && v.scope.Some? && ExactList(v.origins)
    && (v.scope == Some(Include) || v.scope == Some(Exclude) ==> v.origins.List? && v.origins.entries != [])
  }

  lemma RuleAcceptedIff(v: Option<RawRule>)
    ensures NormalRule(v).Ok? <==> v.Some? && GoodRawRule(v.value)
    ensures NormalRule(v).Ok? ==> Some(NormalRule(v).value.scope) == v.value.scope
    ensures v.None? || v.value.scope.None? ==> NormalRule(v) == Err(BadScope)
  {
    if v.Some? {
      ListAcceptedIff(v.value.origins);
    }
  }

  lemma {:induction false} TypeRulesAcceptedIff(raw: seq<(Option<DataType>, Option<RawRule>)>)
    ensures NormalTypeRules(raw).Ok? <==>
            forall i | 0 <= i < |raw| :: raw[i].0.Some? && raw[i].1.Some? && GoodRawRule(raw[i].1.value)
  {
    if raw != [] {
      TypeRulesAcceptedIff(raw[..|raw| - 1]);
      RuleAcceptedIff(raw[|raw| - 1].1);
    }
  }

  // ---------------------------------------------------------------- names

  /** The white space that a script's `trim` cuts. */
  predicate Space(c: char) {
    || c as int in {0x09, 0x0a, 0x0b, 0x0c, 0x0d, 0x20, 0xa0, 0x1680, 0x2028, 0x2029, 0x202f, 0x205f, 0x3000, 0xfeff}
    || 0x2000 <= c as int <= 0x200a
  }

  predicate Spaces(s: string) {
    forall c <- s :: Space(c)
  }

  ghost predicate TrimmedTo(s: string, t: string) {
    && (exists i, j | 0 <= i <= j <= |s| :: t == s[i..j] && Spaces(s[..i]) && Spaces(s[j..]))
    && (t != "" ==> !Space(t[0]) && !Space(t[|t| - 1]))
  }

  lemma {:induction false} TrimIsSlice(s: string) returns (i: nat, j: nat)
    ensures i <= j <= |s| && Trim(s) == s[i..j]
    ensures forall k | 0 <= k < i || j <= k < |s| :: IsJsSpace(s[k])
    decreases |s|
  {
    i, j := 0, |s|;
    if s != "" && IsJsSpace(s[0]) {
      i, j := TrimIsSlice(s[1..]);
      assert s[1..][i..j] == s[i + 1..j + 1];
      i, j := i + 1, j + 1;
    } else if s != "" && IsJsSpace(s[|s| - 1]) {
      i, j := TrimIsSlice(s[..|s| - 1]);
      assert s[..|s| - 1][i..j] == s[i..j];
    }
  }

  lemma TrimIsTrimmed(s: string)
    ensures TrimmedTo(s, Trim(s)) && (Trim(s) == "" <==> Spaces(s))
  {
    var i, j := TrimIsSlice(s);
    assert forall c: char :: Space(c) <==> IsJsSpace(c);
    assert Spaces(s[..i]) && Spaces(s[j..]) && Trim(s) == s[i..j];
    if Trim(s) != "" {
      assert Trim(s)[0] == s[i] && s[i] in s;
    }
  }

  function Astral(s: string): set<nat> {
    set i: nat | i < |s| && s[i] as int >= 0x1_0000
  }

  /** Characters above U+FFFF take two units of a script's `length`. */
  lemma {:induction false} LengthCountsAstral(s: string)
    ensures Utf16Length(s) == |s| + |Astral(s)|
  {
    if s == "" {
      assert Astral(s) == {};
    } else {
      var n := |s| - 1;
      LengthOfFront(s);
      LengthCountsAstral(s[..n]);
      assert Astral(s) == Astral(s[..n]) + if s[n] as int >= 0x1_0000 then {n} else {};
    }
  }

  predicate GoodRawId(id: string) {
    1 <= |id| <= 64
    && forall c <- id :: 'a' <= c <= 'z' || 'A' <= c <= 'Z' || '0' <= c <= '9' || c == '_' || c == '-'
  }

  // ---------------------------------------------------------------- presets

  /** A type that cannot be filtered, or app data, needs the scope All. */
  predicate WholeEnough(v: RawPreset, t: DataType) {
    t in {History, Downloads, FormData} || v.extension || v.protectedWeb ==> RawRuleFor(v, t).scope == Some(All)
  }

  /** What is checked before the selected types are looked at. */
  predicate FieldsGood(v: RawPreset) {
    && v.id.Some? && GoodRawId(v.id.value)
    && v.name.Some? && !Spaces(v.name.value) && |v.name.value| + |Astral(v.name.value)| <= 80
    && v.types.Some? && v.types.value != [] && (forall t <- v.types.value :: t.Some?)
    && v.range.Some?
  }

  predicate RulesGood(v: RawPreset) {
    && (forall i | 0 <= i < |v.typeRules| ::
          v.typeRules[i].0.Some? && v.typeRules[i].1.Some? && GoodRawRule(v.typeRules[i].1.value))
    && GoodRawRule(v.rule)
  }

  /** All that a preset must be. */
  predicate GoodRawPreset(v: RawPreset) {
    FieldsGood(v) && RulesGood(v) && forall t: DataType :: Some(t) in v.types.value ==> WholeEnough(v, t)
  }

  lemma {:induction false} FirstProblemIff(p: Preset, types: seq<DataType>)
    ensures FirstProblem(p, types).None? <==> forall t <- types :: TypeProblem(p, t).None?
  {
    if types != [] {
      FirstProblemIff(p, types[1..]);
      assert types == [types[0]] + types[1..];
    }
  }

  lemma WholeIsNoProblem(v: RawPreset, p: Preset, t: DataType)
    requires NormalRule(Some(v.rule)) == Ok(p.rule) && NormalTypeRules(v.typeRules) == Ok(p.typeRules)
    requires p.extension == v.extension && p.protectedWeb == v.protectedWeb
    ensures TypeProblem(p, t).None? <==> WholeEnough(v, t)
  {
    RuleForIsNormal(v, p, t);
    RuleAcceptedIff(Some(RawRuleFor(v, t)));
  }

  lemma FieldsAre(v: RawPreset)
    ensures FieldsGood(v) <==>
            && v.id.Some? && ValidId(v.id.value)
            && v.name.Some? && Trim(v.name.value) != "" && Utf16Length(v.name.value) <= 80
            && KnownTypes(v.types) && v.range.Some?
  {
    if v.name.Some? {
      TrimIsTrimmed(v.name.value);
      LengthCountsAstral(v.name.value);
    }
  }

  lemma RulesAre(v: RawPreset)
    ensures RulesGood(v) <==> NormalTypeRules(v.typeRules).Ok? && NormalRule(Some(v.rule)).Ok?
  {
    TypeRulesAcceptedIff(v.typeRules);
    RuleAcceptedIff(Some(v.rule));
  }

  lemma TypesAre(v: RawPreset, p: Preset)
    requires KnownTypes(v.types) && p.types == Dedup(TypesOf(v.types.value))
    requires NormalRule(Some(v.rule)) == Ok(p.rule) && NormalTypeRules(v.typeRules) == Ok(p.typeRules)
    requires p.extension == v.extension && p.protectedWeb == v.protectedWeb
    ensures FirstProblem(p, p.types).None? <==> forall t: DataType :: Some(t) in v.types.value ==> WholeEnough(v, t)
  {
    FirstProblemIff(p, p.types);
    forall t: DataType
      ensures t in p.types <==> Some(t) in v.types.value
      ensures TypeProblem(p, t).None? <==> WholeEnough(v, t)
    {
      TypesAsked(v.types.value, t);
      WholeIsNoProblem(v, p, t);
    }
  }

  lemma NormalPresetSteps(v: RawPreset)
    requires FieldsGood(v) && RulesGood(v)
    ensures KnownTypes(v.types) && NormalTypeRules(v.typeRules).Ok? && NormalRule(Some(v.rule)).Ok?
    ensures var p := Assembled(v, NormalTypeRules(v.typeRules).value, NormalRule(Some(v.rule)).value);
            NormalPreset(Some(v)).Ok? <==> FirstProblem(p, p.types).None?
  {
    FieldsAre(v);
    RulesAre(v);
  }

  lemma NormalPresetNeeds(v: RawPreset)
    requires NormalPreset(Some(v)).Ok?
    ensures FieldsGood(v) && RulesGood(v)
  {
    FieldsAre(v);
    RulesAre(v);
  }

  /** A preset is accepted exactly when every field is good and no type needs a wider scope. */
  lemma PresetAcceptedIff(v: RawPreset)
    ensures NormalPreset(Some(v)).Ok? <==> GoodRawPreset(v)
  {
    if NormalPreset(Some(v)).Ok? {
      NormalPresetNeeds(v);
    }
    if FieldsGood(v) && RulesGood(v) {
      NormalPresetSteps(v);
      TypesAre(v, Assembled(v, NormalTypeRules(v.typeRules).value, NormalRule(Some(v.rule)).value));
    }
  }

  /** What an accepted preset becomes, field by field. */
  lemma PresetFields(v: RawPreset)
    requires NormalPreset(Some(v)).Ok?
    ensures var p := NormalPreset(Some(v)).value;
            && Some(p.id) == v.id && v.name.Some? && TrimmedTo(v.name.value, p.name) && Some(p.range) == v.range
            && p.reload == v.reload && p.closeWindows == v.closeWindows
            && p.protectedWeb == v.protectedWeb && p.extension == v.extension
            && (forall t: DataType :: t in p.types <==> v.types.Some? && Some(t) in v.types.value)
            && forall t: DataType :: Some(RuleFor(p, t).scope) == RawRuleFor(v, t).scope
  {
    var p := NormalPreset(Some(v)).value;
    TrimIsTrimmed(v.name.value);
    PresetRules(v);
    forall t: DataType
      ensures t in p.types <==> Some(t) in v.types.value
      ensures Some(RuleFor(p, t).scope) == RawRuleFor(v, t).scope
    {
      TypesAsked(v.types.value, t);
      RuleForIsNormal(v, p, t);
      RuleAcceptedIff(Some(RawRuleFor(v, t)));
    }
  }

  // ---------------------------------------------------------------- settings

  predicate Selects(v: RawSettings, id: Option<string>) {
    id.Some? && v.presets.Some? && exists p <- v.presets.value :: p.Some? && p.value.id == id
  }

  /** All that settings must be. */
  predicate GoodRawSettings(v: RawSettings) {
    && v.version1
    && v.presets.Some? && 1 <= |v.presets.value| <= 20
    && (forall p <- v.presets.value :: p.Some? && GoodRawPreset(p.value))
    && (forall i, j | 0 <= i < j < |v.presets.value| :: v.presets.value[i].value.id != v.presets.value[j].value.id)
    && Selects(v, v.activePreset) && Selects(v, v.automation.presetId)
    && v.automation.minutes.Some? && 0 <= v.automation.minutes.value <= 10080
    && v.theme.Some?
  }

  lemma {:induction false} PresetsAcceptedIff(raw: seq<Option<RawPreset>>)
    ensures NormalPresets(raw).Ok? <==> forall p <- raw :: p.Some? && GoodRawPreset(p.value)
  {
    if raw != [] {
      PresetsAcceptedIff(raw[1..]);
      if raw[0].Some? {
        PresetAcceptedIff(raw[0].value);
      }
      assert raw == [raw[0]] + raw[1..];
    }
  }

  lemma {:induction false} PresetsAre(raw: seq<Option<RawPreset>>)
    requires NormalPresets(raw).Ok?
    ensures |NormalPresets(raw).value| == |raw|
    ensures forall i | 0 <= i < |raw| :: NormalPreset(raw[i]) == Ok(NormalPresets(raw).value[i])
  {
    if raw != [] {
      PresetsAre(raw[1..]);
    }
  }

  lemma PresetKeepsId(v: Option<RawPreset>)
    requires NormalPreset(v).Ok?
    ensures v.Some? && v.value.id == Some(NormalPreset(v).value.id)
  {
  }

  lemma IdsAre(raw: seq<Option<RawPreset>>)
    requires NormalPresets(raw).Ok?
    ensures |NormalPresets(raw).value| == |raw|
    ensures forall i | 0 <= i < |raw| :: raw[i].Some? && raw[i].value.id == Some(NormalPresets(raw).value[i].id)
  {
    PresetsAre(raw);
    forall i | 0 <= i < |raw|
      ensures raw[i].Some? && raw[i].value.id == Some(NormalPresets(raw).value[i].id)
    {
      PresetKeepsId(raw[i]);
    }
  }

  lemma SameIds(raw: seq<Option<RawPreset>>, ps: seq<Preset>, id: Option<string>)
    requires |raw| == |ps| && forall i | 0 <= i < |raw| :: raw[i].Some? && raw[i].value.id == Some(ps[i].id)
    ensures HasPreset(ps, id) <==> id.Some? && exists p <- raw :: p.Some? && p.value.id == id
  {
    if HasPreset(ps, id) {
      var p :| p in ps && p.id == id.value;
      var i :| 0 <= i < |ps| && ps[i] == p;
      assert raw[i] in raw;
    }
    if x: Option<RawPreset> :| x in raw && x.Some? && x.value.id == id {
      var i :| 0 <= i < |raw| && raw[i] == x;
      assert ps[i] in ps;
    }
  }

  lemma SelectsIs(v: RawSettings, id: Option<string>)
    requires v.presets.Some? && NormalPresets(v.presets.value).Ok?
    ensures HasPreset(NormalPresets(v.presets.value).value, id) <==> Selects(v, id)
  {
    IdsAre(v.presets.value);
    SameIds(v.presets.value, NormalPresets(v.presets.value).value, id);
  }

  lemma UniqueIs(raw: seq<Option<RawPreset>>)
    requires NormalPresets(raw).Ok? && forall p <- raw :: p.Some?
    ensures UniqueIds(NormalPresets(raw).value) <==>
            forall i, j | 0 <= i < j < |raw| :: raw[i].value.id != raw[j].value.id
  {
    IdsAre(raw);
  }

  /** Settings are accepted exactly when all of this holds. */
  lemma SettingsAcceptedIff(v: RawSettings)
    ensures NormalSettings(v).Ok? <==> GoodRawSettings(v)
  {
    if v.presets.Some? {
      PresetsAcceptedIff(v.presets.value);
      if NormalPresets(v.presets.value).Ok? {
        UniqueIs(v.presets.value);
        SelectsIs(v, v.activePreset);
        SelectsIs(v, v.automation.presetId);
      }
    }
  }

  /** What accepted settings become, field by field. */
  lemma SettingsFields(v: RawSettings)
    requires NormalSettings(v).Ok?
    ensures var s := NormalSettings(v).value;
            && s.enabled == v.enabled && s.syncEnabled == v.syncEnabled
            && Some(s.theme) == v.theme && Some(s.activePreset) == v.activePreset
            && Some(s.automation.minutes) == v.automation.minutes
            && Some(s.automation.presetId) == v.automation.presetId
            && s.automation.startup == v.automation.startup && s.automation.tabClose == v.automation.tabClose
            && v.presets.Some? && |s.presets| == |v.presets.value|
            && forall i | 0 <= i < |s.presets| :: NormalPreset(v.presets.value[i]) == Ok(s.presets[i])
  {
    PresetsAre(v.presets.value);
  }

  // ---------------------------------------------------------------- plans

  /** The start of the range that a call clears, for a plan made at `now`. */
  predicate ClearsSince(range: Range, now: int, since: int) {
    match range
    case Quarter => since == now - 900_000
    case Hour => since == now - 3_600_000
    case Day => since == now - 86_400_000
    case Week => since == now - 604_800_000
    case Month => since == now - 2_592_000_000
    case AllTime => since == 0
  }

  lemma CallsOf(p: Preset, active: Url, now: int)
    requires PlanOf(p, active, now).Ok?
    ensures forall c <- PlanOf(p, active, now).value.calls ::
              ClearsSince(p.range, now, c.since) && c.protectedWeb == p.protectedWeb && c.extension == p.extension
  {
    CallsMatchTypes(p, p.types, active, SinceOf(p, now));
    var calls := PlanOf(p, active, now).value.calls;
    forall c <- calls
      ensures ClearsSince(p.range, now, c.since) && c.protectedWeb == p.protectedWeb && c.extension == p.extension
    {
      var i :| 0 <= i < |calls| && calls[i] == c;
      assert CallFor(p, p.types[i], active, SinceOf(p, now)) == Ok(calls[i]);
    }
  }

  /** Every call of a plan clears exactly the range and the origin types that its preset names. */
  lemma PlanClearsItsRange(v: RawPreset, active: Url, now: int)
    requires PlanFor(Some(v), active, now).Ok?
    ensures forall c <- PlanFor(Some(v), active, now).value.calls ::
              && c.protectedWeb == v.protectedWeb && c.extension == v.extension
              && match v.range
                 case None => false
                 case Some(Quarter) => c.since == now - 900_000
                 case Some(Hour) => c.since == now - 3_600_000
                 case Some(Day) => c.since == now - 86_400_000
                 case Some(Week) => c.since == now - 604_800_000
                 case Some(Month) => c.since == now - 2_592_000_000
                 case Some(AllTime) => c.since == 0
  {
    PresetFields(v);
    CallsOf(NormalPreset(Some(v)).value, active, now);
  }

  predicate Selected(v: RawPreset, t: DataType) {
    v.types.Some? && Some(t) in v.types.value
  }

  /** The name and flags of a plan, from the raw preset. */
  lemma PlanFlags(v: RawPreset, active: Url, now: int)
    requires PlanFor(Some(v), active, now).Ok?
    ensures var plan := PlanFor(Some(v), active, now).value;
            && v.name.Some? && TrimmedTo(v.name.value, plan.name)
            && plan.reload == v.reload && plan.closeWindows == v.closeWindows
            && (plan.automaticSafe <==>
                  && !v.closeWindows && !v.extension && !v.protectedWeb
                  && forall t: DataType :: Selected(v, t) ==> t == Cache || t == CacheStorage)
  {
    var p := NormalPreset(Some(v)).value;
    PresetFields(v);
    FlagsOf(p, active, now);
    CachesOnly(v, p.types);
  }

  lemma FlagsOf(p: Preset, active: Url, now: int)
    requires PlanOf(p, active, now).Ok?
    ensures var plan := PlanOf(p, active, now).value;
            && plan.name == p.name && plan.reload == p.reload && plan.closeWindows == p.closeWindows
            && plan.automaticSafe ==
               (!p.closeWindows && !p.extension && !p.protectedWeb && IsCacheOnly(p.types))
  {
  }

  lemma CachesOnly(v: RawPreset, types: seq<DataType>)
    requires forall t: DataType :: t in types <==> Selected(v, t)
    ensures IsCacheOnly(types) <==> forall t: DataType :: Selected(v, t) ==> t == Cache || t == CacheStorage
  {
  }

  /** Its warnings, one for each kind of harm, in order. */
  lemma PlanWarns(v: RawPreset, active: Url, now: int)
    requires PlanFor(Some(v), active, now).Ok?
    ensures PlanFor(Some(v), active, now).value.warnings ==
              (if Selected(v, Cookies) then [CookieDomain] else [])
              + (if Selected(v, LocalStorage) || Selected(v, IndexedDB) || Selected(v, FileSystems)
                    || Selected(v, ServiceWorkers) then [UnsavedWork] else [])
              + (if v.protectedWeb || v.extension then [AppData] else [])
              + (if v.closeWindows then [WindowsClose] else [])
  {
    PresetFields(v);
    PresetWarns(NormalPreset(Some(v)).value);
  }

  lemma PresetWarns(p: Preset)
    ensures WarningsFor(p) ==
              (if Cookies in p.types then [CookieDomain] else [])
              + (if LocalStorage in p.types || IndexedDB in p.types || FileSystems in p.types
                    || ServiceWorkers in p.types then [UnsavedWork] else [])
              + (if p.protectedWeb || p.extension then [AppData] else [])
              + (if p.closeWindows then [WindowsClose] else [])
  {
    assert (exists t <- p.types :: IsStorage(t)) <==>
           LocalStorage in p.types || IndexedDB in p.types || FileSystems in p.types || ServiceWorkers in p.types;
  }

  /** A plan is made exactly for a good preset whose active-tab types find an http or https page. */
  lemma PlanMadeIff(v: RawPreset, active: Url, now: int)
    ensures PlanFor(Some(v), active, now).Ok? <==>
            && GoodRawPreset(v)
            && ((exists t: DataType :: Selected(v, t) && RawRuleFor(v, t).scope == Some(Active)) ==>
                  active.Url? && (active.protocol == "http:" || active.protocol == "https:"))
  {
    PresetAcceptedIff(v);
    if NormalPreset(Some(v)).Ok? {
      var p := NormalPreset(Some(v)).value;
      PresetFields(v);
      CallsMadeIff(p, p.types, active, SinceOf(p, now));
    }
  }

  lemma {:induction false} CallsMadeIff(p: Preset, types: seq<DataType>, active: Url, since: int)
    ensures CallsFor(p, types, active, since).Ok? <==>
            ((exists t <- types :: RuleFor(p, t).scope == Active) ==>
               active.Url? && (active.protocol == "http:" || active.protocol == "https:"))
  {
    if types != [] {
      CallsMadeIff(p, types[1..], active, since);
      assert types == [types[0]] + types[1..];
    }
  }

  // ---------------------------------------------------------------- issued removals

  /**
   In every run an issued removal clears nothing older than the range of its preset, counted
   from the moment its plan was made, and the origin types that its preset names.
   */
  lemma RemovalsClearTheirRange(w: World, i: nat, k: nat)
    requires Reached(w)
    requires i < |w.did| && k < |w.did[i]| && w.did[i][k].Issued?
    ensures var e, call := w.did[i][0], w.did[i][k].call;
            && e.Started? && PresetBehind(e, w.made).Some?
            && var p := PresetBehind(e, w.made).value;
               && ClearsSince(p.range, TimeBehind(e, w.made), call.since)
               && call.protectedWeb == p.protectedWeb && call.extension == p.extension
  {
    ReachedInv(w);
    IssuedHasStart(w, i, k);
    var e, call := w.did[i][0], w.did[i][k].call;
    StartIsPlanned(e, w.made);
    var p, tab, now := PresetBehind(e, w.made).value, TabBehind(e, w.made), TimeBehind(e, w.made);
    var plan := PlanFor(Some(RawOfPreset(p)), tab, now).value;
    assert plan.calls == e.plan.calls;
    PlanClearsItsRange(RawOfPreset(p), tab, now);
    assert call in plan.calls;
  }

  // ---------------------------------------------------------------- the worker

  /**
   Nothing is on before anything is stored, and the one preset there is clears the caches of the
   active tab for the last hour.
   */
  lemma FreshInstallIsOff()
    ensures var r := ReadOf(Got(None));
            && r.Ok? && !r.value.enabled && !r.value.syncEnabled && r.value.theme == Dark
            && r.value.automation == Automation(0, false, false, "cache") && r.value.activePreset == "cache"
            && !Enabled(Got(None))
            && |r.value.presets| == 1
            && var p := r.value.presets[0];
               && p.id == "cache" && p.types == [Cache, CacheStorage] && p.range == Hour && p.reload
               && !p.closeWindows && !p.protectedWeb && !p.extension
               && p.rule.scope == Active && p.typeRules == []
  {}

  /** A preview goes on only with developer mode on and no cleanup under way. */
  lemma PreviewAnswers(sh: Shared, msg: PreviewMessage, clean: bool, s: Sample)
    ensures var n := PreviewChecked(sh, PreviewRead(msg, clean, Some(s)), s);
            && n.sh == sh && n.effects == []
            && (n.task.PreviewTab? <==> ReadOf(s).Ok? && ReadOf(s).value.enabled && !sh.running)
            && (n.task.PreviewTab? ==> n.task == PreviewTab(ReadOf(s).value, msg, clean))
            && (!n.task.PreviewTab? ==> n.task.Done?)
  {}

  /** It issues one ticket, good for a minute, that holds the tab and the settings it looked at. */
  lemma PreviewIssues(sh: Shared, settings: Settings, msg: PreviewMessage, clean: bool, x: Input)
    ensures var n := PreviewIssued(sh, PreviewTab(settings, msg, clean), x);
            && n.effects == [] && n.sh == sh.(tickets := n.sh.tickets)
            && (x.tab.TabFailed? || TicketFor(settings, msg, x).None? ==> n == Next(sh, Done, []))
            && (TicketFor(settings, msg, x).Some? ==>
                  && n.sh.tickets.Keys == {x.token}
                  && var k := n.sh.tickets[x.token];
                     && k.settings == settings && k.expires == x.later + 60_000
                     && k.tabId == (if x.tab.ATab? then Some(x.tab.id) else None)
                     && k.url == (if x.tab.ATab? then Some(x.tab.url) else None)
                     && n.task == if clean then CleanGot(x.token, k.plan) else Done)
  {}

  /** A ticket is used up by its first execute, and picked exactly when confirmed within its minute. */
  lemma ExecuteAnswers(sh: Shared, token: Token, confirmed: bool, now: int)
    ensures var n := Post(sh, ExecuteAsked(token, confirmed, now));
            && n.effects == [] && n.sh == sh.(tickets := sh.tickets - {token})
            && (n.task.ExecRead? <==> confirmed && token in sh.tickets && now <= sh.tickets[token].expires)
            && (n.task.ExecRead? ==> n.task == ExecRead(Pick(sh.tickets[token], Confirmed(token), now), None))
            && (!n.task.ExecRead? ==> n.task.Done?)
  {}

  /** One click previews the active preset, and runs the plan exactly when it needs no confirmation. */
  lemma CleanAnswers(sh: Shared, token: Token, plan: Plan, x: Input)
    ensures Post(sh, CleanAsked) == Next(sh, PreviewRead(PreviewMessage(None, None), true, None), [])
    ensures var n := Resume(sh, CleanGot(token, plan), x);
            && n.effects == []
            && (n.task.ExecRead? <==> plan.automaticSafe && token in sh.tickets && x.now <= sh.tickets[token].expires)
            && (n.task.ExecRead? ==> n.task.pick == Pick(sh.tickets[token], OneClick(token), x.now))
            && n.sh == (if plan.automaticSafe then sh.(tickets := sh.tickets - {token}) else sh)
  {}

  /** What was picked starts exactly when nothing changed since the preview and no cleanup runs. */
  lemma PickedAnswers(sh: Shared, p: Pick, s: Sample, x: Input)
    ensures var n := Resume(sh, ExecRead(p, Some(s)), x);
            var same := ReadOf(s) == Ok(p.ticket.settings) && p.ticket.settings.enabled;
            && (n.task.ExecTab? <==> same && p.ticket.requiresActive)
            && (n.task.ExecTab? ==> n.task == ExecTab(p, p.ticket.settings))
            && (n.effects != [] <==> same && !p.ticket.requiresActive && !sh.running)
            && (n.effects != [] ==> n.effects[0].Started? && n.effects[0].plan == p.ticket.plan)
  {}

  lemma PickedTabAnswers(sh: Shared, p: Pick, read: Settings, x: Input)
    ensures var n := Resume(sh, ExecTab(p, read), x);
            var url := if x.tab.ATab? then Some(x.tab.url) else None;
            && (n.effects != [] <==> !x.tab.TabFailed? && url == p.ticket.url && !sh.running)
            && (n.effects != [] ==> n.effects[0].Started? && n.effects[0].plan == p.ticket.plan)
  {}

  /** Installing saves the settings as they are, unless they do not fit. */
  lemma InstallAnswers(sh: Shared, tooBig: bool, s: Sample, x: Input)
    ensures var n := Resume(sh, InstallRead(tooBig, Some(s)), x);
            && n.effects == [] && n.sh.stored == sh.stored
            && (n.task.SaveWrite? ==>
                  ReadOf(s) == Ok(n.task.settings) && !(n.task.settings.syncEnabled && tooBig))
            && (!n.task.SaveWrite? ==> n == Next(sh, Done, []))
  {
    if ReadOf(s).Ok? && NormalSettings(RawOf(ReadOf(s).value)).Ok? {
      ReadAgain(s);
    }
  }

  lemma OnePresetIsGood(s: Settings, p: Preset)
    requires GoodPreset(p) && s.presets == [p] && s.activePreset == p.id
    requires s.automation.presetId == p.id && s.automation.minutes == 0
    ensures GoodSettings(s)
  {
    assert p in s.presets;
  }

  lemma {:induction false} ShortFits(s: string)
    ensures Utf16Length(s) <= 2 * |s|
  {
    if s != "" {
      ShortFits(s[1..]);
    }
  }

  /** A preset for caches without overrides. */
  lemma CachePresetIsGood(p: Preset)
    requires p.id == "cache" && p.types == [Cache, CacheStorage] && p.typeRules == [] && p.rule == Rule(Active, [])
    requires !p.extension && !p.protectedWeb && p.name != "" && |p.name| <= 40
    requires !IsJsSpace(p.name[0]) && !IsJsSpace(p.name[|p.name| - 1])
    ensures GoodPreset(p)
  {
    ShortFits(p.name);
    assert FirstProblem(p, p.types[2..]).None?;
    assert p.types[1..][1..] == p.types[2..];
    assert FirstProblem(p, p.types[1..]).None?;
  }

  lemma DefaultsAreGood()
    ensures GoodSettings(DEFAULTS)
  {
    CachePresetIsGood(DEFAULT_PRESET);
    OnePresetIsGood(DEFAULTS, DEFAULT_PRESET);
  }

  lemma ReadAgain(s: Sample)
    requires ReadOf(s).Ok? && NormalSettings(RawOf(ReadOf(s).value)).Ok?
    ensures NormalSettings(RawOf(ReadOf(s).value)) == Ok(ReadOf(s).value)
  {
    if s == Got(None) {
      DefaultsAreGood();
    } else {
      NormalSettingsAreGood(RawOf(s.stored.value));
    }
    SettingsReadBack(ReadOf(s).value);
  }

  /** In every run a removal belongs to a cleanup that began under settings with developer mode on. */
  lemma RemovalsNeedDeveloperMode(w: World, i: nat, k: nat)
    requires Reached(w)
    requires i < |w.did| && k < |w.did[i]| && w.did[i][k].Issued?
    ensures var e := w.did[i][0];
            e.Started? && e.read.Some? && e.read.value.enabled
  {
    ReachedInv(w);
    IssuedHasStart(w, i, k);
  }

  /** A queued review goes away with the next cleanup that ends well. */
  lemma CleanupAnswersReview(sh: Shared, job: Job, x: Input)
    ensures var n := Resume(sh, ClearingReview(job), x);
            && n.effects == [] && n.sh.stored == sh.stored && n.sh.tickets == sh.tickets
            && n.sh.pendingReview == (if x.ok then None else sh.pendingReview)
            && n.task == if x.ok then FollowRead(job, None) else FailRecording(job)
  {}

  /** A save is refused exactly for bad settings, or for a shared item that is too big. */
  lemma SaveAnswers(sh: Shared, v: RawSettings, tooBig: bool)
    ensures var n := SaveStart(sh, v, tooBig);
            && n.effects == [] && n.sh.stored == sh.stored
            && (n.task.SaveWrite? <==> GoodRawSettings(v) && !(v.syncEnabled && tooBig))
            && (n.task.SaveWrite? ==> n.sh.tickets == map[] && NormalSettings(v) == Ok(n.task.settings))
            && (!n.task.SaveWrite? ==> n == Next(sh, Done, []))
  {
    SettingsAcceptedIff(v);
    if NormalSettings(v).Ok? {
      SettingsFields(v);
    }
  }

  /** What other devices see: presets and appearance, with everything that acts switched off. */
  predicate SharedForm(x: Settings, s: Settings) {
    && x.presets == s.presets && x.theme == s.theme && x.activePreset == s.activePreset
    && !x.enabled && x.syncEnabled
    && x.automation.minutes == 0 && !x.automation.startup && !x.automation.tabClose
    && x.automation.presetId == s.activePreset
  }

  /** After a save the shared item is that form of the settings, or is gone with sync off. */
  lemma SavedIsShared(sh: Shared, s: Settings, x: Input)
    requires x.ok
    ensures var r := Resume(sh, SaveSync(s), x).sh;
            && (s.syncEnabled ==> r.synced.Some? && SharedForm(r.synced.value, s))
            && (!s.syncEnabled ==> r.synced.None?)
            && r.stored == sh.stored
  {}

  /** An incoming item is stored in that form, and only if it differs from what is current. */
  lemma IncomingIsItsForm(current: Settings, newValue: RawSettings)
    requires IncomingFor(current, newValue).Some?
    ensures NormalSettings(newValue).Ok?
    ensures SharedForm(IncomingFor(current, newValue).value, NormalSettings(newValue).value)
    ensures !SharedForm(IncomingFor(current, newValue).value, current)
  {
    var first := NormalSettings(newValue).value;
    NormalSettingsAreGood(newValue);
    SettingsReadBack(SharedSettings(first));
  }

  /** A queued review is stored for the user when its write succeeds. */
  lemma ReviewIsKept(sh: Shared, review: Review, x: Input)
    ensures Resume(sh, AutoReview(review), x).sh.pendingReview ==
            if x.ok then Some(review) else sh.pendingReview
    ensures Resume(sh, AutoReview(review), x).effects == []
  {}

  /** After the last removal windows close or the tab reloads as the plan says, unless switched off. */
  lemma FollowUpAnswers(sh: Shared, job: Job, s: Sample)
    ensures var n := FollowStretch(sh, job, s);
            && (n.task.Listing? <==> Enabled(s) && job.plan.closeWindows)
            && (n.task.Reloading? <==> Enabled(s) && job.plan.reload && !job.plan.closeWindows && job.tabId.Some?)
            && (Reloaded in n.effects <==> n.task.Reloading?) && WindowsClosed !in n.effects
  {}
}

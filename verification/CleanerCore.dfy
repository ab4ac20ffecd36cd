/**
 The normaliser and planner of the cleaner.  Raw values carry the distinctions that the
 code makes about parsed JSON; URL parsing itself is left to the browser, so an origin
 entry comes with what its text parses to.
 */
module CleanerCore {
  import opened Wrappers

  datatype DataType =
    | Cache | CacheStorage | Cookies | LocalStorage | IndexedDB
    | ServiceWorkers | FileSystems | History | Downloads | FormData

  datatype Range = Quarter | Hour | Day | Week | Month | AllTime

  datatype Scope = Active | Include | Exclude | All

  datatype Theme = System | Light | Dark

  datatype Problem =
    | TooManyOrigins | EmptyOrigin | InvalidOrigin | NotExact | BadScope | EmptyFilter
    | BadId | BadName | BadTypes | BadRange | UnsupportedType | NeedsWholeBrowser | AppDataNeedsWholeBrowser
    | BadFormat | BadPresets | DuplicateIds | NoActivePreset | BadSchedule | NoAutomationPreset | BadTheme
    | NoWebsite

  const MAX_ORIGINS: nat := 100

  predicate IsGlobal(t: DataType) {
    t == History || t == Downloads || t == FormData
  }

  function Millis(r: Range): int {
    match r
    case Quarter => 900_000
    case Hour => 3_600_000
    case Day => 86_400_000
    case Week => 604_800_000
    case Month => 2_592_000_000
    case AllTime => 0
  }

  // ---------------------------------------------------------------- origins

  datatype Url =
    | NotAUrl
    | Url(protocol: string, username: string, password: string, hostname: string, port: string,
          pathname: string, search: string, hash: string)

  datatype Origin = Origin(protocol: string, hostname: string, port: string)

  /** An entry of an origin list; text without "://" is tried under both schemes. */
  datatype Entry = NotText | Blank | Explicit(url: Url) | Bare(http: Url, https: Url)

  datatype RawList = Missing | NotAList | List(entries: seq<Entry>)

  function OriginOf(u: Url): Origin
    requires u.Url?
  {
    Origin(u.protocol, u.hostname, u.port)
  }

  predicate IsWeb(protocol: string) {
    protocol == "http:" || protocol == "https:"
  }

  function Candidate(u: Url): Result<Origin, Problem> {
    if u.NotAUrl? then Err(InvalidOrigin)
    else if !IsWeb(u.protocol) || u.username != "" || u.password != "" || u.pathname != "/" || u.search != ""
        || u.hash != ""
            || '*' in u.hostname then Err(NotExact)
    else Ok(OriginOf(u))
  }

  function Expand(e: Entry): Result<seq<Origin>, Problem> {
    match e
    case NotText => Err(EmptyOrigin)
    case Blank => Err(EmptyOrigin)
    case Explicit(u) =>
      var o := Candidate(u);
      if o.Err? then Err(o.error) else Ok([o.value])
    case Bare(h, s) =>
      var a, b := Candidate(h), Candidate(s);
      if a.Err? then Err(a.error) else if b.Err? then Err(b.error) else Ok([a.value, b.value])
  }

  function ExpandAll(entries: seq<Entry>): Result<seq<Origin>, Problem> {
    if entries == [] then Ok([])
    else
      var first := Expand(entries[0]);
      if first.Err? then first
      else
        var rest := ExpandAll(entries[1..]);
        if rest.Err? then rest else Ok(first.value + rest.value)
  }

  /** First occurrences, in order, as when a list becomes a set and a list again. */
  function Dedup<T(==,!new)>(s: seq<T>): (r: seq<T>)
    ensures forall x :: x in r <==> x in s
    ensures Distinct(r) && |r| <= |s|
  {
    if s == [] then []
    else
      var r := Dedup(s[..|s| - 1]);
      if s[|s| - 1] in s[..|s| - 1] then r else r + [s[|s| - 1]]
  }

  ghost predicate Distinct<T(!new)>(s: seq<T>) {
    forall i, j :: 0 <= i < j < |s| ==> s[i] != s[j]
  }

  function Origins(raw: RawList): Result<seq<Origin>, Problem> {
    match raw
    case Missing => Ok([])
    case NotAList => Err(TooManyOrigins)
    case List(entries) =>
      if |entries| > MAX_ORIGINS then Err(TooManyOrigins)
      else
        var all := ExpandAll(entries);
        if all.Err? then all else Ok(Dedup(all.value))
  }

  // ---------------------------------------------------------------- rules and presets

  datatype RawRule = RawRule(scope: Option<Scope>, origins: RawList)

  datatype Rule = Rule(scope: Scope, origins: seq<Origin>)

  /** A preset as stored or imported; None marks a field of the wrong kind. */
  datatype RawPreset = RawPreset(
    id: Option<string>, name: Option<string>, types: Option<seq<Option<DataType>>>,
    typeRules: seq<(Option<DataType>, Option<RawRule>)>, range: Option<Range>, rule: RawRule,
    reload: bool, closeWindows: bool, protectedWeb: bool, extension: bool)

  type TypeRules = seq<(DataType, Rule)>

  datatype Preset = Preset(
    rule: Rule, id: string, name: string, types: seq<DataType>, typeRules: TypeRules, range: Range,
    reload: bool, closeWindows: bool, protectedWeb: bool, extension: bool)

  function NormalRule(value: Option<RawRule>): Result<Rule, Problem> {
    if value.None? || value.value.scope.None? then Err(BadScope)
    else
      var list := Origins(value.value.origins);
      if list.Err? then Err(list.error)
      else if (value.value.scope.value == Include || value.value.scope.value == Exclude) && list.value == [] then
          Err(EmptyFilter)
      else Ok(Rule(value.value.scope.value, list.value))
  }

  /** Object assignment: an existing key keeps its place. */
  function Put(rules: TypeRules, t: DataType, r: Rule): TypeRules {
    if rules == [] then [(t, r)]
    else if rules[0].0 == t then [(t, r)] + rules[1..]
    else [rules[0]] + Put(rules[1..], t, r)
  }

  function Lookup(rules: TypeRules, t: DataType): Option<Rule> {
    if rules == [] then None
    else if rules[0].0 == t then Some(rules[0].1)
    else Lookup(rules[1..], t)
  }

  function NormalTypeRules(raw: seq<(Option<DataType>, Option<RawRule>)>): Result<TypeRules, Problem> {
    if raw == [] then Ok([])
    else
      var before := NormalTypeRules(raw[..|raw| - 1]);
      var (t, entry) := raw[|raw| - 1];
      if before.Err? then before
      else if t.None? then Err(UnsupportedType)
      else
        var r := NormalRule(entry);
        if r.Err? then Err(r.error) else Ok(Put(before.value, t.value, r.value))
  }

  predicate IsJsSpace(c: char) {
    || '\t' <= c <= '\r' || c == ' ' || c as int == 0xa0 || c as int == 0x1680
    || 0x2000 <= c as int <= 0x200a || c as int == 0x2028 || c as int == 0x2029 || c as int == 0x202f
    || c as int == 0x205f || c as int == 0x3000 || c as int == 0xfeff
  }

  function Trim(s: string): (r: string)
    ensures Utf16Length(r) <= Utf16Length(s)
    ensures r != "" ==> !IsJsSpace(r[0]) && !IsJsSpace(r[|r| - 1])
  {
    if s == "" then s
    else if IsJsSpace(s[0]) then Trim(s[1..])
    else if IsJsSpace(s[|s| - 1]) then
      LengthOfFront(s); Trim(s[..|s| - 1])
    else s
  }

  function Units(c: char): nat {
    if c as int >= 0x1_0000 then 2 else 1
  }

  function Utf16Length(s: string): nat {
    if s == "" then 0 else Units(s[0]) + Utf16Length(s[1..])
  }

  lemma {:induction false} LengthOfFront(s: string)
    requires s != ""
    ensures Utf16Length(s) == Utf16Length(s[..|s| - 1]) + Units(s[|s| - 1])
  {
    if |s| > 1 {
      LengthOfFront(s[1..]);
      assert s[1..][..|s| - 2] == s[..|s| - 1][1..];
    }
  }

  predicate IsIdChar(c: char) {
    'a' <= c <= 'z' || 'A' <= c <= 'Z' || '0' <= c <= '9' || c == '_' || c == '-'
  }

  predicate ValidId(id: string) {
    1 <= |id| <= 64 && forall c <- id :: IsIdChar(c)
  }

  function RuleFor(p: Preset, t: DataType): Rule {
    var own := Lookup(p.typeRules, t);
    if own.Some? then own.value else p.rule
  }

  /** The checks on one selected type, in the order of the code. */
  function TypeProblem(p: Preset, t: DataType): Option<Problem> {
    if IsGlobal(t) && RuleFor(p, t).scope != All then Some(NeedsWholeBrowser)
    else if (p.extension || p.protectedWeb) && RuleFor(p, t).scope != All then Some(AppDataNeedsWholeBrowser)
    else None
  }

  function FirstProblem(p: Preset, types: seq<DataType>): Option<Problem> {
    if types == [] then None
    else if TypeProblem(p, types[0]).Some? then TypeProblem(p, types[0])
    else FirstProblem(p, types[1..])
  }

  predicate KnownTypes(types: Option<seq<Option<DataType>>>) {
    types.Some? && types.value != [] && forall t <- types.value :: t.Some?
  }

  function TypesOf(types: seq<Option<DataType>>): seq<DataType>
    requires forall t <- types :: t.Some?
  {
    seq(|types|, i requires 0 <= i < |types| => types[i].value)
  }

  function Assembled(v: RawPreset, typeRules: TypeRules, rule: Rule): Preset
    requires v.id.Some? && v.name.Some? && KnownTypes(v.types) && v.range.Some?
  {
    Preset(rule, v.id.value, Trim(v.name.value), Dedup(TypesOf(v.types.value)), typeRules, v.range.value,
           v.reload, v.closeWindows, v.protectedWeb, v.extension)
  }

  function NormalPreset(value: Option<RawPreset>): Result<Preset, Problem> {
    if value.None? || value.value.id.None? || !ValidId(value.value.id.value) then Err(BadId)
    else
      var v := value.value;
      if v.name.None? || Trim(v.name.value) == "" || Utf16Length(v.name.value) > 80 then Err(BadName)
      else if !KnownTypes(v.types) then Err(BadTypes)
      else if v.range.None? then Err(BadRange)
      else
        var typeRules := NormalTypeRules(v.typeRules);
        if typeRules.Err? then Err(typeRules.error)
        else
          var rule := NormalRule(Some(v.rule));
          if rule.Err? then Err(rule.error)
          else
            var p := Assembled(v, typeRules.value, rule.value);
            var problem := FirstProblem(p, p.types);
            if problem.Some? then Err(problem.value) else Ok(p)
  }

  /** `preset` as the code runs it: one loop fills `typeRules`, one checks the types. */
  method PresetOf(value: Option<RawPreset>) returns (r: Result<Preset, Problem>)
    ensures r == NormalPreset(value)
  {
    if value.None? || value.value.id.None? || !ValidId(value.value.id.value) {
      return Err(BadId);
    }
    var v := value.value;
    if v.name.None? || Trim(v.name.value) == "" || Utf16Length(v.name.value) > 80 {
      return Err(BadName);
    }
    if !KnownTypes(v.types) {
      return Err(BadTypes);
    }
    if v.range.None? {
      return Err(BadRange);
    }
    var filled := FillTypeRules(v.typeRules);
    if filled.Err? {
      return Err(filled.error);
    }
    var rule := NormalRule(Some(v.rule));
    if rule.Err? {
      return Err(rule.error);
    }
    var result := Assembled(v, filled.value, rule.value);
    var problem := CheckTypes(result);
    r := if problem.Some? then Err(problem.value) else Ok(result);
  }

  method FillTypeRules(raw: seq<(Option<DataType>, Option<RawRule>)>) returns (r: Result<TypeRules, Problem>)
    ensures r == NormalTypeRules(raw)
  {
    var typeRules: TypeRules := [];
    for i := 0 to |raw|
      invariant NormalTypeRules(raw[..i]) == Ok(typeRules)
    {
      assert raw[..i + 1][..i] == raw[..i];
      if raw[i].0.None? {
        NormalTypeRulesStops(raw, i + 1);
        return Err(UnsupportedType);
      }
      var rule := NormalRule(raw[i].1);
      if rule.Err? {
        NormalTypeRulesStops(raw, i + 1);
        return Err(rule.error);
      }
      typeRules := Put(typeRules, raw[i].0.value, rule.value);
    }
    assert raw[..|raw|] == raw;
    r := Ok(typeRules);
  }

  lemma {:induction false} NormalTypeRulesStops(raw: seq<(Option<DataType>, Option<RawRule>)>, n: nat)
    requires n <= |raw| && NormalTypeRules(raw[..n]).Err?
    ensures NormalTypeRules(raw) == NormalTypeRules(raw[..n])
    decreases |raw|
  {
    if n == |raw| {
      assert raw[..n] == raw;
    } else {
      assert raw[..|raw| - 1][..n] == raw[..n];
      NormalTypeRulesStops(raw[..|raw| - 1], n);
    }
  }

  method CheckTypes(p: Preset) returns (problem: Option<Problem>)
    ensures problem == FirstProblem(p, p.types)
  {
    for i := 0 to |p.types|
      invariant FirstProblem(p, p.types) == FirstProblem(p, p.types[i..])
    {
      if TypeProblem(p, p.types[i]).Some? {
        return TypeProblem(p, p.types[i]);
      }
      assert p.types[i..][1..] == p.types[i + 1..];
    }
    problem := None;
  }

  // ---------------------------------------------------------------- settings

  /** `minutes` is the number the schedule coerces to, if that is an integer. */
  datatype RawAutomation = RawAutomation(minutes: Option<int>, startup: bool, tabClose: bool, presetId: Option<string>)

  datatype RawSettings = RawSettings(
    version1: bool, enabled: bool, syncEnabled: bool, theme: Option<Theme>, activePreset: Option<string>,
    presets: Option<seq<Option<RawPreset>>>, automation: RawAutomation)

  datatype Automation = Automation(minutes: int, startup: bool, tabClose: bool, presetId: string)

  datatype Settings = Settings(
    enabled: bool, syncEnabled: bool, theme: Theme, activePreset: string, presets: seq<Preset>, automation: Automation)

  function NormalPresets(raw: seq<Option<RawPreset>>): Result<seq<Preset>, Problem> {
    if raw == [] then Ok([])
    else
      var first := NormalPreset(raw[0]);
      if first.Err? then Err(first.error)
      else
        var rest := NormalPresets(raw[1..]);
        if rest.Err? then rest else Ok([first.value] + rest.value)
  }

  predicate HasPreset(presets: seq<Preset>, id: Option<string>) {
    id.Some? && exists p <- presets :: p.id == id.value
  }

  predicate UniqueIds(presets: seq<Preset>) {
    forall i, j :: 0 <= i < j < |presets| ==> presets[i].id != presets[j].id
  }

  function NormalSettings(v: RawSettings): Result<Settings, Problem> {
    if !v.version1 then Err(BadFormat)
    else if v.presets.None? || v.presets.value == [] || |v.presets.value| > 20 then Err(BadPresets)
    else
      var presets := NormalPresets(v.presets.value);
      if presets.Err? then Err(presets.error)
      else if !UniqueIds(presets.value) then Err(DuplicateIds)
      else if !HasPreset(presets.value, v.activePreset) then Err(NoActivePreset)
      else
        var minutes := v.automation.minutes;
        if minutes.None? || !(minutes.value == 0 || 1 <= minutes.value <= 10080) then Err(BadSchedule)
        else if !HasPreset(presets.value, v.automation.presetId) then Err(NoAutomationPreset)
        else if v.theme.None? then Err(BadTheme)
        else
          Ok(Settings(v.enabled, v.syncEnabled, v.theme.value, v.activePreset.value, presets.value,
                      Automation(minutes.value, v.automation.startup, v.automation.tabClose,
                          v.automation.presetId.value)))
  }

  const DEFAULT_PRESET := Preset(
    Rule(Active, []), "cache", "Cache refresh", [Cache, CacheStorage], [], Hour, true, false, false, false)

  const DEFAULTS := Settings(false, false, Dark, "cache", [DEFAULT_PRESET], Automation(0, false, false, "cache"))

  // ---------------------------------------------------------------- plans

  datatype Filter = Only(origins: seq<Origin>) | Except(origins: seq<Origin>) | Everywhere

  datatype Call = Call(t: DataType, since: int, protectedWeb: bool, extension: bool, filter: Filter)

  datatype Warning = CookieDomain | UnsavedWork | AppData | WindowsClose

  datatype Plan = Plan(
    name: string, calls: seq<Call>, warnings: seq<Warning>, reload: bool, closeWindows: bool, automaticSafe: bool)

  function FilterFor(r: Rule, active: Url): Result<Filter, Problem> {
    match r.scope
    case Active => if active.NotAUrl? || !IsWeb(active.protocol) then Err(NoWebsite) else Ok(Only([OriginOf(active)]))
    case Include => Ok(Only(r.origins))
    case Exclude => Ok(Except(r.origins))
    case All => Ok(Everywhere)
  }

  function CallFor(p: Preset, t: DataType, active: Url, since: int): Result<Call, Problem> {
    var filter := FilterFor(RuleFor(p, t), active);
    if filter.Err? then Err(filter.error) else Ok(Call(t, since, p.protectedWeb, p.extension, filter.value))
  }

  function CallsFor(p: Preset, types: seq<DataType>, active: Url, since: int): Result<seq<Call>, Problem> {
    if types == [] then Ok([])
    else
      var first := CallFor(p, types[0], active, since);
      if first.Err? then Err(first.error)
      else
        var rest := CallsFor(p, types[1..], active, since);
        if rest.Err? then rest else Ok([first.value] + rest.value)
  }

  predicate IsStorage(t: DataType) {
    t == LocalStorage || t == IndexedDB || t == FileSystems || t == ServiceWorkers
  }

  function WarningsFor(p: Preset): seq<Warning> {
    (if Cookies in p.types then [CookieDomain] else [])
    + (if exists t <- p.types :: IsStorage(t) then [UnsavedWork] else [])
    + (if p.protectedWeb || p.extension then [AppData] else [])
    + (if p.closeWindows then [WindowsClose] else [])
  }

  predicate IsCacheOnly(types: seq<DataType>) {
    forall t <- types :: t == Cache || t == CacheStorage
  }

  predicate Unattended(p: Preset) {
    !p.closeWindows && !p.extension && !p.protectedWeb && IsCacheOnly(p.types)
  }

  function PlanOf(p: Preset, active: Url, now: int): Result<Plan, Problem> {
    var calls := CallsFor(p, p.types, active, SinceOf(p, now));
    if calls.Err? then Err(calls.error)
    else Ok(Plan(p.name, calls.value, WarningsFor(p), p.reload, p.closeWindows, Unattended(p)))
  }

  function SinceOf(p: Preset, now: int): int {
    if p.range == AllTime then 0 else now - Millis(p.range)
  }

  function PlanFor(value: Option<RawPreset>, active: Url, now: int): Result<Plan, Problem> {
    var selected := NormalPreset(value);
    if selected.Err? then Err(selected.error) else PlanOf(selected.value, active, now)
  }

  /** `plan` as the code runs it. */
  method MakePlan(value: Option<RawPreset>, active: Url, now: int) returns (r: Result<Plan, Problem>)
    ensures r == PlanFor(value, active, now)
  {
    var selected := PresetOf(value);
    if selected.Err? {
      return Err(selected.error);
    }
    var p := selected.value;
    var calls := CallsFor(p, p.types, active, SinceOf(p, now));
    if calls.Err? {
      return Err(calls.error);
    }
    var warnings := PushWarnings(p);
    r := Ok(Plan(p.name, calls.value, warnings, p.reload, p.closeWindows, Unattended(p)));
  }

  method PushWarnings(p: Preset) returns (warnings: seq<Warning>)
    ensures warnings == WarningsFor(p)
  {
    warnings := [];
    if Cookies in p.types {
      warnings := warnings + [CookieDomain];
    }
    if exists t <- p.types :: IsStorage(t) {
      warnings := warnings + [UnsavedWork];
    }
    if p.protectedWeb || p.extension {
      warnings := warnings + [AppData];
    }
    if p.closeWindows {
      warnings := warnings + [WindowsClose];
    }
  }
}

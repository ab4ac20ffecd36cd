/** What a due trigger does, said about the stored preset alone. */
module CleanerTriggers {
  import opened Wrappers
  import opened CleanerCore
  import opened CleanerTheorems
  import opened CleanerWorker
  import opened CleanerSync

  /** Caches only, nothing protected, no windows, and no rule that needs the active tab. */
  predicate SafeUnattended(p: Preset) {
    && !p.closeWindows && !p.extension && !p.protectedWeb
    && forall t <- p.types :: (t == Cache || t == CacheStorage) && RuleFor(p, t).scope != Active
  }

  lemma {:induction false} CallsSucceed(p: Preset, types: seq<DataType>, since: int)
    requires forall t <- types :: RuleFor(p, t).scope != Active
    ensures CallsFor(p, types, NotAUrl, since).Ok?
  {
    if types != [] {
      CallsSucceed(p, types[1..], since);
    }
  }

  /** Without active-tab rules a stored preset can always be planned. */
  lemma PlanSucceeds(p: Preset, now: int)
    requires GoodPreset(p) && PresetFits(p) && !UsesActive(p)
    ensures var plan := PlanFor(Some(RawOfPreset(p)), NotAUrl, now);
            plan.Ok? && plan.value.automaticSafe == Unattended(p)
  {
    PresetReadsBack(p);
    CallsSucceed(p, p.types, SinceOf(p, now));
  }

  lemma {:induction false} PresetIsFound(ps: seq<Preset>, id: string)
    requires exists p <- ps :: p.id == id
    ensures FindIn(ps, id).Some?
  {
    if ps[0].id != id {
      PresetIsFound(ps[1..], id);
    }
  }

  /** The plan a trigger runs for a preset. */
  function UnattendedPlan(p: Preset, now: int): Plan
    requires PlanFor(Some(RawOfPreset(p)), NotAUrl, now).Ok?
  {
    PlanFor(Some(RawOfPreset(p)), NotAUrl, now).value.(reload := false)
  }

  function StartFor(source: Source, p: Preset, read: Settings, now: int): Effect
    requires PlanFor(Some(RawOfPreset(p)), NotAUrl, now).Ok?
  {
    Started(Automatic(source, p, now), UnattendedPlan(p, now), None, Some(read), None)
  }

  lemma SelectedOutcome(sh: Shared, source: Source, p: Preset, read: Settings, x: Input)
    requires GoodPreset(p) && PresetFits(p) && !sh.running
    ensures SafeUnattended(p) ==> PlanFor(Some(RawOfPreset(p)), NotAUrl, x.later).Ok?
    ensures var n := AutomateSelected(sh, source, p, read, x);
            if SafeUnattended(p) then
              n == Next(sh.(running := true),
                        Advance(Job(UnattendedPlan(p, x.later), None, Automatic(source, p, x.later), [])),
                        [StartFor(source, p, read, x.later)])
            else n == Next(sh, AutoReview(Review(source, p.id, x.now)), [])
  {
    if !UsesActive(p) {
      PlanSucceeds(p, x.now);
      PlanSucceeds(p, x.later);
    }
  }

  /**
   A due trigger over stored settings that can be read never dies silently: it starts the plan
   of its preset, made without a tab, exactly when the preset is safe, and otherwise queues
   that preset for review.
   */
  lemma DueTriggerRunsOrAsks(sh: Shared, source: Source, s: Settings, x: Input)
    requires sh.stored == Some(s) && GoodSettings(s) && SettingsFit(s)
    requires s.enabled && !sh.running
    requires match source
             case Startup => s.automation.startup
             case TabClose => s.automation.tabClose
             case Schedule => s.automation.minutes != 0
    ensures FindPreset(s, s.automation.presetId).Some?
    ensures var p := FindPreset(s, s.automation.presetId).value;
            SafeUnattended(p) ==> PlanFor(Some(RawOfPreset(p)), NotAUrl, x.later).Ok?
    ensures var n := AutomateRead(sh, source, Got(sh.stored), x);
            var p := FindPreset(s, s.automation.presetId).value;
            if SafeUnattended(p) then
              n == Next(sh.(running := true),
                        Advance(Job(UnattendedPlan(p, x.later), None, Automatic(source, p, x.later), [])),
                        [StartFor(source, p, s, x.later)])
            else n == Next(sh, AutoReview(Review(source, p.id, x.now)), [])
  {
    ReadStored(sh.stored);
    PresetIsFound(s.presets, s.automation.presetId);
    SelectedOutcome(sh, source, FindPreset(s, s.automation.presetId).value, s, x);
  }
}

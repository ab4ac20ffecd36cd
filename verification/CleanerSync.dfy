/** Settings that come in over sync: echoes, repeats and what an incoming change may turn on. */
module CleanerSync {
  import opened Wrappers
  import opened CleanerCore
  import opened CleanerTheorems
  import opened CleanerWorker
  import opened CleanerRuns
  import opened CleanerSafety

  /** Developer mode and every trigger are off. */
  predicate Inactive(s: Settings) {
    !s.enabled && s.automation.minutes == 0 && !s.automation.startup && !s.automation.tabClose
  }

  ghost predicate StoredGood(stored: Option<Settings>) {
    stored.Some? ==> GoodSettings(stored.value)
  }

  // ---------------------------------------------------------------- reading back

  /** The stored settings are read back as they are, or refused when a list outgrew its bound. */
  lemma ReadStored(stored: Option<Settings>)
    requires StoredGood(stored)
    ensures var r := ReadOf(Got(stored));
            && (stored.None? ==> r == Ok(DEFAULTS))
            && (stored.Some? && SettingsFit(stored.value) ==> r == Ok(stored.value))
            && (stored.Some? && !SettingsFit(stored.value) ==> r == Err(Refused(TooManyOrigins)))
  {
    if stored.Some? {
      SettingsReadBack(stored.value);
    }
  }

  lemma SharedIsGood(s: Settings)
    requires GoodSettings(s)
    ensures GoodSettings(SharedSettings(s)) && SettingsFit(SharedSettings(s)) == SettingsFit(s)
  {}

  /** A shared item that this worker wrote comes in as itself. */
  lemma SharedReadsBack(s: Settings)
    requires GoodSettings(s) && SettingsFit(s)
    ensures NormalSettings(RawOf(SharedSettings(s))) == Ok(SharedSettings(s))
    ensures SharedSettings(SharedSettings(s)) == SharedSettings(s)
  {
    SharedIsGood(s);
    SettingsReadBack(SharedSettings(s));
  }

  // ---------------------------------------------------------------- echoes

  /** What the sync listener ends with, when its write succeeds. */
  function AfterSync(sh: Shared, newValue: RawSettings): Shared {
    var n := SyncCompared(sh, newValue, Got(sh.stored));
    if n.task.SyncWrite? then Written(n.sh, n.task) else n.sh
  }

  function Written(sh: Shared, t: Task): Shared {
    Resume(sh, t, Input(true, NoTab, 0, 0, "")).sh
  }

  lemma WrittenIs(sh: Shared, s: Settings)
    ensures Written(sh, SyncWrite(s)) == sh.(stored := Some(s), pendingReview := None)
  {}

  lemma AfterSyncIs(sh: Shared, newValue: RawSettings, current: Settings)
    requires ReadOf(Got(sh.stored)) == Ok(current)
    ensures AfterSync(sh, newValue) ==
            if !current.syncEnabled || IncomingFor(current, newValue).None? then sh
            else sh.(stored := Some(IncomingFor(current, newValue).value), pendingReview := None, tickets := map[])
  {
    var n := SyncCompared(sh, newValue, Got(sh.stored));
    if n.task.SyncWrite? {
      WrittenIs(n.sh, n.task.incoming);
    }
  }

  lemma EchoIncoming(s: Settings, sent: Settings)
    requires GoodSettings(s) && SettingsFit(s) && GoodSettings(sent) && SettingsFit(sent)
    ensures IncomingFor(s, RawOf(SharedSettings(sent))) ==
            if SharedSettings(sent) == SharedSettings(s) then None else Some(SharedSettings(sent))
  {
    SharedReadsBack(sent);
    SharedReadsBack(s);
  }

  /** A shared item whose lists outgrew their bound is refused. */
  lemma UnfitEcho(s: Settings, sent: Settings)
    requires GoodSettings(sent) && !SettingsFit(sent)
    ensures IncomingFor(s, RawOf(SharedSettings(sent))).None?
  {
    SharedIsGood(sent);
    SettingsReadBack(SharedSettings(sent));
  }

  /** A stored value that cannot be read, or that has sync off, ignores what comes in. */
  lemma DeafToSync(sh: Shared, newValue: RawSettings)
    requires ReadOf(Got(sh.stored)).Ok? ==> !ReadOf(Got(sh.stored)).value.syncEnabled
    ensures AfterSync(sh, newValue) == sh
  {}

  /**
   The echo of a save changes something exactly when sync is on, both settings can be read and
   it is not the save that is current: a late echo of an older save replaces newer settings
   that share something else, and turns developer mode off with them.
   */
  lemma EchoChangesIff(sh: Shared, sent: Settings)
    requires StoredGood(sh.stored) && GoodSettings(sent)
    ensures var changes := && sh.stored.Some? && sh.stored.value.syncEnabled
                           && SettingsFit(sh.stored.value) && SettingsFit(sent)
                           && SharedSettings(sent) != SharedSettings(sh.stored.value);
            && (AfterSync(sh, RawOf(SharedSettings(sent))) != sh <==> changes)
            && (changes ==> AfterSync(sh, RawOf(SharedSettings(sent))).stored == Some(SharedSettings(sent)))
  {
    ReadStored(sh.stored);
    if sh.stored.None? || !sh.stored.value.syncEnabled || !SettingsFit(sh.stored.value) {
      DeafToSync(sh, RawOf(SharedSettings(sent)));
    } else {
      EchoInSync(sh, sent);
    }
  }

  lemma EchoInSync(sh: Shared, sent: Settings)
    requires sh.stored.Some? && sh.stored.value.syncEnabled
    requires GoodSettings(sh.stored.value) && SettingsFit(sh.stored.value) && GoodSettings(sent)
    ensures var changes := SettingsFit(sent) && SharedSettings(sent) != SharedSettings(sh.stored.value);
            && (AfterSync(sh, RawOf(SharedSettings(sent))) != sh <==> changes)
            && (changes ==> AfterSync(sh, RawOf(SharedSettings(sent))).stored == Some(SharedSettings(sent)))
  {
    var s := sh.stored.value;
    ReadStored(sh.stored);
    AfterSyncIs(sh, RawOf(SharedSettings(sent)), s);
    if SettingsFit(sent) {
      EchoIncoming(s, sent);
      SharedReadsBack(sent);
    } else {
      UnfitEcho(s, sent);
    }
  }

  /** The echo of the current save changes nothing, even when its lists cannot be read back. */
  lemma OwnEchoChangesNothing(sh: Shared, s: Settings)
    requires sh.stored == Some(s) && GoodSettings(s)
    ensures SyncCompared(sh, RawOf(SharedSettings(s)), Got(sh.stored)) == Next(sh, Done, [])
  {
    ReadStored(sh.stored);
    if SettingsFit(s) {
      EchoIncoming(s, s);
    }
  }

  lemma IncomingIsShared(current: Settings, newValue: RawSettings)
    requires IncomingFor(current, newValue).Some?
    ensures var x := IncomingFor(current, newValue).value;
            && GoodSettings(x) && SettingsFit(x) && Inactive(x) && x.syncEnabled && SharedSettings(x) == x
  {
    var first := NormalSettings(newValue).value;
    NormalSettingsAreGood(newValue);
    SharedIsGood(first);
    SettingsReadBack(SharedSettings(first));
  }

  /** An incoming change applied twice leaves what applying it once leaves. */
  lemma IncomingTwiceIsOnce(sh: Shared, newValue: RawSettings)
    requires StoredGood(sh.stored)
    ensures AfterSync(AfterSync(sh, newValue), newValue) == AfterSync(sh, newValue)
  {
    ReadStored(sh.stored);
    var r := ReadOf(Got(sh.stored));
    if r.Ok? {
      AfterSyncIs(sh, newValue, r.value);
      if r.value.syncEnabled && IncomingFor(r.value, newValue).Some? {
        IncomingStays(sh, r.value, newValue);
      }
    }
  }

  lemma IncomingStays(sh: Shared, current: Settings, newValue: RawSettings)
    requires IncomingFor(current, newValue).Some?
    ensures var once :=
              sh.(stored := Some(IncomingFor(current, newValue).value), pendingReview := None, tickets := map[]);
            AfterSync(once, newValue) == once
  {
    var x := IncomingFor(current, newValue).value;
    IncomingIsShared(current, newValue);
    ReadStored(Some(x));
    assert IncomingFor(x, newValue).None?;
    AfterSyncIs(sh.(stored := Some(x), pendingReview := None, tickets := map[]), newValue, x);
  }

  // ---------------------------------------------------------------- in every run

  ghost predicate WriteGood(t: Task) {
    && (t.SaveWrite? ==> GoodSettings(t.settings))
    && (t.SyncWrite? ==> GoodSettings(t.incoming) && Inactive(t.incoming) && t.incoming.syncEnabled)
  }

  ghost predicate Good(w: World) {
    StoredGood(w.sh.stored) && forall t <- w.tasks :: WriteGood(t)
  }

  lemma SaveGood(sh: Shared, value: RawSettings, tooBig: bool)
    ensures WriteGood(SaveStart(sh, value, tooBig).task)
  {
    if NormalSettings(value).Ok? {
      NormalSettingsAreGood(value);
    }
  }

  lemma SyncGood(sh: Shared, newValue: RawSettings, s: Sample)
    ensures WriteGood(SyncCompared(sh, newValue, s).task)
  {
    if ReadOf(s).Ok? && IncomingFor(ReadOf(s).value, newValue).Some? {
      IncomingIsShared(ReadOf(s).value, newValue);
    }
  }

  /** A stretch that starts no write and stores nothing. */
  predicate NoWrite(sh: Shared, n: Next) {
    n.sh.stored == sh.stored && !n.task.SaveWrite? && !n.task.SyncWrite?
  }

  lemma BodyWrites(sh: Shared, t: Task, x: Input)
    requires InBody(t)
    ensures NoWrite(sh, BodyStretch(sh, t, x))
  {
    BodyTickets(sh, t, x);
  }

  lemma ComparedWrites(sh: Shared, p: Pick, s: Sample)
    ensures NoWrite(sh, ExecuteCompared(sh, p, s))
  {}

  lemma TabbedWrites(sh: Shared, p: Pick, read: Settings, tab: TabAnswer)
    ensures NoWrite(sh, ExecuteTabbed(sh, p, read, tab))
  {}

  lemma CheckedWrites(sh: Shared, t: Task, s: Sample)
    requires t.PreviewRead?
    ensures NoWrite(sh, PreviewChecked(sh, t, s))
  {}

  lemma IssuedWrites(sh: Shared, t: Task, x: Input)
    requires t.PreviewTab?
    ensures NoWrite(sh, PreviewIssued(sh, t, x))
  {}

  lemma TakingWrites(sh: Shared, t: Task, x: Input)
    requires t.CleanGot?
    ensures NoWrite(sh, Resume(sh, t, x))
  {}

  lemma ManualWrites(sh: Shared, t: Task, x: Input)
    requires t.PreviewRead? || t.PreviewTab? || t.CleanGot? || t.ExecRead? || t.ExecTab?
    ensures NoWrite(sh, Resume(sh, t, x))
  {
    match t
    case PreviewRead(_, _, Some(s)) => CheckedWrites(sh, t, s);
    case PreviewTab(_, _, _) => IssuedWrites(sh, t, x);
    case CleanGot(_, _) => TakingWrites(sh, t, x);
    case ExecRead(p, Some(s)) => ComparedWrites(sh, p, s);
    case ExecTab(p, read) => TabbedWrites(sh, p, read, x.tab);
    case _ =>
  }

  /** Operations of the chain that only wait to write. */
  lemma WaitingWrites(sh: Shared, t: Task, x: Input)
    requires StoredGood(sh.stored) && WriteGood(t)
    requires t.Done? || t.Configuring? || t.AutoReview? || t.SaveWrite? || t.SaveSync? || t.SyncWrite?
    ensures StoredGood(Resume(sh, t, x).sh.stored) && NoWrite(Resume(sh, t, x).sh, Resume(sh, t, x))
  {}

  lemma InstallGood(sh: Shared, t: Task, x: Input)
    requires StoredGood(sh.stored) && t.InstallRead?
    ensures StoredGood(Resume(sh, t, x).sh.stored) && WriteGood(Resume(sh, t, x).task)
  {
    if t.got.Some? && ReadOf(t.got.value).Ok? {
      SaveGood(sh, RawOf(ReadOf(t.got.value).value), t.tooBig);
    }
  }

  lemma IncomingGood(sh: Shared, t: Task, x: Input)
    requires StoredGood(sh.stored) && t.SyncRead?
    ensures StoredGood(Resume(sh, t, x).sh.stored) && WriteGood(Resume(sh, t, x).task)
  {
    if t.got.Some? {
      SyncGood(sh, t.newValue, t.got.value);
      SyncStores(sh, t.newValue, t.got.value);
    }
  }

  lemma SyncStores(sh: Shared, newValue: RawSettings, s: Sample)
    ensures SyncCompared(sh, newValue, s).sh.stored == sh.stored
  {}

  lemma ResumeGood(sh: Shared, t: Task, x: Input)
    requires StoredGood(sh.stored) && WriteGood(t)
    ensures StoredGood(Resume(sh, t, x).sh.stored) && WriteGood(Resume(sh, t, x).task)
  {
    if InBody(t) {
      BodyWrites(sh, t, x);
    } else if t.PreviewRead? || t.PreviewTab? || t.CleanGot? || t.ExecRead? || t.ExecTab? {
      ManualWrites(sh, t, x);
    } else if t.SyncRead? {
      IncomingGood(sh, t, x);
    } else if t.InstallRead? {
      InstallGood(sh, t, x);
    } else if t.AutoRead? {
      if t.got.Some? {
        AutomateLock(sh, t.source, t.got.value, x);
        AutomateWrites(sh, t.source, t.got.value, x);
      }
    } else {
      WaitingWrites(sh, t, x);
    }
  }

  lemma AutomateWrites(sh: Shared, source: Source, s: Sample, x: Input)
    ensures !AutomateRead(sh, source, s, x).task.SaveWrite? && !AutomateRead(sh, source, s, x).task.SyncWrite?
  {}

  lemma StartGood(sh: Shared, op: Op)
    ensures WriteGood(StartOp(sh, op).task)
  {
    if op.SaveOp? {
      SaveGood(sh, op.value, op.tooBig);
    }
  }

  lemma LandGood(w: World, i: nat, n: Next)
    requires Shaped(w) && i < |w.tasks| && Good(w) && StoredGood(n.sh.stored) && WriteGood(n.task)
    ensures Good(Land(w, i, n))
  {
    var tasks := w.tasks[i := n.task];
    forall t <- tasks ensures WriteGood(t) {
      var j :| 0 <= j < |tasks| && tasks[j] == t;
      assert j != i ==> t == w.tasks[j] && w.tasks[j] in w.tasks;
    }
  }

  lemma SpawnGood(w: World)
    requires Shaped(w) && Good(w)
    ensures Good(Spawn(w))
  {}

  lemma SampledGood(t: Task, s: Sample)
    requires WriteGood(t)
    ensures WriteGood(Sampled(t, s))
  {}

  lemma StepGood(w: World, e: Event)
    requires Shaped(w) && Good(w)
    ensures Good(Step(w, e))
  {
    match e
    case Posted(m) =>
      PostShape(w.sh, m);
      SpawnGood(w);
      LandGood(Spawn(w), |w.tasks|, Post(w.sh, m));
    case ChainMoves =>
      if w.queue != [] && ChainFree(w) {
        StartShape(w.sh, w.queue[0]);
        StartGood(w.sh, w.queue[0]);
        SpawnGood(w);
        LandGood(Spawn(w), |w.tasks|, StartOp(w.sh, w.queue[0]));
      }
    case StorageAnswers(i, ok) =>
      if i < |w.tasks| {
        var s := if ok then Got(w.sh.stored) else ReadFailed;
        assert w.tasks[i] in w.tasks;
        SampledGood(w.tasks[i], s);
        LandGood(w, i, Next(w.sh, Sampled(w.tasks[i], s), []));
      }
    case Resumed(i, x) =>
      if i < |w.tasks| {
        assert w.tasks[i] in w.tasks;
        ResumeGood(w.sh, w.tasks[i], x);
        LandGood(w, i, Resume(w.sh, w.tasks[i], x));
      }
    case _ =>
  }

  lemma {:induction false} RunGood(w: World, events: seq<Event>)
    requires Shaped(w) && Good(w)
    ensures Good(Run(w, events))
  {
    if events != [] {
      RunGood(w, events[..|events| - 1]);
      StepGood(Run(w, events[..|events| - 1]), events[|events| - 1]);
    }
  }

  /**
   In every run over settings that were accepted once: what is stored stays a normal form,
   the echo of the save that is current changes nothing, and no incoming change turns on
   developer mode or a trigger.
   */
  lemma SyncIsQuietInRuns(stored: Option<Settings>, review: Option<Review>, synced: Option<Settings>,
      events: seq<Event>)
    requires StoredGood(stored)
    ensures var w := Run(Fresh(stored, review, synced), events);
            && (w.sh.stored.Some? ==>
                  SyncCompared(w.sh, RawOf(SharedSettings(w.sh.stored.value)), Got(w.sh.stored))
                      == Next(w.sh, Done, []))
            && (forall t <- w.tasks :: t.SyncWrite? ==> Inactive(t.incoming))
  {
    RunGood(Fresh(stored, review, synced), events);
    var w := Run(Fresh(stored, review, synced), events);
    if w.sh.stored.Some? {
      OwnEchoChangesNothing(w.sh, w.sh.stored.value);
    }
  }
}

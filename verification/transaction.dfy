/** The restore transaction as a state machine: any number of concurrent restore runs and
    post-boot checks, each of which may crash between any two steps, over one marker file,
    one world of targets and a machine that may reboot at any time. */
module Transaction {
  import opened Identities

  /** One target a plan mutates. `evidence` is the path planning sees a pending removal by (the
      theme.json of an extra theme, or the artwork file itself), and `silent` are the identities
      at it that tell planning nothing, such as a theme.json that cannot be read. */
  datatype Item = Item(path: string, before: Option<Identity>, after: Option<Identity>,
                       evidence: string, silent: set<Identity>, throughDecky: bool)

  datatype Plan = Plan(plugins: seq<Item>, files: seq<Item>)

  datatype Phase =
    | Prepared | PluginsQuiesced | PluginConvergence | SteamQuiesced | FilesystemConvergence
    | StaticVerificationPassed | AwaitingReboot | AwaitingPostBootVerification | RecoveryRequired

  datatype Marker = Marker(owner: nat, plan: Plan, boot: nat, phase: Phase)

  /** A marker update exchanges the file and then syncs: it can fail before the exchange
      (Refused) or after it (Ambiguous: reported as an error, yet the new phase is on disk). */
  datatype Update = Committed | Refused | Ambiguous

  datatype Stage =
    | Started
    | SawNoMarker
    | Approved
    | Marked
    | Quiesced
    | Recorded
    | Applying(next: nat, filesOpen: bool, touched: bool)
    | Verified
    | StaticRecorded
    | Undoing(remaining: nat, failed: bool)
    | Settled
    | Failing

  datatype Process =
    | Running(plan: Plan, stage: Stage)
    | Checking(loaded: Marker, advanced: bool, verified: bool)

  /** `committed` and `history` record what whole restores have been completed so far. */
  datatype State = State(world: World, disk: Option<Marker>, boot: nat, nextId: nat,
                         processes: map<nat, Process>, committed: World, history: seq<Plan>)

  datatype Step =
    | StartRun(plan: Plan)
    | Look(id: nat)
    | Approve(id: nat)
    | SaveMarker(id: nat)
    | QuiesceDone(id: nat)
    | QuiesceFails(id: nat, cleaned: bool)
    | RecordQuiesced(id: nat, update: Update, cleaned: bool)
    | BeginPlugins(id: nat, update: Update, cleaned: bool)
    | Touch(id: nat, value: Option<Identity>)
    | ItemDone(id: nat)
    | ItemFails(id: nat, recorded: bool)
    | OpenFiles(id: nat, phase: Phase, update: Update)
    | Verify(id: nat, passed: bool)
    | RecordVerified(id: nat, update: Update)
    | RequestReboot(id: nat, update: Update)
    | UndoTouch(id: nat, value: Option<Identity>)
    | UndoDone(id: nat, clean: bool)
    | Confirm(id: nat, passed: bool)
    | Clear(id: nat, removed: bool)
    | Escalate(id: nat, update: Update)
    | Crash(id: nat)
    | Reboot
    | CheckLoad
    | CheckAdvance(id: nat, update: Update)
    | CheckVerify(id: nat)
    | CheckClear(id: nat)

  function Items(plan: Plan): seq<Item> { plan.plugins + plan.files }

  /** A plan without mutations is reported as matching already, and nothing is run. */
  predicate HasMutations(plan: Plan) { Items(plan) != [] }

  predicate WellFormed(plan: Plan) {
    && (forall i, j :: 0 <= i < j < |Items(plan)| ==> Items(plan)[i].path != Items(plan)[j].path)
    && (forall i :: 0 <= i < |Items(plan)| ==> Mutates(Items(plan)[i]))
    && (forall i :: 0 <= i < |Items(plan)| && Items(plan)[i].throughDecky ==> Items(plan)[i].silent == {})
  }

  predicate Mutates(item: Item) {
    match (item.before, item.after)
    case (Some(before), Some(after)) => !SameContent(before, after)
    case (None, None) => false
    case _ => true
  }

  /** Whether planning afresh in this world would schedule a mutation for the item. It compares only
      part of an identity: the content of a file but not its mode, and the name, author and version
      of a plugin but not its tree. Here both are SameContent, and `mode` stands for the rest. */
  predicate ShowsMutation(item: Item, world: World) {
    match item.after
    case Some(after) => At(world, item.path).None? || !SameContent(At(world, item.path).value, after)
    case None => At(world, item.path).Some? && Tells(item, At(world, item.evidence))
  }

  predicate Tells(item: Item, evidence: Option<Identity>) { evidence.Some? && evidence.value !in item.silent }

  predicate LooksConverged(plan: Plan, world: World) {
    forall k :: 0 <= k < |Items(plan)| ==> !ShowsMutation(Items(plan)[k], world)
  }

  /** Planning sees the item while it is unfinished, whatever the others are doing: Decky does not
      install it, and the evidence for its removal is neither removed nor silenced. */
  predicate EvidentItem(plan: Plan, item: Item, world: World) {
    && (item.throughDecky ==> item.after.None?)
    && (item.after.None? ==>
          || (item.evidence == item.path && Tells(item, item.before)) || KeepsTelling(plan, item)
          || (!IsTarget(plan, item.evidence) && Tells(item, At(world, item.evidence))))
  }

  /** The plan puts something at the evidence that tells as well. */
  predicate KeepsTelling(plan: Plan, item: Item) {
    exists j :: 0 <= j < |Items(plan)| && Items(plan)[j].path == item.evidence && Tells(item, Items(plan)[j].after)
  }

  predicate SelfEvident(plan: Plan, world: World) {
    forall k :: 0 <= k < |Items(plan)| ==> EvidentItem(plan, Items(plan)[k], world)
  }

  predicate IsTarget(plan: Plan, path: string) {
    exists k :: 0 <= k < |Items(plan)| && Items(plan)[k].path == path
  }

  predicate AllBefore(plan: Plan, world: World) {
    forall k :: 0 <= k < |Items(plan)| ==> At(world, Items(plan)[k].path) == Items(plan)[k].before
  }

  predicate AllAfter(plan: Plan, world: World) {
    forall k :: 0 <= k < |Items(plan)| ==> At(world, Items(plan)[k].path) == Items(plan)[k].after
  }

  /** Every target is at one of its two identities, unless Decky writes it. */
  predicate Held(plan: Plan, world: World) {
    forall k :: 0 <= k < |Items(plan)| ==> MayHold(Items(plan)[k], At(world, Items(plan)[k].path))
  }

  /** The plan is what planning makes of this world: revalidation rebuilds and compares it. */
  predicate PlannedFor(plan: Plan, world: World) {
    AllBefore(plan, world) && forall k :: 0 <= k < |Items(plan)| ==> ShowsMutation(Items(plan)[k], world)
  }

  predicate IsAwaiting(phase: Phase) { phase.AwaitingReboot? || phase.AwaitingPostBootVerification? }

  predicate BeforeAnyTarget(phase: Phase) { phase.Prepared? || phase.PluginsQuiesced? }

  predicate BeforeAnyFile(phase: Phase) {
    BeforeAnyTarget(phase) || phase.PluginConvergence? || phase.SteamQuiesced?
  }

  predicate InSection(process: Process) {
    process.Running? && !process.stage.Started? && !process.stage.SawNoMarker? && !process.stage.Approved?
  }

  predicate RunAt(s: State, id: nat, stage: Stage) {
    id in s.processes && s.processes[id].Running? && s.processes[id].stage == stage
  }

  predicate IsRun(s: State, id: nat) { id in s.processes && s.processes[id].Running? }

  predicate IsCheck(s: State, id: nat) { id in s.processes && s.processes[id].Checking? }

  predicate CanUpdate(s: State, update: Update) { update.Refused? || s.disk.Some? }

  /** What a file item may hold while it is written; Decky writes its own trees as it likes. */
  predicate MayHold(item: Item, value: Option<Identity>) {
    item.throughDecky || value == item.before || value == item.after
  }

  // ---------------------------------------------------------------- when a step can happen

  predicate IsApplying(s: State, id: nat) {
    IsRun(s, id) && s.processes[id].stage.Applying? && s.processes[id].stage.next < |Items(s.processes[id].plan)|
  }

  /** The item an applying run is at. */
  function NextItem(s: State, id: nat): Item
    requires IsApplying(s, id)
  {
    Items(s.processes[id].plan)[s.processes[id].stage.next]
  }

  predicate IsUndoing(s: State, id: nat) {
    IsRun(s, id) && s.processes[id].stage.Undoing?
        && 0 < s.processes[id].stage.remaining <= |Items(s.processes[id].plan)|
  }

  /** The item an undoing run is at: the last one still recorded as applied. */
  function LastItem(s: State, id: nat): Item
    requires IsUndoing(s, id)
  {
    Items(s.processes[id].plan)[s.processes[id].stage.remaining - 1]
  }

  /** A target is first written only while it still has its approved identity. */
  predicate CanTouch(s: State, id: nat, value: Option<Identity>) {
    && IsApplying(s, id)
    && (s.processes[id].stage.next < |s.processes[id].plan.plugins| || s.processes[id].stage.filesOpen)
    && (s.processes[id].stage.touched || At(s.world, NextItem(s, id).path) == NextItem(s, id).before)
    && MayHold(NextItem(s, id), value)
  }

  predicate CanFinishItem(s: State, id: nat) {
    && IsApplying(s, id) && s.processes[id].stage.touched
    && At(s.world, NextItem(s, id).path) == NextItem(s, id).after
  }

  predicate CanFailItem(s: State, id: nat, recorded: bool) {
    IsApplying(s, id) && (recorded ==> s.processes[id].stage.touched)
  }

  predicate CanOpenFiles(s: State, id: nat, phase: Phase, update: Update) {
    && IsRun(s, id) && s.processes[id].stage == Applying(|s.processes[id].plan.plugins|, false, false)
    && (phase.SteamQuiesced? || phase.FilesystemConvergence?)
    && CanUpdate(s, update)
  }

  predicate CanVerify(s: State, id: nat, passed: bool) {
    && IsRun(s, id) && s.processes[id].stage == Applying(|Items(s.processes[id].plan)|, true, false)
    && (passed ==> LooksConverged(s.processes[id].plan, s.world))
  }

  predicate CanUndoTouch(s: State, id: nat, value: Option<Identity>) {
    IsUndoing(s, id) && MayHold(LastItem(s, id), value)
  }

  predicate CanUndo(s: State, id: nat, clean: bool) {
    IsUndoing(s, id) && (clean ==> At(s.world, LastItem(s, id).path) == LastItem(s, id).before)
  }

  predicate CanConfirm(s: State, id: nat, passed: bool) {
    && IsRun(s, id) && s.processes[id].stage.Undoing? && s.processes[id].stage.remaining == 0
    && (passed ==> AllBefore(s.processes[id].plan, s.world))
  }

  predicate CanLoad(s: State) {
    s.disk.Some? && IsAwaiting(s.disk.value.phase) && s.disk.value.boot != s.boot
  }

  predicate CanAdvance(s: State, id: nat, update: Update) {
    && IsCheck(s, id) && !s.processes[id].advanced && !s.processes[id].verified
    && s.processes[id].loaded.phase.AwaitingReboot? && CanUpdate(s, update)
  }

  predicate CanCheck(s: State, id: nat) {
    && IsCheck(s, id) && (s.processes[id].advanced || s.processes[id].loaded.phase.AwaitingPostBootVerification?)
    && LooksConverged(s.processes[id].loaded.plan, s.world)
  }

  predicate Enabled(s: State, step: Step) {
    match step
    case StartRun(plan) => WellFormed(plan) && HasMutations(plan)
    case Look(id) => RunAt(s, id, Started) && s.disk.None?
    case Approve(id) => RunAt(s, id, SawNoMarker) && PlannedFor(s.processes[id].plan, s.world)
    case SaveMarker(id) => RunAt(s, id, Approved) && s.disk.None?
    case QuiesceDone(id) => RunAt(s, id, Marked)
    case QuiesceFails(id, _) => RunAt(s, id, Marked)
    case RecordQuiesced(id, update, _) => RunAt(s, id, Quiesced) && CanUpdate(s, update)
    case BeginPlugins(id, update, _) => RunAt(s, id, Recorded) && CanUpdate(s, update)
    case Touch(id, value) => CanTouch(s, id, value)
    case ItemDone(id) => CanFinishItem(s, id)
    case ItemFails(id, recorded) => CanFailItem(s, id, recorded)
    case OpenFiles(id, phase, update) => CanOpenFiles(s, id, phase, update)
    case Verify(id, passed) => CanVerify(s, id, passed)
    case RecordVerified(id, update) => RunAt(s, id, Verified) && CanUpdate(s, update)
    case RequestReboot(id, update) => RunAt(s, id, StaticRecorded) && CanUpdate(s, update)
    case UndoTouch(id, value) => CanUndoTouch(s, id, value)
    case UndoDone(id, clean) => CanUndo(s, id, clean)
    case Confirm(id, passed) => CanConfirm(s, id, passed)
    case Clear(id, _) => RunAt(s, id, Settled)
    case Escalate(id, update) => RunAt(s, id, Failing) && CanUpdate(s, update)
    case Crash(id) => id in s.processes
    case Reboot => true
    case CheckLoad => CanLoad(s)
    case CheckAdvance(id, update) => CanAdvance(s, id, update)
    case CheckVerify(id) => CanCheck(s, id)
    case CheckClear(id) => IsCheck(s, id) && s.processes[id].verified
  }

  // ---------------------------------------------------------------- what a step does

  function Rewrite(disk: Option<Marker>, marker: Marker, update: Update): Option<Marker> {
    if update.Refused? then disk else Some(marker)
  }

  function Become(s: State, id: nat, stage: Stage): State
    requires IsRun(s, id)
  {
    s.(processes := s.processes[id := s.processes[id].(stage := stage)])
  }

  function End(s: State, id: nat): State { s.(processes := s.processes - {id}) }

  /** A run records a phase under its own in-memory marker. */
  function Record(s: State, id: nat, phase: Phase, update: Update): State
    requires IsRun(s, id)
  {
    s.(disk := Rewrite(s.disk, Marker(id, s.processes[id].plan, s.boot, phase), update))
  }

  function CleanedUp(cleaned: bool): Stage { if cleaned then Settled else Failing }

  function Touched(s: State, id: nat, value: Option<Identity>): State
    requires IsApplying(s, id)
  {
    Become(s, id, s.processes[id].stage.(touched := true)).(world := Put(s.world, NextItem(s, id).path, value))
  }

  function ItemFinished(s: State, id: nat): State
    requires IsApplying(s, id)
  {
    Become(s, id, s.processes[id].stage.(next := s.processes[id].stage.next + 1, touched := false))
  }

  function ItemFailed(s: State, id: nat, recorded: bool): State
    requires IsApplying(s, id)
  {
    Become(s, id, Undoing(s.processes[id].stage.next + if recorded then 1 else 0, false))
  }

  function Opened(s: State, id: nat, phase: Phase, update: Update): State
    requires IsRun(s, id) && s.processes[id].stage.Applying?
  {
    var stage := s.processes[id].stage;
    Become(Record(s, id, phase, update), id,
           if update.Committed? then stage.(filesOpen := phase.FilesystemConvergence?) else Undoing(stage.next, false))
  }

  /** The stage after a step whose failure undoes everything. */
  function OrUndoAll(s: State, id: nat, passed: bool, stage: Stage): Stage
    requires IsRun(s, id)
  {
    if passed then stage else Undoing(|Items(s.processes[id].plan)|, false)
  }

  function RebootRequested(s: State, id: nat, update: Update): State
    requires IsRun(s, id)
  {
    var recorded := Record(s, id, AwaitingReboot, update);
    if update.Committed? then End(recorded, id) else Become(recorded, id, OrUndoAll(s, id, false, Failing))
  }

  function UndoTouched(s: State, id: nat, value: Option<Identity>): State
    requires IsUndoing(s, id)
  {
    Become(s, id, s.processes[id].stage).(world := Put(s.world, LastItem(s, id).path, value))
  }

  function Undone(s: State, id: nat, clean: bool): State
    requires IsUndoing(s, id)
  {
    Become(s, id, Undoing(s.processes[id].stage.remaining - 1, s.processes[id].stage.failed || !clean))
  }

  function Loaded(s: State): State
    requires s.disk.Some?
  {
    s.(processes := s.processes[s.nextId := Checking(s.disk.value, false, false)], nextId := s.nextId + 1)
  }

  function Advanced(s: State, id: nat, update: Update): State
    requires IsCheck(s, id)
  {
    var check := s.processes[id];
    var rewritten := s.(disk := Rewrite(s.disk, check.loaded.(phase := AwaitingPostBootVerification), update));
    if update.Committed? then rewritten.(processes := s.processes[id := check.(advanced := true)])
    else End(rewritten, id)
  }

  /** The marker is removed by name, whichever marker it is; only the loaded one completes a restore. */
  function Retired(s: State, id: nat): State
    requires IsCheck(s, id)
  {
    var cleared := End(s.(disk := None), id);
    if s.disk.Some? && s.disk.value.owner == s.processes[id].loaded.owner
    then cleared.(committed := s.world, history := s.history + [s.disk.value.plan])
    else cleared
  }

  function After(s: State, step: Step): State
    requires Enabled(s, step)
  {
    match step
    case StartRun(plan) =>
      s.(processes := s.processes[s.nextId := Running(plan, Started)], nextId := s.nextId + 1)
    case Look(id) => Become(s, id, SawNoMarker)
    case Approve(id) => Become(s, id, Approved)
    case SaveMarker(id) => Become(s, id, Marked).(disk := Some(Marker(id, s.processes[id].plan, s.boot, Prepared)))
    case QuiesceDone(id) => Become(s, id, Quiesced)
    case QuiesceFails(id, cleaned) => Become(s, id, CleanedUp(cleaned))
    case RecordQuiesced(id, update, cleaned) =>
      Become(Record(s, id, PluginsQuiesced, update), id, if update.Committed? then Recorded else CleanedUp(cleaned))
    case BeginPlugins(id, update, cleaned) =>
      Become(Record(s, id, PluginConvergence, update), id,
             if update.Committed? then Applying(0, false, false) else CleanedUp(cleaned))
    case Touch(id, value) => Touched(s, id, value)
    case ItemDone(id) => ItemFinished(s, id)
    case ItemFails(id, recorded) => ItemFailed(s, id, recorded)
    case OpenFiles(id, phase, update) => Opened(s, id, phase, update)
    case Verify(id, passed) => Become(s, id, OrUndoAll(s, id, passed, Verified))
    case RecordVerified(id, update) =>
      Become(Record(s, id, StaticVerificationPassed, update), id, OrUndoAll(s, id, update.Committed?, StaticRecorded))
    case RequestReboot(id, update) => RebootRequested(s, id, update)
    case UndoTouch(id, value) => UndoTouched(s, id, value)
    case UndoDone(id, clean) => Undone(s, id, clean)
    case Confirm(id, passed) =>
      Become(s, id, if passed && !s.processes[id].stage.failed then Settled else Failing)
    case Clear(id, removed) => End(if removed then s.(disk := None) else s, id)
    case Escalate(id, update) => End(Record(s, id, RecoveryRequired, update), id)
    case Crash(id) => End(s, id)
    case Reboot => s.(boot := s.boot + 1, processes := map[])
    case CheckLoad => Loaded(s)
    case CheckAdvance(id, update) => Advanced(s, id, update)
    case CheckVerify(id) => s.(processes := s.processes[id := s.processes[id].(verified := true)])
    case CheckClear(id) => Retired(s, id)
  }

  /** A post-boot check that acts does so on the marker it loaded. */
  predicate ActsOnItsOwn(s: State, step: Step)
    requires Enabled(s, step)
  {
    match step
    case CheckAdvance(id, _) => ChecksItsOwnMarker(s, id)
    case CheckClear(id) => ChecksItsOwnMarker(s, id)
    case _ => true
  }

  /** An awaiting_reboot record that took effect unsynced is for a plan that stays evident. */
  predicate RecordsEvidently(s: State, step: Step)
    requires Enabled(s, step)
  {
    match step
    case RequestReboot(id, update) => update.Ambiguous? ==> SelfEvident(s.processes[id].plan, s.world)
    case _ => true
  }

  predicate ChecksItsOwnMarker(s: State, id: nat)
    requires IsCheck(s, id)
  {
    s.disk.None? || s.disk.value.owner == s.processes[id].loaded.owner
  }

  function Initial(world: World): State { State(world, None, 0, 0, map[], world, []) }

  /** The world a whole restore leaves: every item at its restored identity, nothing else changed. */
  function Restored(items: seq<Item>, world: World): World {
    if items == [] then world
    else Put(Restored(items[..|items| - 1], world), items[|items| - 1].path, items[|items| - 1].after)
  }

  function Replay(world: World, history: seq<Plan>): World {
    if history == [] then world
    else Restored(Items(history[|history| - 1]), Replay(world, history[..|history| - 1]))
  }
}

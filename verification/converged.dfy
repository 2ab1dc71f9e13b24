/** The check a restore makes of itself, and the one made after the reboot. */
module Converged {
  import opened Convergence
  import opened Identities
  import opened PlanBuilding
  import opened Planning
  import opened PlanningFixpoint

  /** A kept setting is there with its content and with the mode restore gives it. */
  predicate KeptProperly(world: Live, file: File) {
    file.logicalPath in world.settings
    && world.settings[file.logicalPath] == Plain(Identity(file.size, file.sha256, RESTORED_MODE))
  }

  /** Every setting kept aside has the mode restore would have given it. */
  predicate AllKeptProperly(env: Environment, world: Live, snapshot: Snapshot, resolutions: seq<Resolution>) {
    forall i :: 0 <= i < |snapshot.files| && env.mapping(snapshot.files[i].logicalPath).Restored?
                && KeptAside(env, resolutions, snapshot.files[i].logicalPath)
      ==> KeptProperly(world, snapshot.files[i])
  }

  predicate FileConverged(env: Environment, world: Live, resolutions: seq<Resolution>, file: File) {
    env.mapping(file.logicalPath).Restored? ==>
      if KeptAside(env, resolutions, file.logicalPath)
      then !SettingAction(env, world, file).operation.Blocked? && KeptProperly(world, file)
      else FileAction(env, world, file).operation.Unchanged?
  }

  predicate FilesConverged(env: Environment, world: Live, files: seq<File>, resolutions: seq<Resolution>) {
    forall i :: 0 <= i < |files| ==> FileConverged(env, world, resolutions, files[i])
  }

  ghost predicate NoRemovals(env: Environment, world: Live, snapshot: Snapshot) {
    forall path :: !ToRemove(env, world, snapshot, path)
  }

  ghost predicate PluginsConverged(env: Environment, world: Live, resolutions: seq<Resolution>) {
    forall action :: PlannedPlugin(env, world, resolutions, action) ==> action.operation.Unchanged?
  }

  /** Goes through the snapshot's files, comparing each with what is there. */
  method CheckFiles(env: Environment, world: Live, files: seq<File>, resolutions: seq<Resolution>) returns (ok: bool)
    ensures ok <==> FilesConverged(env, world, files, resolutions)
  {
    var i := 0;
    while i < |files|
      invariant 0 <= i <= |files| && FilesConverged(env, world, files[..i], resolutions)
    {
      var file := files[i];
      if env.mapping(file.logicalPath).Restored? {
        if KeptAside(env, resolutions, file.logicalPath) {
          var blocked := SettingAction(env, world, file).operation.Blocked?;
          if blocked || !KeptProperly(world, file) { return false; }
        } else if !FileAction(env, world, file).operation.Unchanged? {
          return false;
        }
      }
      assert FileConverged(env, world, resolutions, file);
      i := i + 1;
    }
    assert files[..i] == files;
    ok := true;
  }

  /** The restore's own check that the live world now matches the snapshot. */
  method VerifyConverged(env: Environment, world: Live, current: Discovery, snapshot: Snapshot,
                         resolutions: seq<Resolution>)
    returns (ok: bool)
    requires Consistent(env) && DistinctFiles(snapshot.files) && DistinctPlugins(resolutions)
        && Discovers(env, world, current)
    ensures ok <==> NothingToDo(env, world, snapshot, resolutions) && AllKeptProperly(env, world, snapshot, resolutions)
    ensures ok ==> forall i :: 0 <= i < |snapshot.files| && env.mapping(snapshot.files[i].logicalPath).Restored?
                               && KeptAside(env, resolutions, snapshot.files[i].logicalPath) ==>
              At(world.settings, snapshot.files[i].logicalPath)
              == Some(Plain(Identity(snapshot.files[i].size, snapshot.files[i].sha256, RESTORED_MODE)))
  {
    ConvergedExactly(env, world, snapshot, resolutions);
    if i :| 0 <= i < |snapshot.files| && env.mapping(snapshot.files[i].logicalPath).Unsupported? { return false; }
    ok := CheckFiles(env, world, snapshot.files, resolutions);
    if !ok { return; }
    var removals := BuildConvergenceActions(env, world, current, snapshot);
    if removals.None? || removals.value != [] {
      if removals.Some? { SomethingToRemove(env, world, snapshot, removals.value); }
      return false;
    }
    NothingListed(env, world, snapshot, removals.value);
    var plugins := ResolvedActions(env, world, resolutions);
    plugins := AddExtraActions(env, world, resolutions, plugins);
    if i :| 0 <= i < |plugins| && !plugins[i].operation.Unchanged? {
      assert plugins[i] in plugins;
      return false;
    }
    assert forall action :: action in plugins ==> action.operation.Unchanged?;
    ok := true;
  }

  lemma SomethingToRemove(env: Environment, world: Live, snapshot: Snapshot, removals: seq<Action>)
    requires removals != [] && forall action :: action in removals ==>
        ToRemove(env, world, snapshot, action.logicalPath)
    ensures !NoRemovals(env, world, snapshot)
  {
    assert removals[0] in removals;
  }

  lemma NothingListed(env: Environment, world: Live, snapshot: Snapshot, removals: seq<Action>)
    requires removals == [] && forall action :: action in removals <==>
      ToRemove(env, world, snapshot, action.logicalPath) && action == RemovalAction(world, action.logicalPath)
    ensures NoRemovals(env, world, snapshot)
  {
    forall path ensures !ToRemove(env, world, snapshot, path) {
      assert ToRemove(env, world, snapshot, path) ==> RemovalAction(world, path) in removals;
    }
  }

  /** What the check goes through, pass by pass, is that planning again would find nothing to do. */
  lemma ConvergedExactly(env: Environment, world: Live, snapshot: Snapshot, resolutions: seq<Resolution>)
    requires Consistent(env)
    ensures NothingToDo(env, world, snapshot, resolutions) && AllKeptProperly(env, world, snapshot, resolutions) <==>
      && Feasible(env, world, snapshot) && FilesConverged(env, world, snapshot.files, resolutions)
      && NoRemovals(env, world, snapshot) && PluginsConverged(env, world, resolutions)
  {
    if NothingToDo(env, world, snapshot, resolutions) && AllKeptProperly(env, world, snapshot, resolutions) {
      NothingToDoConverges(env, world, snapshot, resolutions);
    }
    if Feasible(env, world, snapshot) && FilesConverged(env, world, snapshot.files, resolutions)
       && NoRemovals(env, world, snapshot) && PluginsConverged(env, world, resolutions) {
      ConvergedLeavesNothing(env, world, snapshot, resolutions);
    }
  }

  lemma NothingToDoConverges(env: Environment, world: Live, snapshot: Snapshot, resolutions: seq<Resolution>)
    requires NothingToDo(env, world, snapshot, resolutions) && AllKeptProperly(env, world, snapshot, resolutions)
    ensures FilesConverged(env, world, snapshot.files, resolutions) && NoRemovals(env, world, snapshot)
  {
    forall i | 0 <= i < |snapshot.files| ensures FileConverged(env, world, resolutions, snapshot.files[i]) {
      var file := snapshot.files[i];
      if env.mapping(file.logicalPath).Restored? && KeptAside(env, resolutions, file.logicalPath) {
        assert WantsSetting(env, world, resolutions, file, SettingAction(env, world, file));
        assert PlannedSetting(env, world, snapshot, resolutions, SettingAction(env, world, file));
      } else if env.mapping(file.logicalPath).Restored? {
        assert WantsAction(env, world, resolutions, file, FileAction(env, world, file));
        assert Planned(env, world, snapshot, resolutions, FileAction(env, world, file));
      }
    }
    forall path ensures !ToRemove(env, world, snapshot, path) {
      if ToRemove(env, world, snapshot, path) {
        assert Planned(env, world, snapshot, resolutions, RemovalAction(world, path));
      }
    }
  }

  lemma ConvergedLeavesNothing(env: Environment, world: Live, snapshot: Snapshot, resolutions: seq<Resolution>)
    requires Feasible(env, world, snapshot) && FilesConverged(env, world, snapshot.files, resolutions)
    requires NoRemovals(env, world, snapshot) && PluginsConverged(env, world, resolutions)
    ensures NothingToDo(env, world, snapshot, resolutions) && AllKeptProperly(env, world, snapshot, resolutions)
  {
    forall action | Planned(env, world, snapshot, resolutions, action) ensures action.operation.Unchanged? {
      var i :| 0 <= i < |snapshot.files| && WantsAction(env, world, resolutions, snapshot.files[i], action);
      assert FileConverged(env, world, resolutions, snapshot.files[i]);
    }
    forall setting | PlannedSetting(env, world, snapshot, resolutions, setting) ensures setting.operation.Unchanged? {
      var i :| 0 <= i < |snapshot.files| && WantsSetting(env, world, resolutions, snapshot.files[i], setting);
      assert FileConverged(env, world, resolutions, snapshot.files[i]);
    }
    forall i | 0 <= i < |resolutions| ensures !resolutions[i].blocking {
      assert PlannedPlugin(env, world, resolutions, ResolvedAction(env, world, resolutions[i]));
    }
    forall i | 0 <= i < |snapshot.files| && env.mapping(snapshot.files[i].logicalPath).Restored?
               && KeptAside(env, resolutions, snapshot.files[i].logicalPath)
      ensures KeptProperly(world, snapshot.files[i])
    {
      assert FileConverged(env, world, resolutions, snapshot.files[i]);
    }
  }

  /** The check after the reboot: whether a new plan has nothing to do. */
  method CheckRestored(env: Environment, world: Live, current: Discovery, snapshot: Snapshot,
                       resolutions: seq<Resolution>)
    returns (ok: bool)
    requires Consistent(env) && DistinctFiles(snapshot.files) && DistinctPlugins(resolutions)
        && Discovers(env, world, current)
    ensures ok <==> NothingToDo(env, world, snapshot, resolutions)
  {
    var plan := BuildPlan(env, world, current, snapshot, resolutions);
    if plan.None? { return false; }
    SettledExactly(env, world, snapshot, resolutions, plan.value);
    ok := Settled(plan.value, resolutions);
  }

  /** A carried-out plan passes the check after the reboot, and the restore's own check as well
      unless a setting that was already kept aside has another mode. */
  lemma RestoreVerifies(env: Environment, world: Live, snapshot: Snapshot, resolutions: seq<Resolution>, plan: Plan,
                        later: Live)
    requires CarriedOut(env, world, snapshot, resolutions, plan, later) && ListsItsThemes(env, snapshot)
    ensures NothingToDo(env, later, snapshot, resolutions)
    ensures AllKeptProperly(env, later, snapshot, resolutions) <==>
      forall i :: 0 <= i < |snapshot.files| && env.mapping(snapshot.files[i].logicalPath).Restored?
                  && KeptAside(env, resolutions, snapshot.files[i].logicalPath)
                  && SettingAction(env, world, snapshot.files[i]).operation.Unchanged?
        ==> KeptProperly(world, snapshot.files[i])
  {
    FixedPoint(env, world, snapshot, resolutions, plan, later);
    forall i | 0 <= i < |snapshot.files| && env.mapping(snapshot.files[i].logicalPath).Restored?
               && KeptAside(env, resolutions, snapshot.files[i].logicalPath)
      ensures KeptProperly(later, snapshot.files[i]) <==>
        (SettingAction(env, world, snapshot.files[i]).operation.Unchanged? ==> KeptProperly(world, snapshot.files[i]))
    {
      var file := snapshot.files[i];
      var setting := SettingAction(env, world, file);
      assert WantsSetting(env, world, resolutions, file, setting);
      assert PlannedSetting(env, world, snapshot, resolutions, setting);
      assert setting in plan.settings && !setting.operation.Blocked?;
      assert At(later.settings, file.logicalPath) == AfterSetting(setting, At(world.settings, file.logicalPath));
    }
  }
}

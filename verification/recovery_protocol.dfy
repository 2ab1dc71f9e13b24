/** Many devices setting up one account's recovery key. */
module RecoveryProtocol {
  import opened Identities
  import opened RecoveryKey

  datatype Stage = Idle | Decided | Created | Won | Lost

  /** A device that would generate this key. */
  datatype Device = Device(material: Material, request: Request, stage: Stage)

  /** The store is linearizable and nothing in it is ever deleted, but objects can be added at any
      moment. */
  datatype State = State(objects: seq<Stored>, devices: map<nat, Device>)

  /** What becomes of a create request: stored and answered, stored and the answer lost, or refused. */
  datatype Posting = Answered | AnswerLost | NotStored

  datatype Step =
    | Look(id: nat)
    | Post(id: nat, posting: Posting)
    | ReadBack(id: nat)
    | Foreign(added: Stored)

  predicate At(s: State, id: nat, stage: Stage) { id in s.devices && s.devices[id].stage == stage }

  predicate Enabled(s: State, step: Step) {
    match step
    case Look(id) => At(s, id, Idle)
    case Post(id, _) => At(s, id, Decided)
    case ReadBack(id) => At(s, id, Created)
    case Foreign(_) => true
  }

  function Become(s: State, id: nat, stage: Stage): State
    requires id in s.devices
  {
    s.(devices := s.devices[id := s.devices[id].(stage := stage)])
  }

  /** The key a device would create, if what it finds leads it to create one. */
  predicate Creates(s: State, id: nat)
    requires id in s.devices
  {
    var choice := Choose(LookupOf(s.objects), s.devices[id].request, s.devices[id].material);
    choice.Some? && choice.value.create && choice.value.material == s.devices[id].material
  }

  /** Creation succeeds when reading back finds one valid key and it is the device's own. */
  predicate Verifies(objects: seq<Stored>, material: Material) {
    var lookup := LookupOf(objects);
    lookup.finding.Valid? && lookup.material.Some? && lookup.material.value.fingerprint == material.fingerprint
  }

  function After(s: State, step: Step): State
    requires Enabled(s, step)
  {
    match step
    case Look(id) => Become(s, id, if Creates(s, id) then Decided else Lost)
    case Post(id, posting) =>
      var stored := s.(objects := s.objects + [Readable(s.devices[id].material)]);
      if posting.NotStored? then Become(s, id, Lost)
      else Become(stored, id, if posting.Answered? then Created else Lost)
    case ReadBack(id) => Become(s, id, if Verifies(s.objects, s.devices[id].material) then Won else Lost)
    case Foreign(added) => s.(objects := s.objects + [added])
  }

  // ---------------------------------------------------------------- one device's creation

  /** The account's hidden folder, to which other devices may add at any moment. */
  class AppData {
    var objects: seq<Stored>

    constructor ()
      ensures objects == []
    {
      objects := [];
    }

    method Interfere()
      modifies this
      ensures old(objects) <= objects
    {
      var more: seq<Stored> := *;
      objects := objects + more;
    }

    /** Creates the object and reads back what is there. Nothing is taken back on failure. */
    method CreateRecoveryObject(material: Material, posting: Posting) returns (ok: bool)
      modifies this
      ensures old(objects) <= objects
      ensures !posting.NotStored? ==> exists i :: |old(objects)| <= i < |objects| && objects[i] == Readable(material)
      ensures ok ==> posting.Answered? && Readable(material) in objects
      ensures posting.Answered? ==> (ok <==> OneKey(objects))
    {
      Interfere();
      if posting.NotStored? { return false; }
      objects := objects + [Readable(material)];
      ghost var i := |objects| - 1;
      assert objects[i] == Readable(material);
      if posting.AnswerLost? { return false; }
      Interfere();
      assert objects[i] == Readable(material);
      ok := Verifies(objects, material);
      ValidExactly(objects);
    }
  }

  // ---------------------------------------------------------------- every interleaving

  predicate Executes(s: State, steps: seq<Step>)
    decreases |steps|
  {
    steps == [] || (Enabled(s, steps[0]) && Executes(After(s, steps[0]), steps[1..]))
  }

  function Reached(s: State, steps: seq<Step>): State
    requires Executes(s, steps)
    decreases |steps|
  {
    if steps == [] then s else Reached(After(s, steps[0]), steps[1..])
  }

  predicate Initial(s: State) { forall id :: id in s.devices ==> s.devices[id].stage.Idle? }

  /** Whatever a device has posted stays in the store, and all that have won agree. */
  ghost predicate Inv(s: State) {
    && (forall id :: id in s.devices && (s.devices[id].stage.Created? || s.devices[id].stage.Won?)
          ==> Readable(s.devices[id].material) in s.objects)
    && (forall i, j :: i in s.devices && j in s.devices && s.devices[i].stage.Won? && s.devices[j].stage.Won?
          ==> s.devices[i].material.fingerprint == s.devices[j].material.fingerprint)
  }

  lemma KeysAgree(objects: seq<Stored>, first: Material, second: Material)
    requires OneKey(objects) && Readable(first) in objects && Readable(second) in objects
    ensures first.fingerprint == second.fingerprint
  {
  }

  /** Who has won before agrees with who wins now, because nothing in the store disagrees. */
  lemma ReadBackKeepsInv(s: State, id: nat)
    requires Inv(s) && Enabled(s, ReadBack(id))
    ensures Inv(After(s, ReadBack(id)))
  {
    var s', material := After(s, ReadBack(id)), s.devices[id].material;
    if s'.devices[id].stage.Won? {
      ValidExactly(s.objects);
      forall j | j in s.devices && s.devices[j].stage.Won?
        ensures s.devices[j].material.fingerprint == material.fingerprint
      {
        KeysAgree(s.objects, s.devices[j].material, material);
      }
    }
  }

  /** Objects are only added, and devices keep their keys. */
  predicate Extends(later: State, s: State) {
    && s.objects <= later.objects && later.devices.Keys == s.devices.Keys
    && forall id :: id in s.devices ==> later.devices[id].material == s.devices[id].material
  }

  lemma StepKeepsInv(s: State, step: Step)
    requires Inv(s) && Enabled(s, step)
    ensures Inv(After(s, step)) && Extends(After(s, step), s)
  {
    if step.ReadBack? { ReadBackKeepsInv(s, step.id); }
  }

  lemma {:induction false} RunKeepsInv(s: State, steps: seq<Step>)
    requires Inv(s) && Executes(s, steps)
    ensures Inv(Reached(s, steps)) && Extends(Reached(s, steps), s)
    decreases |steps|
  {
    if steps != [] {
      var next := After(s, steps[0]);
      StepKeepsInv(s, steps[0]);
      RunKeepsInv(next, steps[1..]);
      ExtendsTransitive(Reached(next, steps[1..]), next, s);
    }
  }

  lemma ExtendsTransitive(last: State, middle: State, first: State)
    requires Extends(last, middle) && Extends(middle, first)
    ensures Extends(last, first)
  {
  }

  /** Whatever the interleaving, devices that would each create a key of their own never both win. */
  lemma AtMostOneWinner(s: State, steps: seq<Step>, first: nat, second: nat)
    requires Initial(s) && Executes(s, steps)
    requires forall i, j :: i in s.devices && j in s.devices && i != j
                            ==> s.devices[i].material.fingerprint != s.devices[j].material.fingerprint
    requires At(Reached(s, steps), first, Won) && At(Reached(s, steps), second, Won)
    ensures first == second
  {
    RunKeepsInv(s, steps);
  }

  /** Two keys in the store, once there, are never resolved: no later lookup is valid, so no device
      ever wins again or connects without importing a key. */
  lemma DisagreementIsPermanent(s: State, steps: seq<Step>, first: Material, second: Material)
    requires Inv(s) && Executes(s, steps) && first.fingerprint != second.fingerprint
    requires Readable(first) in s.objects && Readable(second) in s.objects
    ensures var later := Reached(s, steps);
            && !LookupOf(later.objects).finding.Valid? && !LookupOf(later.objects).finding.Missing?
            && forall material :: !Verifies(later.objects, material)
  {
    RunKeepsInv(s, steps);
    var later := Reached(s, steps);
    ValidExactly(later.objects);
    assert Readable(first) in later.objects && Readable(second) in later.objects;
    if OneKey(later.objects) { KeysAgree(later.objects, first, second); }
  }

  /** A device goes on to create its key exactly when it finds nothing stored, and either has nothing
      imported, sees no snapshot and may set up anew, or has imported that key and sees snapshots or may. */
  lemma CreatesExactly(s: State, id: nat)
    requires Enabled(s, Look(id))
    ensures At(After(s, Look(id)), id, Decided) <==>
      var request := s.devices[id].request;
      && s.objects == []
      && if request.imported.Some?
         then request.imported.value == s.devices[id].material && (request.snapshots || request.initialize)
         else !request.snapshots && request.initialize
  {
    var request, material := s.devices[id].request, s.devices[id].material;
    if request.imported.Some? {
      ImportExactly(s.objects, request, material);
    } else {
      NoImportExactly(s.objects, request, material);
    }
  }

  lemma {:induction false} LostForGood(s: State, steps: seq<Step>, id: nat)
    requires At(s, id, Lost) && Executes(s, steps)
    ensures At(Reached(s, steps), id, Lost)
    decreases |steps|
  {
    if steps != [] { LostForGood(After(s, steps[0]), steps[1..], id); }
  }

  /** Only a device whose request was answered can still win; but its key is stored also when the
      answer was lost, and only then or when it was answered. */
  lemma OnlyAnsweredCanWin(s: State, id: nat, posting: Posting, steps: seq<Step>)
    requires Enabled(s, Post(id, posting)) && Executes(After(s, Post(id, posting)), steps)
    ensures At(Reached(After(s, Post(id, posting)), steps), id, Won) ==> posting.Answered?
    ensures After(s, Post(id, posting)).objects
            == if posting.NotStored? then s.objects else s.objects + [Readable(s.devices[id].material)]
  {
    if !posting.Answered? { LostForGood(After(s, Post(id, posting)), steps, id); }
  }

  // ---------------------------------------------------------------- what it does not guarantee

  const SETUP := Request(false, true, None)

  function TwoDevices(first: Material, second: Material): State {
    State([], map[1 := Device(first, SETUP, Idle), 2 := Device(second, SETUP, Idle)])
  }

  function Stages(first: Material, second: Material, objects: seq<Stored>, one: Stage, two: Stage): State {
    State(objects, map[1 := Device(first, SETUP, one), 2 := Device(second, SETUP, two)])
  }

  ghost predicate Reachable(start: State, s: State) {
    exists steps: seq<Step> :: Executes(start, steps) && Reached(start, steps) == s
  }

  lemma {:induction false} ExecuteOneMore(s: State, steps: seq<Step>, step: Step)
    requires Executes(s, steps) && Enabled(Reached(s, steps), step)
    ensures Executes(s, steps + [step]) && Reached(s, steps + [step]) == After(Reached(s, steps), step)
    decreases |steps|
  {
    var longer := steps + [step];
    if steps == [] {
      assert longer[1..] == [];
    } else {
      assert longer[0] == steps[0] && longer[1..] == steps[1..] + [step];
      ExecuteOneMore(After(s, steps[0]), steps[1..], step);
    }
  }

  lemma Take(start: State, s: State, step: Step, s': State)
    requires Reachable(start, s) && Enabled(s, step) && After(s, step) == s'
    ensures Reachable(start, s')
  {
    var steps: seq<Step> :| Executes(start, steps) && Reached(start, steps) == s;
    ExecuteOneMore(start, steps, step);
    assert Executes(start, steps + [step]) && Reached(start, steps + [step]) == s';
  }

  /** Both devices find the store empty before either has posted. */
  lemma BothDecide(first: Material, second: Material)
    ensures Reachable(TwoDevices(first, second), Stages(first, second, [], Decided, Decided))
  {
    var start := TwoDevices(first, second);
    assert Executes(start, []) && Reached(start, []) == start;
    Take(start, start, Look(1), Stages(first, second, [], Decided, Idle));
    Take(start, Stages(first, second, [], Decided, Idle), Look(2), Stages(first, second, [], Decided, Decided));
  }

  /** One key alone is valid; two keys of two devices are not. */
  lemma TwoKeysConflict(first: Material, second: Material)
    requires first.fingerprint != second.fingerprint
    ensures LookupOf([Readable(first), Readable(second)]).finding.Conflict?
    ensures Verifies([Readable(first)], first)
    ensures !Verifies([Readable(first), Readable(second)], first)
        && !Verifies([Readable(first), Readable(second)], second)
  {
    var one, both := [Readable(first)], [Readable(first), Readable(second)];
    assert one[..0] == [] && both[..1] == one;
    FoundOneMore(one, 0);
    FoundOneMore(both, 1);
    assert one[..1] == one && both[..2] == both;
  }

  /** Both have decided, and one has posted. */
  lemma FirstPosts(first: Material, second: Material)
    ensures Reachable(TwoDevices(first, second), Stages(first, second, [Readable(first)], Created, Decided))
  {
    BothDecide(first, second);
    Take(TwoDevices(first, second), Stages(first, second, [], Decided, Decided), Post(1, Answered),
         Stages(first, second, [Readable(first)], Created, Decided));
  }

  lemma BothPost(first: Material, second: Material)
    ensures Reachable(TwoDevices(first, second),
                      Stages(first, second, [Readable(first), Readable(second)], Created, Created))
  {
    FirstPosts(first, second);
    Take(TwoDevices(first, second), Stages(first, second, [Readable(first)], Created, Decided), Post(2, Answered),
         Stages(first, second, [Readable(first), Readable(second)], Created, Created));
  }

  /** Both can post before either reads back, and then neither wins. */
  lemma BothCanLose(first: Material, second: Material) returns (s: State)
    requires first.fingerprint != second.fingerprint
    ensures Reachable(TwoDevices(first, second), s)
    ensures At(s, 1, Lost) && At(s, 2, Lost) && LookupOf(s.objects).finding.Conflict?
  {
    var start, both := TwoDevices(first, second), [Readable(first), Readable(second)];
    BothPost(first, second);
    TwoKeysConflict(first, second);
    var s1 := Stages(first, second, both, Lost, Created);
    Take(start, Stages(first, second, both, Created, Created), ReadBack(1), s1);
    s := Stages(first, second, both, Lost, Lost);
    Take(start, s1, ReadBack(2), s);
  }

  /** A winner's key is not safe either: a device that decided earlier can still post its own. */
  lemma WinnerCanBeContested(first: Material, second: Material) returns (s: State)
    requires first.fingerprint != second.fingerprint
    ensures Reachable(TwoDevices(first, second), s)
    ensures At(s, 1, Won) && LookupOf(s.objects).finding.Conflict?
  {
    var start := TwoDevices(first, second);
    FirstPosts(first, second);
    TwoKeysConflict(first, second);
    var s1 := Stages(first, second, [Readable(first)], Won, Decided);
    Take(start, Stages(first, second, [Readable(first)], Created, Decided), ReadBack(1), s1);
    s := Stages(first, second, [Readable(first), Readable(second)], Won, Created);
    Take(start, s1, Post(2, Answered), s);
  }
}

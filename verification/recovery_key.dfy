/** Finding, choosing and creating the recovery key that all devices of an account share. */
module RecoveryKey {
  import opened Identities

  /** Key material, known by a fingerprint that is never empty. */
  datatype Material = Material(fingerprint: string, secret: string)

  /** A stored object either parses into material or does not. */
  datatype Stored = Readable(material: Material) | Broken

  datatype Finding = Missing | Valid | Invalid | Conflict

  datatype Lookup = Lookup(finding: Finding, material: Option<Material>, warned: bool)

  predicate Fingerprinted(objects: seq<Stored>) {
    forall i :: 0 <= i < |objects| && objects[i].Readable? ==> objects[i].material.fingerprint != ""
  }

  // ---------------------------------------------------------------- looking the key up

  /** The first material that parses. */
  function First(objects: seq<Stored>): Option<Material> {
    if objects == [] then None
    else if First(objects[..|objects| - 1]).Some? then First(objects[..|objects| - 1])
    else match objects[|objects| - 1]
      case Readable(material) => Some(material)
      case Broken => None
  }

  /** The finding after a list of objects: the last thing wrong with it decides. */
  function Found(objects: seq<Stored>): (finding: Finding)
    ensures !finding.Missing?
  {
    if objects == [] then Valid
    else
      var before, first := Found(objects[..|objects| - 1]), First(objects[..|objects| - 1]);
      match objects[|objects| - 1]
      case Broken => Invalid
      case Readable(material) =>
        if first.Some? && material.fingerprint != first.value.fingerprint then Conflict else before
  }

  function LookupOf(objects: seq<Stored>): Lookup {
    if objects == [] then Lookup(Missing, None, false)
    else Lookup(Found(objects), First(objects), Found(objects).Valid? && |objects| > 1)
  }

  lemma FoundOneMore(objects: seq<Stored>, i: nat)
    requires i < |objects|
    ensures First(objects[..i + 1])
            == if First(objects[..i]).Some?
                || objects[i].Broken? then First(objects[..i]) else Some(objects[i].material)
    ensures Found(objects[..i + 1])
            == if objects[i].Broken? then Invalid
               else if First(objects[..i]).Some?
                   && objects[i].material.fingerprint != First(objects[..i]).value.fingerprint
               then Conflict else Found(objects[..i])
  {
    assert objects[..i + 1][..i] == objects[..i];
  }

  /** Lists and reads the stored objects. An empty first fingerprint stands for none read yet. */
  method LookupRecoveryObject(objects: seq<Stored>) returns (lookup: Lookup)
    requires Fingerprinted(objects)
    ensures lookup == LookupOf(objects)
  {
    if objects == [] { return Lookup(Missing, None, false); }
    var finding, material, firstFingerprint, i := Valid, None, "", 0;
    while i < |objects|
      invariant 0 <= i <= |objects| && finding == Found(objects[..i]) && material == First(objects[..i])
      invariant firstFingerprint == if material.Some? then material.value.fingerprint else ""
      invariant material.Some? ==> firstFingerprint != ""
    {
      FoundOneMore(objects, i);
      match objects[i] {
        case Broken => finding := Invalid;
        case Readable(found) =>
          if firstFingerprint == "" {
            firstFingerprint, material := found.fingerprint, Some(found);
          } else if found.fingerprint != firstFingerprint {
            finding := Conflict;
          }
      }
      i := i + 1;
    }
    assert objects[..i] == objects;
    if finding.Valid? && firstFingerprint == "" { NothingReadable(objects); }
    lookup := Lookup(finding, material, finding.Valid? && |objects| > 1);
  }

  lemma {:induction false} NothingReadable(objects: seq<Stored>)
    requires objects != [] && First(objects).None?
    ensures Found(objects) == Invalid
  {
  }

  /** Every object parses, and all to one fingerprint. */
  predicate OneKey(objects: seq<Stored>) {
    && (forall i :: 0 <= i < |objects| ==> objects[i].Readable?)
    && (forall i, j :: 0 <= i < j < |objects| ==> objects[i].material.fingerprint == objects[j].material.fingerprint)
  }

  lemma {:induction false} FoundValid(objects: seq<Stored>)
    ensures Found(objects).Valid? <==> OneKey(objects)
    ensures OneKey(objects) && objects != [] ==> First(objects) == Some(objects[0].material)
  {
    if objects != [] {
      var front, last := objects[..|objects| - 1], objects[|objects| - 1];
      FoundValid(front);
      if front == [] { assert First(front).None?; }
      if OneKey(objects) {
        assert OneKey(front) by {
          forall i, j | 0 <= i < j < |front| ensures front[i].material.fingerprint == front[j].material.fingerprint {
            assert objects[i].material.fingerprint == objects[j].material.fingerprint;
          }
        }
        if front != [] { assert objects[0].material.fingerprint == last.material.fingerprint; }
      }
      if Found(objects).Valid? {
        forall i | 0 <= i < |front| ensures objects[i].material.fingerprint == last.material.fingerprint {
          if i > 0 { assert front[0].material.fingerprint == front[i].material.fingerprint; }
        }
      }
    }
  }

  /** A lookup is valid exactly when there is an object, every object parses and all agree. */
  lemma ValidExactly(objects: seq<Stored>)
    ensures LookupOf(objects).finding.Valid? <==> objects != [] && OneKey(objects)
  {
    FoundValid(objects);
  }

  lemma OneKeyAnyOrder(some: seq<Stored>, others: seq<Stored>)
    requires multiset(some) == multiset(others) && OneKey(some)
    ensures OneKey(others)
  {
    forall i | 0 <= i < |others| ensures others[i].Readable? {
      assert others[i] in multiset(some);
    }
    forall i, j | 0 <= i < j < |others| ensures others[i].material.fingerprint == others[j].material.fingerprint {
      assert others[i] in multiset(some) && others[j] in multiset(some);
      var k :| 0 <= k < |some| && some[k] == others[i];
      var l :| 0 <= l < |some| && some[l] == others[j];
      if k < l { assert some[k].material.fingerprint == some[l].material.fingerprint; }
      if l < k { assert some[l].material.fingerprint == some[k].material.fingerprint; }
    }
  }

  /** Whether a lookup is missing or valid does not depend on the order of the listing. */
  lemma ValidAnyOrder(some: seq<Stored>, others: seq<Stored>)
    requires multiset(some) == multiset(others)
    ensures LookupOf(some).finding.Valid? <==> LookupOf(others).finding.Valid?
    ensures LookupOf(some).finding.Missing? <==> LookupOf(others).finding.Missing?
  {
    assert |multiset(some)| == |some| && |multiset(others)| == |others|;
    ValidExactly(some);
    ValidExactly(others);
    if OneKey(some) { OneKeyAnyOrder(some, others); }
    if OneKey(others) { OneKeyAnyOrder(others, some); }
  }

  predicate NoneBroken(objects: seq<Stored>) { forall i :: 0 <= i < |objects| ==> objects[i].Readable? }

  /** All that parse carry one fingerprint. */
  predicate Agree(objects: seq<Stored>) {
    forall i, j :: 0 <= i < |objects| && 0 <= j < |objects| && objects[i].Readable? && objects[j].Readable? ==>
      objects[i].material.fingerprint == objects[j].material.fingerprint
  }

  lemma {:induction false} FirstIsReadable(objects: seq<Stored>)
    ensures First(objects).Some? ==> exists i :: 0 <= i < |objects| && objects[i] == Readable(First(objects).value)
  {
    if objects != [] {
      var front := objects[..|objects| - 1];
      FirstIsReadable(front);
      if First(front).Some? {
        var i :| 0 <= i < |front| && front[i] == Readable(First(front).value);
        assert objects[i] == Readable(First(objects).value);
      }
    }
  }

  /** Without a broken object there is nothing invalid, and without a disagreement no conflict. */
  lemma {:induction false} NeverFound(objects: seq<Stored>)
    ensures NoneBroken(objects) ==> !Found(objects).Invalid?
    ensures Agree(objects) ==> !Found(objects).Conflict?
  {
    if objects != [] {
      var front := objects[..|objects| - 1];
      NeverFound(front);
      FirstIsReadable(front);
      if Agree(objects) && First(front).Some? {
        var i :| 0 <= i < |front| && front[i] == Readable(First(front).value);
        assert objects[i] == front[i];
      }
    }
  }

  lemma {:induction false} FirstOfHead(objects: seq<Stored>)
    requires objects != [] && objects[0].Readable?
    ensures First(objects) == Some(objects[0].material)
  {
    if |objects| > 1 {
      FirstOfHead(objects[..|objects| - 1]);
    } else {
      assert objects[..0] == [];
    }
  }

  /** An order in which a broken object comes last. */
  lemma BrokenLast(objects: seq<Stored>, i: nat) returns (others: seq<Stored>)
    requires i < |objects| && objects[i].Broken?
    ensures multiset(others) == multiset(objects) && Found(others).Invalid?
  {
    others := objects[..i] + objects[i + 1..] + [objects[i]];
    assert objects == objects[..i] + [objects[i]] + objects[i + 1..];
  }

  /** An order in which two keys that differ come first and last. */
  lemma DifferingLast(objects: seq<Stored>, i: nat, j: nat) returns (others: seq<Stored>)
    requires i < j < |objects| && objects[i].Readable? && objects[j].Readable?
    requires objects[i].material.fingerprint != objects[j].material.fingerprint
    ensures multiset(others) == multiset(objects) && Found(others).Conflict?
  {
    var front := [objects[i]] + objects[..i] + objects[i + 1..j] + objects[j + 1..];
    others := front + [objects[j]];
    assert objects == objects[..i] + [objects[i]] + objects[i + 1..j] + [objects[j]] + objects[j + 1..];
    FirstOfHead(front);
    assert others[..|others| - 1] == front;
  }

  /** However the objects are listed, their finding is one. */
  ghost predicate OneFinding(objects: seq<Stored>) {
    forall others :: multiset(others) == multiset(objects) ==> LookupOf(others).finding == LookupOf(objects).finding
  }

  lemma ReorderedAlike(some: seq<Stored>, others: seq<Stored>)
    requires multiset(some) == multiset(others)
    ensures NoneBroken(some) ==> NoneBroken(others)
    ensures Agree(some) ==> Agree(others)
  {
    forall i | 0 <= i < |others| ensures exists k :: 0 <= k < |some| && some[k] == others[i] {
      assert others[i] in multiset(some);
    }
  }

  /** Which of the two bad findings it is does: with a broken object and two keys that differ, whatever
      was met last decides, and only one of the findings lets an import repair it. It does so for
      exactly the stores that hold both, whatever else they hold. */
  lemma BadFindingDependsOnOrder(objects: seq<Stored>)
    ensures OneFinding(objects) <==> NoneBroken(objects) || Agree(objects)
  {
    if NoneBroken(objects) || Agree(objects) {
      forall others | multiset(others) == multiset(objects)
        ensures LookupOf(others).finding == LookupOf(objects).finding
      {
        ValidAnyOrder(others, objects);
        ReorderedAlike(objects, others);
        NeverFound(objects);
        NeverFound(others);
      }
    } else {
      var b :| 0 <= b < |objects| && objects[b].Broken?;
      var some := BrokenLast(objects, b);
      var i, j :| 0 <= i < |objects| && 0 <= j < |objects| && objects[i].Readable? && objects[j].Readable?
        && objects[i].material.fingerprint != objects[j].material.fingerprint;
      var others := DifferingLast(objects, if i < j then i else j, if i < j then j else i);
      assert |multiset(some)| == |some| && |multiset(others)| == |others| && |multiset(objects)| == |objects|;
      assert LookupOf(some).finding.Invalid? && LookupOf(others).finding.Conflict?;
    }
  }

  // ---------------------------------------------------------------- choosing the key

  /** What a device knows when it connects: whether snapshots are visible, whether setting up anew
      was confirmed, and an imported key if there is one. */
  datatype Request = Request(snapshots: bool, initialize: bool, imported: Option<Material>)

  /** The key to use, and whether it may be created in the store; None when connecting fails. */
  datatype Choice = Choice(material: Material, create: bool, generated: bool)

  function Choose(lookup: Lookup, request: Request, newKey: Material): Option<Choice> {
    match lookup.finding
    case Valid =>
      if lookup.material.None? || (request.imported.Some? && request.imported != lookup.material) then None
      else Some(Choice(lookup.material.value, false, false))
    case Conflict => None
    case Invalid =>
      if request.imported.None? then None else Some(Choice(request.imported.value, false, false))
    case Missing =>
      if request.imported.Some? then
        if request.snapshots || request.initialize then Some(Choice(request.imported.value, true, false)) else None
      else if request.snapshots || !request.initialize then None
      else Some(Choice(newKey, true, true))
  }

  /** A new key is generated exactly when the store is empty, no snapshot would be orphaned, setting
      up was confirmed and no key was imported; and whatever is stored is never overridden. */
  lemma NewKeyExactly(objects: seq<Stored>, request: Request, newKey: Material)
    ensures var choice := Choose(LookupOf(objects), request, newKey);
            && (choice.Some? && choice.value.generated
                <==> objects == [] && !request.snapshots && request.initialize && request.imported.None?)
            && (choice.Some? && choice.value.create ==> objects == [])
            && (objects != [] && OneKey(objects) && choice.Some? ==> choice.value.material == objects[0].material)
  {
    FoundValid(objects);
  }

  /** The stored key, which every device finds whatever the order of the listing is. */
  predicate Stores(objects: seq<Stored>, material: Material) {
    objects != [] && OneKey(objects) && objects[0].material == material
  }

  /** An imported key is taken exactly when the store is empty and there are snapshots or setting up was
      confirmed, when what is stored was found invalid, or when it is the stored key; it is created only
      in an empty store. */
  lemma ImportExactly(objects: seq<Stored>, request: Request, newKey: Material)
    requires request.imported.Some?
    ensures var choice := Choose(LookupOf(objects), request, newKey);
            && (choice.Some? <==>
                  || (objects == [] && (request.snapshots || request.initialize))
                  || LookupOf(objects).finding.Invalid?
                  || Stores(objects, request.imported.value))
            && (choice.Some? ==> choice.value == Choice(request.imported.value, objects == [], false))
  {
    FoundValid(objects);
  }

  /** Without one, connecting succeeds exactly with the stored key, or with a new one in an empty store
      when setting up was confirmed and no snapshot would be orphaned. */
  lemma NoImportExactly(objects: seq<Stored>, request: Request, newKey: Material)
    requires request.imported.None?
    ensures var choice := Choose(LookupOf(objects), request, newKey);
            && (choice.Some? <==>
                  || (objects == [] && !request.snapshots && request.initialize)
                  || (objects != [] && OneKey(objects)))
            && (choice.Some? ==> choice.value == if objects == [] then Choice(newKey, true, true)
                                                 else Choice(objects[0].material, false, false))
  {
    FoundValid(objects);
  }

  /** Among keys that differ none is selected, whatever was imported, unless something else in the
      store does not parse. */
  lemma ConflictSelectsNothing(objects: seq<Stored>, request: Request, newKey: Material)
    requires NoneBroken(objects) && !Agree(objects)
    ensures Choose(LookupOf(objects), request, newKey).None?
  {
    FoundValid(objects);
    NeverFound(objects);
  }
}

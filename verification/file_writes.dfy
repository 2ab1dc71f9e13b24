/** The two file mutations of a restore: an atomic write, by exchange or by no-replace rename
    through a private transaction directory, and the removal of a file it may remove. */
module FileWrites {
  import opened Identities
  import opened FileNamespace

  /** What a mutation reports: success, a plain error, or an error that says the mutation could
      not be conclusively rolled back. */
  datatype Outcome = Done | Failed | Incomplete

  /** A write of `desired` over the approved `existing`, or of a new target when `create`. */
  datatype Write = Write(path: string, create: bool, existing: Identity, desired: Identity)

  predicate Approved(write: Write, entry: Entry) {
    entry.File? && ((!write.create && entry.identity == write.existing) || entry.identity == write.desired)
  }

  /** The target is as the plan approved it. */
  predicate Ready(write: Write, target: Option<Entry>) {
    if write.create then target == None else Holds(target, write.existing)
  }

  const PAYLOAD := "payload"
  const FAILED := "failed"
  const REMOVED := "removed"

  /** A verified payload is staged and nothing has been moved yet. */
  ghost predicate Staged(tx: PrivateDirectory, write: Write)
    reads tx
  {
    && tx.objects.Keys == {PAYLOAD} && Holds(Some(tx.objects[PAYLOAD]), write.desired)
    && !tx.retain && !tx.unsynced && tx.taken == {} && tx.returned == {} && tx.destroyed == {} && tx.displaced == None
  }

  /** What may be deleted: everything deleted so far, and everything still here unless retained. */
  ghost predicate OnlyApprovedGoes(tx: PrivateDirectory, write: Write)
    reads tx
  {
    && tx.Accounted()
    && (forall e :: e in tx.destroyed ==> Approved(write, e))
    && (!tx.retain ==> forall name :: name in tx.objects ==> Approved(write, tx.objects[name]))
  }

  /** No entry of another identity is lost: it is back at a public name or in a retained directory. */
  ghost predicate NothingLost(tx: PrivateDirectory, write: Write)
    reads tx
  {
    forall e :: e in tx.taken && !Approved(write, e) ==> e in tx.returned || (tx.retain && tx.Keeps(e))
  }

  /** The staged payload reaches the target name and what is at that name is reported. */
  twostate predicate WroteQuietly(ns: Namespace, write: Write, result: Outcome)
    reads ns
  {
    match result
    case Done =>
      && Holds(At(ns.entries, write.path), write.desired)
      && ns.entries == old(ns.entries)[write.path := ns.entries[write.path]]
    case Failed => ns.entries == old(ns.entries)
    case Incomplete =>
      || ns.entries == old(ns.entries)
      || (&& Holds(At(ns.entries, write.path), write.desired)
          && ns.entries == old(ns.entries)[write.path := ns.entries[write.path]])
  }

  /** Copies the source into the private directory and verifies it; only its mode is set, not checked. */
  method Stage(ns: Namespace, tx: PrivateDirectory, write: Write, source: Identity) returns (ok: bool)
    requires tx.objects == map[] && !tx.retain && !tx.unsynced
    requires tx.taken == {} && tx.returned == {} && tx.destroyed == {} && tx.displaced == None
    modifies tx`objects, ns`failures
    ensures ok ==> ns.failures == old(ns.failures)
    ensures tx.Accounted()
    ensures ok ==> Staged(tx, write)
    ensures !ns.faulty ==> (ok <==> SameContent(source, write.desired))
  {
    var failed := ns.Fails();
    if failed { return false; }
    var serial: nat := *;
    tx.Create(PAYLOAD, File(serial, source.(mode := write.desired.mode)));
    failed := ns.Fails();
    ok := !failed && SameContent(source, write.desired);
  }

  /** Puts back what an exchange displaced; anything unexpected found at the target stays private. */
  method Reverse(ns: Namespace, tx: PrivateDirectory, write: Write, maximum: nat) returns (result: Outcome)
    requires !write.create && PAYLOAD in tx.objects && tx.objects.Keys == {PAYLOAD}
    requires tx.Accounted() && !tx.unsynced && !tx.retain
    requires tx.displaced == Some(tx.objects[PAYLOAD]) && tx.destroyed == {} && maximum >= write.desired.size
    modifies tx, ns`failures, ns`entries, ns`seen, ns`vanished
    ensures !ns.contested && !ns.faulty && Holds(old(At(ns.entries, write.path)), write.desired)
            && write.desired.size <= maximum
            ==> result.Failed?
    ensures result.Failed? ==> ns.failures == old(ns.failures)
    ensures OnlyApprovedGoes(tx, write) && tx.displaced == old(tx.displaced)
    ensures result != Done && (tx.retain <==> result.Incomplete?)
    ensures result.Failed? ==> !tx.unsynced
    ensures !ns.faulty && !ns.vanished ==> old(tx.objects[PAYLOAD]) in tx.returned
    ensures !ns.contested ==>
      ns.entries == old(ns.entries) || ns.entries == old(ns.entries)[write.path := old(tx.objects[PAYLOAD])]
    ensures !ns.contested && result.Failed? ==> ns.entries == old(ns.entries)[write.path := old(tx.objects[PAYLOAD])]
  {
    var exchanged := tx.Exchange(ns, PAYLOAD, write.path);
    var synced := true;
    if exchanged { synced := tx.Sync(ns); }
    if !exchanged || !synced {
      tx.Retain();
      return Incomplete;
    }
    var reversed := tx.Inspect(ns, PAYLOAD, maximum);
    if reversed == Present(write.desired) { return Failed; }
    tx.Retain();
    return Incomplete;
  }

  method CommitReplace(ns: Namespace, tx: PrivateDirectory, write: Write) returns (result: Outcome)
    requires !write.create && Staged(tx, write)
    modifies tx, ns`failures, ns`entries, ns`seen, ns`vanished
    ensures result.Done? ==> ns.failures == old(ns.failures)
    ensures OnlyApprovedGoes(tx, write)
    ensures tx.retain <==> result.Incomplete?
    ensures !result.Incomplete? ==> !tx.unsynced
    ensures result.Done? ==> ns.seen == Present(write.desired) && Holds(tx.displaced, write.existing)
    ensures !ns.faulty && !ns.vanished && tx.displaced.Some? && !Holds(tx.displaced, write.existing)
            ==> tx.displaced.value in tx.returned
    ensures !ns.contested && Holds(old(At(ns.entries, write.path)), write.existing) ==> WroteQuietly(ns, write, result)
    ensures !ns.contested && !ns.faulty && Holds(old(At(ns.entries, write.path)), write.existing) ==> result.Done?
  {
    var exchanged := tx.Exchange(ns, PAYLOAD, write.path);
    if !exchanged { return Failed; }
    var synced := tx.Sync(ns);
    if !synced {
      tx.Retain();
      return Incomplete;
    }
    result := ConfirmExchange(ns, tx, write);
  }

  /** Looks at what an exchange displaced and at what it published, and keeps it or reverses it. */
  method ConfirmExchange(ns: Namespace, tx: PrivateDirectory, write: Write) returns (result: Outcome)
    requires !write.create && PAYLOAD in tx.objects && tx.objects.Keys == {PAYLOAD}
    requires tx.Accounted() && !tx.unsynced && !tx.retain
    requires tx.displaced == Some(tx.objects[PAYLOAD]) && tx.destroyed == {}
    modifies tx, ns`failures, ns`entries, ns`seen, ns`vanished
    ensures result.Done? ==> ns.failures == old(ns.failures)
    ensures OnlyApprovedGoes(tx, write) && tx.displaced == old(tx.displaced)
    ensures tx.retain <==> result.Incomplete?
    ensures !result.Incomplete? ==> !tx.unsynced
    ensures result.Done? ==> ns.seen == Present(write.desired) && Holds(tx.displaced, write.existing)
    ensures !ns.faulty && !ns.vanished && !Holds(tx.displaced, write.existing) ==> tx.displaced.value in tx.returned
    ensures !ns.contested ==>
      ns.entries == old(ns.entries) || ns.entries == old(ns.entries)[write.path := old(tx.objects[PAYLOAD])]
    ensures !ns.contested && result.Failed? ==> ns.entries == old(ns.entries)[write.path := old(tx.objects[PAYLOAD])]
    ensures !ns.contested && result.Done? ==> ns.entries == old(ns.entries)
    ensures !ns.contested && !ns.faulty && Holds(tx.displaced, write.existing)
            && Holds(At(old(ns.entries), write.path), write.desired)
            ==> result.Done?
  {
    var displaced := tx.Inspect(ns, PAYLOAD, Max(write.desired.size, write.existing.size));
    if displaced != Present(write.existing) {
      result := Reverse(ns, tx, write, write.desired.size);
      return;
    }
    var published := ns.Inspect(write.path, write.desired.size);
    if published != Present(write.desired) {
      result := Reverse(ns, tx, write, Max(write.desired.size, 1));
      return;
    }
    result := DiscardBackup(ns, tx, write);
  }

  /** The last step of a replacement: the displaced original is looked at once more and deleted. */
  method DiscardBackup(ns: Namespace, tx: PrivateDirectory, write: Write) returns (result: Outcome)
    requires !write.create && PAYLOAD in tx.objects && tx.objects.Keys == {PAYLOAD}
    requires tx.Accounted() && !tx.retain && tx.destroyed == {}
    modifies tx, ns`failures
    ensures result.Done? ==> ns.failures == old(ns.failures)
    ensures OnlyApprovedGoes(tx, write) && tx.displaced == old(tx.displaced) && tx.returned == old(tx.returned)
    ensures !result.Failed? && (tx.retain <==> result.Incomplete?)
    ensures result.Done? ==> !tx.unsynced
    ensures !ns.faulty && Holds(Some(old(tx.objects[PAYLOAD])), write.existing) ==> result.Done?
  {
    var backup := tx.Inspect(ns, PAYLOAD, write.existing.size);
    if backup != Present(write.existing) {
      tx.Retain();
      return Incomplete;
    }
    var removed := tx.Remove(ns, PAYLOAD);
    if !removed {
      tx.Retain();
      return Incomplete;
    }
    var synced := tx.Sync(ns);
    if !synced {
      tx.Retain();
      return Incomplete;
    }
    return Done;
  }

  method CommitCreate(ns: Namespace, tx: PrivateDirectory, write: Write) returns (result: Outcome)
    requires Staged(tx, write) && tx.Accounted()
    modifies tx, ns`failures, ns`entries, ns`seen
    ensures result.Done? ==> ns.failures == old(ns.failures)
    ensures OnlyApprovedGoes(tx, write)
    ensures tx.retain <==> result.Incomplete?
    ensures !result.Incomplete? ==> !tx.unsynced
    ensures result.Done? ==> ns.seen == Present(write.desired) && tx.taken == {}
    ensures !ns.contested && write.path !in old(ns.entries) ==> WroteQuietly(ns, write, result)
    ensures !ns.contested && !ns.faulty && write.path !in old(ns.entries) ==> result.Done?
  {
    var published := tx.Publish(ns, PAYLOAD, write.path);
    if !published { return Failed; }
    var synced := tx.Sync(ns);
    if !synced {
      tx.Retain();
      return Incomplete;
    }
    var created := ns.Inspect(write.path, write.desired.size);
    if created == Present(write.desired) { return Done; }
    result := Withdraw(ns, tx, write);
  }

  /** Moves what is at a target just created into the private directory; anything unexpected stays. */
  method Withdraw(ns: Namespace, tx: PrivateDirectory, write: Write) returns (result: Outcome)
    requires tx.objects == map[] && tx.Accounted() && !tx.retain && !tx.unsynced && tx.destroyed == {}
    modifies tx, ns`failures, ns`entries, ns`seen
    ensures !ns.contested && !ns.faulty && Holds(old(At(ns.entries, write.path)), write.desired) ==> result.Failed?
    ensures result.Failed? ==> ns.failures == old(ns.failures)
    ensures OnlyApprovedGoes(tx, write) && result != Done
    ensures tx.retain <==> result.Incomplete?
    ensures !result.Incomplete? ==> !tx.unsynced
    ensures !ns.contested ==> ns.entries == old(ns.entries) || ns.entries == old(ns.entries) - {write.path}
    ensures !ns.contested && result.Failed? ==> ns.entries == old(ns.entries) - {write.path}
  {
    var moved := tx.Take(ns, write.path, FAILED);
    var synced := true;
    if moved { synced := tx.Sync(ns); }
    if !moved || !synced {
      tx.Retain();
      return Incomplete;
    }
    var failed := tx.Inspect(ns, FAILED, Max(write.desired.size, 1));
    if failed == Present(write.desired) { return Failed; }
    tx.Retain();
    return Incomplete;
  }

  /** Writes a target. `tx` is the private directory used, null when none was needed. */
  method AtomicWrite(ns: Namespace, write: Write, source: Identity) returns (result: Outcome, tx: PrivateDirectory?)
    modifies ns`failures, ns`entries, ns`seen, ns`vanished, ns`ledger
    ensures result.Done? ==> ns.failures == old(ns.failures)
    ensures ns.ledger == old(ns.ledger) + if tx == null then [] else [tx.LeftBehind()]
    ensures tx == null ==> result.Failed?
    ensures tx != null ==>
      && fresh(tx) && NothingLost(tx, write)
      && (forall e :: e in tx.taken && e in tx.destroyed ==> Approved(write, e))
    ensures tx != null && !result.Incomplete? ==> !tx.unsynced
    ensures result.Done? ==> ns.seen == Present(write.desired) && (write.create || Holds(tx.displaced, write.existing))
    ensures tx != null && !write.create && !ns.faulty && !ns.vanished
            && tx.displaced.Some? && !Holds(tx.displaced, write.existing)
            ==> tx.displaced.value in tx.returned
    ensures !ns.contested ==> WroteQuietly(ns, write, result)
    ensures !ns.contested && !ns.faulty ==>
      (result.Done? <==> Ready(write, old(At(ns.entries, write.path))) && SameContent(source, write.desired))
  {
    result, tx := Failed, null;
    var found := ns.Inspect(write.path, Max(write.desired.size, write.existing.size));
    if found != (if write.create then Absent else Present(write.existing)) { return; }
    var failed := ns.Fails();
    if failed { return; }
    tx := new PrivateDirectory();
    var staged := Stage(ns, tx, write, source);
    if staged {
      if write.create {
        result := CommitCreate(ns, tx, write);
      } else {
        result := CommitReplace(ns, tx, write);
      }
    }
    var closed := tx.Close(ns);
    if result.Done? && !closed { result := Incomplete; }
  }

  // ---------------------------------------------------------------- removal

  /** The removal of a file: of one a restore created, or of one the plan no longer wants. */
  datatype Removal = Removal(path: string, size: nat, sha256: string, existingMode: nat, desiredMode: nat)

  function Removable(removal: Removal): Identity {
    Identity(removal.size, removal.sha256,
             if removal.existingMode == 0 then removal.desiredMode else removal.existingMode)
  }

  /** Mode bits are compared before the file is moved, but not again before it is deleted. */
  predicate SameBytes(removal: Removal, entry: Entry) {
    entry.File? && SameContent(entry.identity, Removable(removal))
  }

  ghost predicate OnlySameBytesGo(tx: PrivateDirectory, removal: Removal)
    reads tx
  {
    && tx.Accounted()
    && (forall e :: e in tx.destroyed ==> SameBytes(removal, e))
    && (!tx.retain ==> forall name :: name in tx.objects ==> SameBytes(removal, tx.objects[name]))
  }

  /** Puts a moved file back under its public name and reports whether it was found there again. */
  method RestoreMoved(ns: Namespace, tx: PrivateDirectory, path: string, moved: Inspection) returns (ok: bool)
    requires tx.objects.Keys == {REMOVED} && tx.Accounted()
    modifies tx, ns`failures, ns`entries, ns`seen
    ensures !ns.faulty ==> old(tx.objects[REMOVED]) in tx.returned || path in ns.entries
    ensures ok ==> ns.failures == old(ns.failures)
    ensures tx.Accounted() && tx.destroyed == old(tx.destroyed) && tx.displaced == old(tx.displaced)
    ensures !ns.contested ==>
      ns.entries == old(ns.entries) || ns.entries == old(ns.entries)[path := old(tx.objects[REMOVED])]
    ensures ok ==> !tx.unsynced && moved.Present? && ns.seen.Present? && SameContent(ns.seen.identity, moved.identity)
  {
    var published := tx.Publish(ns, REMOVED, path);
    if !published { return false; }
    var synced := tx.Sync(ns);
    if !synced { return false; }
    var size := if moved.Present? then moved.identity.size else 0;
    var found := ns.Inspect(path, Max(size, 1));
    ok := moved.Present? && found.Present? && SameContent(found.identity, moved.identity)
          && (moved.identity.mode != 0 ==> found.identity.mode == moved.identity.mode);
  }

  /** What a removal leaves when nothing else acts: the target gone, untouched, or put back. */
  twostate predicate RemovedQuietly(ns: Namespace, removal: Removal, result: Outcome)
    reads ns
  {
    && (ns.entries == old(ns.entries) || ns.entries == old(ns.entries) - {removal.path})
    && (result.Done? ==> removal.path !in ns.entries)
  }

  /** What was moved is deleted unless the removal is inconclusive, which without faults it is exactly
      on other bytes: another mode, or a file somebody else put there meanwhile, makes no difference. */
  ghost predicate DeletedByBytes(ns: Namespace, tx: PrivateDirectory, removal: Removal, result: Outcome)
    requires tx.displaced.Some?
    reads tx
  {
    && (!result.Incomplete? ==> tx.displaced.value in tx.destroyed)
    && (!ns.faulty ==> (tx.displaced.value in tx.destroyed <==> SameBytes(removal, tx.displaced.value)))
  }

  method CommitRemoval(ns: Namespace, tx: PrivateDirectory, removal: Removal) returns (result: Outcome)
    requires tx.objects == map[] && !tx.retain && !tx.unsynced && tx.Accounted()
    requires tx.taken == {} && tx.returned == {} && tx.destroyed == {} && tx.displaced == None
    modifies tx, ns`failures, ns`entries, ns`seen
    ensures !ns.faulty && tx.displaced.Some? && !SameBytes(removal, tx.displaced.value) ==>
      tx.displaced.value in tx.returned || removal.path in ns.entries
    ensures result.Done? ==> ns.failures == old(ns.failures)
    ensures OnlySameBytesGo(tx, removal)
    ensures tx.retain <==> result.Incomplete?
    ensures !result.Incomplete? ==> !tx.unsynced
    ensures result.Done? ==> tx.displaced.Some? && SameBytes(removal, tx.displaced.value)
    ensures tx.displaced.Some? ==> DeletedByBytes(ns, tx, removal, result)
    ensures !ns.contested && Holds(old(At(ns.entries, removal.path)), Removable(removal)) ==>
      && RemovedQuietly(ns, removal, result)
      && (result.Failed? ==> ns.entries == old(ns.entries))
      && (!ns.faulty ==> result.Done?)
  {
    var moved := tx.Take(ns, removal.path, REMOVED);
    if !moved { return Failed; }
    var synced := tx.Sync(ns);
    if !synced {
      tx.Retain();
      return Incomplete;
    }
    var found := tx.Inspect(ns, REMOVED, removal.size);
    if !found.Present? || !SameContent(found.identity, Removable(removal)) {
      var _ := RestoreMoved(ns, tx, removal.path, found);
      tx.Retain();
      return Incomplete;
    }
    var removed := tx.Remove(ns, REMOVED);
    if !removed {
      tx.Retain();
      return Incomplete;
    }
    synced := tx.Sync(ns);
    if !synced {
      tx.Retain();
      return Incomplete;
    }
    return Done;
  }

  /** Removes a file that still has its recorded identity; an absent one counts as removed.
      A failed clean-up after the removal is reported as a plain error. */
  method RemoveAppliedCreate(ns: Namespace, removal: Removal) returns (result: Outcome, tx: PrivateDirectory?)
    modifies ns`failures, ns`entries, ns`seen, ns`ledger
    ensures tx != null && !ns.faulty && tx.displaced.Some? && !SameBytes(removal, tx.displaced.value) ==>
      tx.displaced.value in tx.returned || removal.path in ns.entries
    ensures result.Done? ==> ns.failures == old(ns.failures)
    ensures ns.ledger == old(ns.ledger) + if tx == null then [] else [tx.LeftBehind()]
    ensures tx != null ==>
      && fresh(tx)
      && (forall e :: e in tx.taken && !SameBytes(removal, e) ==> e in tx.returned || (tx.retain && tx.Keeps(e)))
      && (forall e :: e in tx.destroyed ==> SameBytes(removal, e))
    ensures tx != null && tx.displaced.Some? ==> DeletedByBytes(ns, tx, removal, result)
    ensures result.Incomplete? ==> tx != null && tx.retain
    ensures tx != null && !result.Incomplete? ==> !tx.unsynced
    ensures !ns.contested ==> RemovedQuietly(ns, removal, result)
    ensures !ns.contested && !ns.faulty ==>
      (result.Done? <==>
         removal.path !in old(ns.entries)
         || Holds(old(At(ns.entries, removal.path)), Removable(removal)))
    ensures !ns.contested && tx == null ==> ns.entries == old(ns.entries)
    ensures !ns.contested && result.Failed? && ns.entries != old(ns.entries) ==>
      tx != null && tx.displaced.Some? && SameBytes(removal, tx.displaced.value)
  {
    result, tx := Failed, null;
    var found := ns.Inspect(removal.path, removal.size);
    if found.Unreadable? { return; }
    if found.Absent? { return Done, null; }
    if found.identity != Removable(removal) { return; }
    var failed := ns.Fails();
    if failed { return; }
    tx := new PrivateDirectory();
    result := CommitRemoval(ns, tx, removal);
    var closed := tx.Close(ns);
    if result.Done? && !closed { result := Failed; }
  }
}

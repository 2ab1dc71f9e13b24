/** The file namespace restore works in. Names below the user's home are public: when the
    namespace is contested, other processes may replace, delete or create what they name between
    any two steps. The names inside a private transaction directory are restore's own. */
module FileNamespace {
  import opened Identities

  /** What a name refers to. Two files with equal bytes are still two files, so each has a serial
      number; Unsafe stands for whatever restore refuses to read (directories, links, files of
      another owner). */
  datatype Entry = File(serial: nat, identity: Identity) | Unsafe(serial: nat)

  datatype Inspection = Absent | Present(identity: Identity) | Unreadable

  /** What an inspection reports when no system call fails. */
  function Inspected(entry: Option<Entry>, maximum: nat): Inspection {
    match entry
    case None => Absent
    case Some(Unsafe(_)) => Unreadable
    case Some(File(_, identity)) => if identity.size > maximum then Unreadable else Present(identity)
  }

  predicate Holds(entry: Option<Entry>, identity: Identity) {
    entry.Some? && entry.value.File? && entry.value.identity == identity
  }

  function Max(first: nat, second: nat): nat { if first > second then first else second }

  /** What a private directory was closed with: the entries it ever took from public names, those it
      put back at one, those it deleted, and those it keeps for good. */
  datatype Left = Left(taken: set<Entry>, returned: set<Entry>, destroyed: set<Entry>, kept: set<Entry>)

  /** `seen` is what the target was found to be since restore last moved anything; `vanished`
      records that an exchange found nothing to exchange with. `ledger` has an entry for every private
      directory that has been closed, and `failures` counts the system calls that failed. */
  class Namespace {
    var entries: map<string, Entry>
    const contested: bool
    const faulty: bool
    ghost var seen: Inspection
    ghost var vanished: bool
    ghost var ledger: seq<Left>
    ghost var failures: nat

    constructor (entries: map<string, Entry>, contested: bool, faulty: bool)
      ensures this.entries == entries && this.contested == contested && this.faulty == faulty
    {
      this.entries, this.contested, this.faulty := entries, contested, faulty;
      seen, vanished, ledger, failures := Unreadable, false, [], 0;
    }

    /** Other processes act. */
    method Interfere()
      modifies this`entries
      ensures !contested ==> entries == old(entries)
    {
      var others: map<string, Entry> := *;
      if contested { entries := others; }
    }

    /** Whether the next system call fails. */
    method Fails() returns (fails: bool)
      modifies this`failures
      ensures fails ==> faulty
      ensures failures == old(failures) + if fails then 1 else 0
    {
      fails := *;
      fails := fails && faulty;
      if fails { failures := failures + 1; }
    }

    method Inspect(path: string, maximum: nat) returns (found: Inspection)
      modifies this`entries, this`seen, this`failures
      ensures found.Unreadable? || failures == old(failures)
      ensures !contested ==> entries == old(entries)
      ensures found == Inspected(At(entries, path), maximum) || (faulty && found == Unreadable)
      ensures seen == found
    {
      Interfere();
      var failed := Fails();
      found := if failed then Unreadable else Inspected(At(entries, path), maximum);
      seen := found;
    }
  }

  /** A private transaction directory. `taken` are the entries restore moved in from public
      names, `returned` those it moved back out, `destroyed` those it deleted, `displaced` the
      first it took, and `unsynced` says that a move has not been made durable. */
  class PrivateDirectory {
    var objects: map<string, Entry>
    var retain: bool
    ghost var taken: set<Entry>
    ghost var returned: set<Entry>
    ghost var destroyed: set<Entry>
    ghost var displaced: Option<Entry>
    ghost var unsynced: bool

    constructor ()
      ensures objects == map[] && !retain && !unsynced && Accounted()
      ensures taken == {} && returned == {} && destroyed == {} && displaced == None
    {
      objects, retain := map[], false;
      taken, returned, destroyed, displaced, unsynced := {}, {}, {}, None, false;
    }

    ghost predicate Keeps(entry: Entry)
      reads this`objects
    {
      exists name :: name in objects && objects[name] == entry
    }

    /** Every entry restore ever took is still here, was put back, or was deleted by it. */
    ghost predicate Accounted()
      reads this
    {
      forall entry :: entry in taken ==> Keeps(entry) || entry in returned || entry in destroyed
    }

    /** Adds a staged file under a fresh name. */
    method Create(name: string, entry: Entry)
      requires name !in objects && Accounted()
      modifies this`objects
      ensures objects == old(objects)[name := entry] && Accounted()
    {
      objects := objects[name := entry];
      forall e | e in taken && old(Keeps(e)) ensures Keeps(e) {
        var n :| n in old(objects) && old(objects)[n] == e;
        assert n in objects && objects[n] == e;
      }
    }

    method Inspect(ns: Namespace, name: string, maximum: nat) returns (found: Inspection)
      modifies ns`failures
      ensures found.Unreadable? || ns.failures == old(ns.failures)
      ensures found == Inspected(At(objects, name), maximum) || (ns.faulty && found == Unreadable)
    {
      var failed := ns.Fails();
      found := if failed then Unreadable else Inspected(At(objects, name), maximum);
    }

    method Sync(ns: Namespace) returns (ok: bool)
      modifies this`unsynced, ns`failures
      ensures !ns.faulty ==> ok
      ensures ok ==> ns.failures == old(ns.failures)
      ensures unsynced == (!ok && old(unsynced))
    {
      var failed := ns.Fails();
      ok := !failed;
      if ok { unsynced := false; }
    }

    /** Swaps a private and a public name in one step; both must be there. */
    method Exchange(ns: Namespace, name: string, path: string) returns (ok: bool)
      requires name in objects && Accounted()
      modifies this`objects, this`taken, this`returned, this`displaced, this`unsynced
      modifies ns`entries, ns`seen, ns`vanished, ns`failures
      ensures ok ==> ns.failures == old(ns.failures)
      ensures Accounted()
      ensures !ns.contested && !ns.faulty && path in old(ns.entries) ==> ok
      ensures ok ==>
        && name in objects && objects == old(objects)[name := objects[name]]
        && path in ns.entries && ns.entries[path] == old(objects)[name]
        && (!ns.contested ==>
              old(At(ns.entries, path)) == Some(objects[name])
              && ns.entries == old(ns.entries)[path := old(objects)[name]])
        && taken == old(taken) + {objects[name]} && returned == old(returned) + {old(objects)[name]}
        && displaced == (if old(displaced).None? then Some(objects[name]) else old(displaced))
        && unsynced && ns.seen == Unreadable && ns.vanished == old(ns.vanished)
      ensures !ok ==>
        && objects == old(objects) && taken == old(taken) && returned == old(returned)
        && displaced == old(displaced) && unsynced == old(unsynced) && ns.seen == old(ns.seen)
        && (!ns.contested ==> ns.entries == old(ns.entries))
        && (ns.faulty || (ns.vanished && path !in ns.entries))
    {
      ns.Interfere();
      var failed := ns.Fails();
      if failed { return false; }
      if path !in ns.entries {
        ns.vanished := true;
        return false;
      }
      var entry, own := ns.entries[path], objects[name];
      ns.entries, objects := ns.entries[path := own], objects[name := entry];
      taken, returned, unsynced, ns.seen := taken + {entry}, returned + {own}, true, Unreadable;
      if displaced.None? { displaced := Some(entry); }
      forall e | e in taken ensures Keeps(e) || e in returned || e in destroyed {
        if e == entry {
          assert name in objects && objects[name] == e;
        } else if old(Keeps(e)) && e != own {
          var n :| n in old(objects) && old(objects)[n] == e;
          assert n in objects && objects[n] == e;
        }
      }
      return true;
    }

    /** Moves a private entry to a public name, unless something is there. */
    method Publish(ns: Namespace, name: string, path: string) returns (ok: bool)
      requires name in objects && Accounted()
      modifies this`objects, this`returned, this`unsynced, ns`entries, ns`seen, ns`failures
      ensures ok ==> ns.failures == old(ns.failures)
      ensures Accounted()
      ensures !ns.contested && !ns.faulty && path !in old(ns.entries) ==> ok
      ensures ok ==>
        && objects == old(objects) - {name} && returned == old(returned) + {old(objects)[name]}
        && path in ns.entries && ns.entries[path] == old(objects)[name]
        && (!ns.contested ==>
              path !in old(ns.entries)
              && ns.entries == old(ns.entries)[path := old(objects)[name]])
        && unsynced && ns.seen == Unreadable
      ensures !ok ==> ns.faulty || path in ns.entries
      ensures !ok ==>
        && objects == old(objects) && returned == old(returned) && unsynced == old(unsynced)
        && ns.seen == old(ns.seen) && (!ns.contested ==> ns.entries == old(ns.entries))
    {
      ns.Interfere();
      var failed := ns.Fails();
      if failed || path in ns.entries { return false; }
      var own := objects[name];
      ns.entries, objects := ns.entries[path := own], objects - {name};
      returned, unsynced, ns.seen := returned + {own}, true, Unreadable;
      forall e | e in taken ensures Keeps(e) || e in returned || e in destroyed {
        if old(Keeps(e)) && e != own {
          var n :| n in old(objects) && old(objects)[n] == e;
          assert n in objects && objects[n] == e;
        }
      }
      return true;
    }

    /** Moves what a public name refers to in here, under a fresh private name. */
    method Take(ns: Namespace, path: string, name: string) returns (ok: bool)
      requires name !in objects && Accounted()
      modifies this`objects, this`taken, this`displaced, this`unsynced, ns`entries, ns`seen, ns`failures
      ensures ok ==> ns.failures == old(ns.failures)
      ensures Accounted()
      ensures !ns.contested && !ns.faulty && path in old(ns.entries) ==> ok
      ensures ok ==>
        && name in objects && objects == old(objects)[name := objects[name]] && path !in ns.entries
        && (!ns.contested ==>
              old(At(ns.entries, path)) == Some(objects[name])
              && ns.entries == old(ns.entries) - {path})
        && taken == old(taken) + {objects[name]} && unsynced && ns.seen == Unreadable
        && displaced == (if old(displaced).None? then Some(objects[name]) else old(displaced))
      ensures !ok ==>
        && objects == old(objects) && taken == old(taken) && unsynced == old(unsynced)
        && displaced == old(displaced) && ns.seen == old(ns.seen)
        && (!ns.contested ==> ns.entries == old(ns.entries))
    {
      ns.Interfere();
      var failed := ns.Fails();
      if failed || path !in ns.entries { return false; }
      var entry := ns.entries[path];
      ns.entries, objects := ns.entries - {path}, objects[name := entry];
      taken, unsynced, ns.seen := taken + {entry}, true, Unreadable;
      if displaced.None? { displaced := Some(entry); }
      forall e | e in taken ensures Keeps(e) || e in returned || e in destroyed {
        if e == entry {
          assert name in objects && objects[name] == e;
        } else if old(Keeps(e)) {
          var n :| n in old(objects) && old(objects)[n] == e;
          assert n in objects && objects[n] == e;
        }
      }
      return true;
    }

    /** Deletes a private entry. */
    method Remove(ns: Namespace, name: string) returns (ok: bool)
      requires name in objects && Accounted()
      modifies this`objects, this`destroyed, this`unsynced, ns`failures
      ensures ok ==> ns.failures == old(ns.failures)
      ensures Accounted()
      ensures !ns.faulty ==> ok
      ensures ok ==> objects == old(objects) - {name} && destroyed == old(destroyed) + {old(objects)[name]} && unsynced
      ensures !ok ==> objects == old(objects) && destroyed == old(destroyed) && unsynced == old(unsynced)
    {
      var failed := ns.Fails();
      if failed { return false; }
      var entry := objects[name];
      objects, destroyed, unsynced := objects - {name}, destroyed + {entry}, true;
      forall e | e in taken ensures Keeps(e) || e in returned || e in destroyed {
        if old(Keeps(e)) && e != entry {
          var n :| n in old(objects) && old(objects)[n] == e;
          assert n in objects && objects[n] == e;
        }
      }
      return true;
    }

    method Retain()
      modifies this`retain
      ensures retain
    {
      retain := true;
    }

    ghost function LeftBehind(): Left
      reads this
    {
      Left(taken, returned, destroyed, if retain then objects.Values else {})
    }

    /** Deletes everything private unless the directory is retained; any deletion may fail. */
    method Close(ns: Namespace) returns (ok: bool)
      requires Accounted()
      modifies this`objects, this`destroyed, ns`ledger, ns`failures
      ensures ok ==> ns.failures == old(ns.failures)
      ensures Accounted() && ns.ledger == old(ns.ledger) + [LeftBehind()]
      ensures !ns.faulty ==> ok
      ensures retain ==> objects == old(objects) && destroyed == old(destroyed)
      ensures old(destroyed) <= destroyed
      ensures forall e :: e in destroyed ==> e in old(destroyed) || old(Keeps(e))
      ensures forall name :: name in objects ==> name in old(objects) && objects[name] == old(objects)[name]
      ensures ok && !retain ==> objects == map[]
    {
      var unlisted := ns.Fails();
      if retain || unlisted {
        ns.ledger := ns.ledger + [LeftBehind()];
        return retain && !unlisted;
      }
      var names := objects.Keys;
      ok := true;
      while names != {}
        invariant names <= objects.Keys && Accounted() && ns.ledger == old(ns.ledger)
        invariant forall name :: name in objects ==> name in old(objects) && objects[name] == old(objects)[name]
        invariant old(destroyed) <= destroyed
        invariant forall e :: e in destroyed ==> e in old(destroyed) || old(Keeps(e))
        invariant !ns.faulty ==> ok
        invariant ok ==> objects.Keys == names && ns.failures == old(ns.failures)
        decreases names
      {
        var name :| name in names;
        names := names - {name};
        var entry := objects[name];
        var failed := ns.Fails();
        if failed {
          ok := false;
        } else {
          label before:
          objects, destroyed := objects - {name}, destroyed + {entry};
          forall e | e in taken ensures Keeps(e) || e in returned || e in destroyed {
            if old@before(Keeps(e)) && e != entry {
              var n :| n in old@before(objects) && old@before(objects)[n] == e;
              assert n in objects && objects[n] == e;
            }
          }
        }
      }
      var failed := ns.Fails();
      ok := ok && !failed;
      ns.ledger := ns.ledger + [LeftBehind()];
    }
  }
}

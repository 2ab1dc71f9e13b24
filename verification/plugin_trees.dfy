/** Plugin directory trees and the moves restore makes with them. */
module PluginTrees {
  import opened Identities

  /** What fingerprinting a tree yields. */
  datatype Fingerprint = Fingerprint(digest: string, files: nat, bytes: nat)

  /** A directory restore can fingerprint, one it cannot, or something that is no directory. */
  datatype Tree = Tree(serial: nat, fingerprint: Fingerprint) | Unreadable(serial: nat) | NoDirectory(serial: nat)

  /** A move may fail, or happen and fail to be synced, which is reported as an error of its own. */
  datatype Move = Refused | Durable | Uncertain

  predicate Matches(tree: Option<Tree>, fingerprint: Fingerprint) {
    tree.Some? && tree.value.Tree? && tree.value.fingerprint == fingerprint
  }

  function FingerprintOf(tree: Option<Tree>): Option<Fingerprint> {
    match tree
    case Some(Tree(_, fingerprint)) => Some(fingerprint)
    case _ => None
  }

  /** A private directory that quarantines at most one tree. */
  class Quarantine {
    var held: Option<Tree>
    var retain: bool

    constructor ()
      ensures held == None && !retain
    {
      held, retain := None, false;
    }

    method Retain()
      modifies this`retain
      ensures retain
    {
      retain := true;
    }
  }

  /** The trees by path. When contested, other processes may change any path but restore's own;
      `deleted` are the trees restore deleted, `seen` what the target was found to be since the
      last move; `failures` counts the system calls that failed. */
  class PluginSpace {
    var trees: map<string, Tree>
    const contested: bool
    const faulty: bool
    const own: string
    ghost var deleted: set<Tree>
    ghost var seen: Option<Fingerprint>
    ghost var failures: nat

    constructor (trees: map<string, Tree>, own: string, contested: bool, faulty: bool)
      ensures this.trees == trees && this.own == own && this.contested == contested && this.faulty == faulty
      ensures deleted == {}
    {
      this.trees, this.own, this.contested, this.faulty := trees, own, contested, faulty;
      deleted, seen, failures := {}, None, 0;
    }

    method Interfere()
      modifies this`trees
      ensures !contested ==> trees == old(trees)
      ensures At(trees, own) == old(At(trees, own))
    {
      var others: map<string, Tree> := *;
      if contested {
        trees := Put(others, own, At(trees, own));
      }
    }

    method Fails() returns (fails: bool)
      modifies this`failures
      ensures fails ==> faulty
      ensures failures == old(failures) + if fails then 1 else 0
    {
      fails := *;
      fails := fails && faulty;
      if fails { failures := failures + 1; }
    }

    method Look(path: string) returns (found: Option<Tree>)
      modifies this`trees
      ensures !contested ==> trees == old(trees)
      ensures At(trees, own) == old(At(trees, own))
      ensures found == At(trees, path)
    {
      Interfere();
      found := At(trees, path);
    }

    /** None when the tree is absent, unsafe or cannot be read. */
    method Inspect(path: string) returns (fingerprint: Option<Fingerprint>)
      modifies this`trees, this`seen, this`failures
      ensures fingerprint.Some? ==> failures == old(failures)
      ensures !contested ==> trees == old(trees)
      ensures At(trees, own) == old(At(trees, own))
      ensures fingerprint == FingerprintOf(At(trees, path)) || (faulty && fingerprint == None)
      ensures seen == fingerprint
    {
      Interfere();
      var failed := Fails();
      fingerprint := if failed then None else FingerprintOf(At(trees, path));
      seen := fingerprint;
    }

    method InspectHeld(quarantine: Quarantine) returns (fingerprint: Option<Fingerprint>)
      modifies this`failures
      ensures fingerprint.Some? ==> failures == old(failures)
      ensures fingerprint == FingerprintOf(quarantine.held) || (faulty && fingerprint == None)
    {
      var failed := Fails();
      fingerprint := if failed then None else FingerprintOf(quarantine.held);
    }

    method Sync() returns (move: Move)
      modifies this`failures
      ensures move.Durable? ==> failures == old(failures)
      ensures move.Durable? || (faulty && move.Uncertain?)
    {
      var failed := Fails();
      move := if failed then Uncertain else Durable;
    }

    /** Moves a tree to a path where nothing is. */
    method MoveNoReplace(from: string, to: string) returns (move: Move)
      requires from != to
      modifies this`trees, this`seen, this`failures
      ensures move.Durable? ==> failures == old(failures)
      ensures !contested && !faulty && from in old(trees) && to !in old(trees) ==> move.Durable?
      ensures !faulty ==> !move.Uncertain?
      ensures !move.Refused? ==>
        to in trees && from !in trees && seen == None
        && (!contested ==>
              from in old(trees) && to !in old(trees)
              && trees == (old(trees) - {from})[to := old(trees)[from]])
        && (from == own ==> old(At(trees, own)) == Some(trees[to]))
      ensures from != own && to != own ==> At(trees, own) == old(At(trees, own))
      ensures move.Refused? ==>
        && (!contested ==> trees == old(trees)) && At(trees, own) == old(At(trees, own)) && seen == old(seen)
    {
      Interfere();
      var failed := Fails();
      if failed || from !in trees || to in trees { return Refused; }
      trees, seen := (trees - {from})[to := trees[from]], None;
      move := Sync();
    }

    /** Swaps the trees at two paths; both must be there. */
    method Exchange(first: string, second: string) returns (move: Move)
      requires first != second
      modifies this`trees, this`seen, this`failures
      ensures move.Durable? ==> failures == old(failures)
      ensures !contested && !faulty && first in old(trees) && second in old(trees) ==> move.Durable?
      ensures !faulty ==> !move.Uncertain?
      ensures !move.Refused? ==>
        first in trees && second in trees && seen == None
        && (!contested ==> first in old(trees) && second in old(trees)
                           && trees == old(trees)[first := old(trees)[second]][second := old(trees)[first]])
      ensures first != own && second != own ==> At(trees, own) == old(At(trees, own))
      ensures move.Refused? ==>
        && (!contested ==> trees == old(trees)) && At(trees, own) == old(At(trees, own)) && seen == old(seen)
    {
      Interfere();
      var failed := Fails();
      if failed || first !in trees || second !in trees { return Refused; }
      trees, seen := trees[first := trees[second]][second := trees[first]], None;
      move := Sync();
    }

    /** Moves a tree into an empty quarantine. */
    method Take(from: string, quarantine: Quarantine) returns (move: Move)
      requires quarantine.held == None
      modifies this`trees, this`seen, this`failures, quarantine`held
      ensures move.Durable? ==> failures == old(failures)
      ensures !contested && !faulty && from in old(trees) ==> move.Durable?
      ensures !faulty ==> !move.Uncertain?
      ensures !move.Refused? ==>
        quarantine.held.Some? && from !in trees && seen == None
        && (!contested ==> old(At(trees, from)) == quarantine.held && trees == old(trees) - {from})
      ensures from != own ==> At(trees, own) == old(At(trees, own))
      ensures move.Refused? ==>
        && quarantine.held == None && (!contested ==> trees == old(trees)) && seen == old(seen)
    {
      Interfere();
      var failed := Fails();
      if failed || from !in trees { return Refused; }
      quarantine.held := Some(trees[from]);
      trees, seen := trees - {from}, None;
      move := Sync();
    }

    /** Moves a quarantined tree back out to a path where nothing is. */
    method PutBack(quarantine: Quarantine, to: string) returns (move: Move)
      modifies this`trees, this`seen, this`failures, quarantine`held
      ensures move.Durable? ==> failures == old(failures)
      ensures !move.Refused? ==>
        quarantine.held == None && to in trees && old(quarantine.held) == Some(trees[to])
        && (!contested ==> to !in old(trees) && trees == old(trees)[to := trees[to]])
      ensures to != own ==> At(trees, own) == old(At(trees, own))
      ensures move.Refused? ==> quarantine.held == old(quarantine.held) && (!contested ==> trees == old(trees))
      ensures move.Refused? && old(quarantine.held).Some? ==> faulty || to in trees
    {
      Interfere();
      var failed := Fails();
      if failed || quarantine.held.None? || to in trees { return Refused; }
      trees, seen := trees[to := quarantine.held.value], None;
      quarantine.held := None;
      move := Sync();
    }

    /** Deletes what is quarantined unless it is retained; the deletion, or its sync, may fail. */
    method Close(quarantine: Quarantine) returns (ok: bool)
      modifies this`deleted, this`failures, quarantine`held
      ensures ok && !quarantine.retain ==> failures == old(failures)
      ensures !faulty ==> ok
      ensures quarantine.retain ==> quarantine.held == old(quarantine.held)
      ensures ok && !quarantine.retain ==> quarantine.held == None
      ensures quarantine.held == None || quarantine.held == old(quarantine.held)
      ensures deleted == old(deleted) + (if quarantine.held == old(quarantine.held) then {}
          else {old(quarantine.held).value})
    {
      var kept := Fails();
      if quarantine.retain { return true; }
      if kept { return false; }
      if quarantine.held.Some? {
        deleted := deleted + {quarantine.held.value};
        quarantine.held := None;
      }
      var failed := Fails();
      ok := !failed;
    }

    /** Leaves a quarantine behind for good, with whatever is in it. */
    method Abandon(quarantine: Quarantine)
      modifies this`deleted, this`failures, quarantine`held, quarantine`retain
      ensures deleted == old(deleted) && quarantine.held == old(quarantine.held)
    {
      quarantine.Retain();
      var _ := Close(quarantine);
    }
  }
}

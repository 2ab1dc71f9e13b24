/** What the hash of a plugin's tree tells. */
module PluginIdentity {
  import opened PluginFingerprints
  import opened ResourceLimits

  import Planning
  import Revalidation

  datatype Metadata = Metadata(name: string, author: string, version: string)

  /** Everything known of a plugin is read off the tree that is hashed. `digest` is the hash, `metadata`
      what plugin.json and package.json of a tree say: they are among the files that were walked, so
      the walk's entries, which hold their hashes, determine it. */
  datatype Reader = Reader(limits: Limits, accepts: string -> bool, digest: string -> string,
                           metadata: seq<Entry> -> Metadata)

  ghost predicate Sound(reader: Reader) {
    && Valid(reader.limits) && ReadablePaths(reader.accepts)
    && (forall text :: reader.digest(text) != "")
    && (forall one, other :: reader.digest(one) == reader.digest(other) ==> one == other)
  }

  predicate ReadFrom(reader: Reader, entries: seq<Entry>, plugin: Planning.Plugin)
    requires Valid(reader.limits)
  {
    && Fingerprintable(entries, reader.limits, reader.accepts) && Hashed(entries) && Writable(entries)
    && plugin.Plugin? && plugin.fingerprint == reader.digest(TreeText(entries, true))
    && plugin.files == |Sizes(entries)| && plugin.bytes == Sum(Sizes(entries))
    && Metadata(plugin.name, plugin.author, plugin.version) == reader.metadata(entries)
  }

  ghost predicate ReadWorld(reader: Reader, live: Planning.Live)
    requires Valid(reader.limits)
  {
    forall d :: d in live.plugins && live.plugins[d].Plugin? ==>
      exists entries :: ReadFrom(reader, entries, live.plugins[d])
  }

  lemma ReadTells(reader: Reader, first: seq<Entry>, plugin: Planning.Plugin, second: seq<Entry>,
                  other: Planning.Plugin)
    requires Sound(reader) && ReadFrom(reader, first, plugin) && ReadFrom(reader, second, other)
    ensures plugin.fingerprint == other.fingerprint <==> first == second
    ensures first == second ==> Revalidation.SameTree(plugin, other)
  {
    TreeTextInjective(first, second, reader.limits, reader.accepts, true);
    if plugin.fingerprint == other.fingerprint {
      assert forall i :: 0 <= i < |first| ==> Seen(first[i], true) == Seen(second[i], true);
    }
  }

  /** In worlds whose plugins are read so, the fingerprint of a tree tells the rest of what is known
      of it, its name, author and version among it, whatever characters they hold. */
  lemma ReadTreesTell(reader: Reader, first: Planning.Live, second: Planning.Live)
    requires Sound(reader) && ReadWorld(reader, first) && ReadWorld(reader, second)
    ensures Revalidation.TreesTell(first, second)
  {
    forall d, e | d in first.plugins && e in second.plugins
      ensures Revalidation.TreeTells(first.plugins[d], second.plugins[e])
    {
      var plugin, other := first.plugins[d], second.plugins[e];
      if plugin.Plugin? && other.Plugin? {
        var one :| ReadFrom(reader, one, plugin);
        var two :| ReadFrom(reader, two, other);
        ReadTells(reader, one, plugin, two, other);
      }
    }
  }
}

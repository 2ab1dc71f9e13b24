/** Snapshot archives: their manifest, their validation and their writing. An archive is its
    compressed size, its entries, and whether the stream ends cleanly after them. */
module Archives {
  import opened Identities
  import opened ResourceLimits
  import opened Sequences

  datatype File = File(logicalPath: string, size: int64, sha256: string, component: string, generated: bool)

  /** `collections` are the sizes of the manifest's other lists; `sound` sums up what validation
      asks of everything but the files. */
  datatype Manifest = Manifest(snapshotId: string, files: seq<File>, collections: seq<int64>, sound: bool)

  /** The bytes an entry really yields before the stream ends, and their hash. */
  datatype Content = Content(length: nat, sha256: string)

  datatype Entry = Entry(name: string, regular: bool, size: int64, content: Content)

  datatype Archive = Archive(size: int64, entries: seq<Entry>, intact: bool)

  /** Everything validation depends on besides the archive: the bounds, which logical paths are
      accepted, and how manifests are encoded. */
  datatype Rules = Rules(limits: Limits, accepts: string -> bool,
                         encode: Manifest -> Content, decode: Content -> Option<Manifest>)

  const MANIFEST_NAME := "manifest.json"

  // ---------------------------------------------------------------- manifests

  predicate IsHex(character: char) {
    '0' <= character <= '9' || 'a' <= character <= 'f' || 'A' <= character <= 'F'
  }

  predicate ValidSha256(value: string) { |value| == 64 && forall c :: c in value ==> IsHex(c) }

  predicate ValidFile(rules: Rules, file: File) {
    && rules.accepts(file.logicalPath)
    && file.size >= 0 && ValidSha256(file.sha256) && file.component != ""
  }

  function Path(file: File): string { file.logicalPath }

  function Size(file: File): int { file.size as int }

  function Names(files: seq<File>): seq<string> { Map(files, Path) }

  function Sizes(files: seq<File>): seq<int> { Map(files, Size) }

  predicate ValidFiles(rules: Rules, files: seq<File>) {
    Distinct(Names(files)) && forall i :: 0 <= i < |files| ==> ValidFile(rules, files[i])
  }

  predicate ValidManifest(rules: Rules, value: Manifest) { value.sound && ValidFiles(rules, value.files) }

  predicate WithinLimits(limits: Limits, value: Manifest) {
    && Fits(limits, Sizes(value.files))
    && forall i :: 0 <= i < |value.collections| ==> value.collections[i] <= limits.maxFiles
  }

  // ---------------------------------------------------------------- what an acceptable archive is

  /** What the inventory says of one file, and what an entry amounts to. */
  datatype Item = Item(path: string, size: int, sha256: string)

  function ItemOf(file: File): Item { Item(file.logicalPath, file.size as int, file.sha256) }

  function EntryItem(entry: Entry): Item { Item(entry.name, entry.size as int, entry.content.sha256) }

  function ItemSize(item: Item): int { item.size }

  function Items(files: seq<File>): seq<Item> { Map(files, ItemOf) }

  function EntryItems(entries: seq<Entry>): seq<Item> { Map(entries, EntryItem) }

  predicate Complete(entry: Entry) { entry.regular && entry.content.length == entry.size as int }

  /** The entries hold exactly the declared files, in some order. */
  predicate HoldsExactly(entries: seq<Entry>, files: seq<File>) {
    && multiset(EntryItems(entries)) == multiset(Items(files))
    && forall i :: 0 <= i < |entries| ==> Complete(entries[i])
  }

  function EntrySize(entry: Entry): int { entry.size as int }

  function Total(entries: seq<Entry>): int { Sum(Map(entries, EntrySize)) }

  predicate LeadsWith(rules: Rules, entries: seq<Entry>, value: Manifest) {
    && |entries| > 0 && Complete(entries[0]) && entries[0].name == MANIFEST_NAME
    && entries[0].size <= rules.limits.maxManifestSize && rules.decode(entries[0].content) == Some(value)
  }

  /** Independent of the order and manner of checking. */
  predicate Acceptable(rules: Rules, archive: Archive, value: Manifest) {
    && Valid(rules.limits)
    && 0 < archive.size as int <= rules.limits.maxTotalSize as int + rules.limits.maxManifestSize as int
    && LeadsWith(rules, archive.entries, value)
    && ValidManifest(rules, value) && WithinLimits(rules.limits, value)
    && HoldsExactly(archive.entries[1..], value.files)
    && archive.intact
    && Total(archive.entries) <= rules.limits.maxCompressionRatio as int * archive.size as int
  }
}

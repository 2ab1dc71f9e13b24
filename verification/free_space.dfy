/** How much free space a plan asks for, computed in 64-bit integers that wrap. */
module FreeSpace {
  import opened Identities
  import opened ResourceLimits

  const TWO_TO_64: int := 0x1_0000_0000_0000_0000
  const BASE_BYTES: int := 64 * 0x10_0000
  const PACKAGE_BYTES: int := (256 + 512) * 0x10_0000

  /** What an expression of 64-bit integers evaluates to when its true value is this. */
  function Wrap(value: int): (wrapped: int)
    ensures -MAX_INT64 - 1 <= wrapped <= MAX_INT64
  {
    (value + MAX_INT64 + 1) % TWO_TO_64 - MAX_INT64 - 1
  }

  /** The mutations of a plan that need space. */
  datatype Need =
    | GuardNeed(existing: int64)
    | FileNeed(size: int64, existing: int64)
    | SettingNeed(size: int64)
    | PluginNeed(throughDecky: bool, existing: int64)

  predicate NonNegative(need: Need) {
    match need
    case GuardNeed(existing) => existing >= 0
    case FileNeed(size, existing) => size >= 0 && existing >= 0
    case SettingNeed(size) => size >= 0
    case PluginNeed(_, existing) => existing >= 0
  }

  /** The bytes a mutation needs. */
  function TrueBytes(need: Need): int {
    match need
    case GuardNeed(existing) => 3 * existing as int
    case FileNeed(size, existing) => 2 * size as int + 2 * existing as int
    case SettingNeed(size) => 2 * size as int
    case PluginNeed(throughDecky, existing) => PACKAGE_BYTES + (if throughDecky then 3 else 1) * existing as int
  }

  /** The amount the program charges for it; None when it refuses to multiply. */
  function Charge(need: Need): Option<int> {
    match need
    case GuardNeed(existing) => if existing as int > MAX_INT64 / 3 then None else Some(TrueBytes(need))
    case FileNeed(_, _) => Some(Wrap(TrueBytes(need)))
    case SettingNeed(_) => Some(Wrap(TrueBytes(need)))
    case PluginNeed(throughDecky, existing) =>
      if throughDecky && existing as int > MAX_INT64 / 3 then None else Some(Wrap(TrueBytes(need)))
  }

  /** The running total after one more amount: refused when negative or too large. */
  function Added(total: Option<int>, amount: Option<int>): Option<int> {
    if total.None? || amount.None? || amount.value < 0 || total.value > MAX_INT64 - amount.value then None
    else Some(total.value + amount.value)
  }

  function Computed(needs: seq<Need>): Option<int> {
    if needs == [] then Some(BASE_BYTES)
    else Added(Computed(needs[..|needs| - 1]), Charge(needs[|needs| - 1]))
  }

  function Required(needs: seq<Need>): int {
    if needs == [] then BASE_BYTES else Required(needs[..|needs| - 1]) + TrueBytes(needs[|needs| - 1])
  }

  /** The total kept in a plan while its needs are added up. */
  class Budget {
    var required: int64

    constructor ()
      ensures required as int == BASE_BYTES
    {
      required := BASE_BYTES as int64;
    }

    method Add(amount: int64) returns (ok: bool)
      modifies this
      ensures Added(Some(old(required) as int), Some(amount as int))
              == if ok then Some(required as int) else None
      ensures !ok ==> required == old(required)
    {
      if amount < 0 || required > MAX_INT64 as int64 - amount { return false; }
      required := required + amount;
      return true;
    }
  }

  /** Adds up what a plan's mutations need, stopping at the first refusal. */
  method RequiredFreeBytes(needs: seq<Need>) returns (result: Option<int64>)
    requires forall i :: 0 <= i < |needs| ==> NonNegative(needs[i])
    ensures Computed(needs) == if result.Some? then Some(result.value as int) else None
  {
    var budget := new Budget();
    var i := 0;
    while i < |needs|
      invariant 0 <= i <= |needs| && fresh(budget) && Computed(needs[..i]) == Some(budget.required as int)
    {
      assert needs[..i + 1][..i] == needs[..i];
      var amount := Charge(needs[i]);
      if amount.None? {
        ComputedStops(needs, i + 1);
        return None;
      }
      var ok := budget.Add(amount.value as int64);
      if !ok {
        ComputedStops(needs, i + 1);
        return None;
      }
      i := i + 1;
    }
    assert needs[..i] == needs;
    return Some(budget.required);
  }

  lemma {:induction false} ComputedStops(needs: seq<Need>, n: nat)
    requires n <= |needs| && Computed(needs[..n]).None?
    ensures Computed(needs).None?
  {
    if n == |needs| {
      assert needs[..n] == needs;
    } else {
      assert needs[..|needs| - 1][..n] == needs[..n];
      ComputedStops(needs[..|needs| - 1], n);
    }
  }

  // ---------------------------------------------------------------- what the bytes are for

  /** The copies that exist at once while a mutation is carried out. */
  datatype Copy =
    | RecoveryArchive | RecoveryStaged | PayloadStaged | WriteTransaction
    | PackageDownload | PackageExtracted | ExistingPreserved

  const DOWNLOAD_BYTES: int := 256 * 0x10_0000
  const EXTRACTED_BYTES: int := 512 * 0x10_0000

  /** How large such a copy is; nothing when the mutation makes none. */
  function CopyBytes(need: Need, copy: Copy): int {
    match (need, copy)
    case (GuardNeed(existing), RecoveryArchive) => existing as int
    case (GuardNeed(existing), RecoveryStaged) => existing as int
    case (GuardNeed(existing), WriteTransaction) => existing as int
    case (FileNeed(_, existing), RecoveryArchive) => existing as int
    case (FileNeed(_, existing), RecoveryStaged) => existing as int
    case (FileNeed(size, _), PayloadStaged) => size as int
    case (FileNeed(size, _), WriteTransaction) => size as int
    case (SettingNeed(size), PayloadStaged) => size as int
    case (SettingNeed(size), WriteTransaction) => size as int
    case (PluginNeed(_, _), PackageDownload) => DOWNLOAD_BYTES
    case (PluginNeed(_, _), PackageExtracted) => EXTRACTED_BYTES
    case (PluginNeed(_, existing), ExistingPreserved) => existing as int
    case (PluginNeed(throughDecky, existing), RecoveryArchive) => if throughDecky then existing as int else 0
    case (PluginNeed(throughDecky, existing), RecoveryStaged) => if throughDecky then existing as int else 0
    case _ => 0
  }

  lemma NeedIsCopies(need: Need)
    ensures TrueBytes(need)
            == CopyBytes(need, RecoveryArchive) + CopyBytes(need, RecoveryStaged) + CopyBytes(need, PayloadStaged)
               + CopyBytes(need, WriteTransaction) + CopyBytes(need, PackageDownload)
               + CopyBytes(need, PackageExtracted) + CopyBytes(need, ExistingPreserved)
  {
  }

  /** All copies of a kind that a plan's mutations make. */
  function Copies(needs: seq<Need>, copy: Copy): int {
    if needs == [] then 0 else Copies(needs[..|needs| - 1], copy) + CopyBytes(needs[|needs| - 1], copy)
  }

  /** What is required is the reserve and every copy that can exist at once. */
  lemma {:induction false} RequiredIsCopies(needs: seq<Need>)
    ensures Required(needs)
            == BASE_BYTES + Copies(needs, RecoveryArchive) + Copies(needs, RecoveryStaged)
               + Copies(needs, PayloadStaged) + Copies(needs, WriteTransaction) + Copies(needs, PackageDownload)
               + Copies(needs, PackageExtracted) + Copies(needs, ExistingPreserved)
  {
    if needs != [] {
      RequiredIsCopies(needs[..|needs| - 1]);
      NeedIsCopies(needs[|needs| - 1]);
    }
  }

  // ---------------------------------------------------------------- exactly when wrapping is caught

  /** A charge is exact, or refused because the need cannot be held in 64 bits. */
  predicate Caught(need: Need) {
    Charge(need) == Some(TrueBytes(need))
    || (TrueBytes(need) > MAX_INT64 && (Charge(need).None? || Charge(need).value < 0))
  }

  /** The only charge that can be wrong and yet pass is a file's, when the wrapped sum comes out
      non-negative again. */
  lemma CaughtExactly(need: Need)
    requires NonNegative(need)
    ensures Caught(need) <==> !(need.FileNeed? && TWO_TO_64 <= TrueBytes(need) <= TWO_TO_64 + MAX_INT64)
  {
    var bytes := TrueBytes(need);
    if need.FileNeed? && bytes >= TWO_TO_64 {
      WrapTwice(bytes);
    } else if bytes <= MAX_INT64 {
      WrapSmall(bytes);
    } else if bytes < TWO_TO_64 {
      WrapOnce(bytes);
    }
  }

  lemma WrapSmall(value: int)
    requires 0 <= value <= MAX_INT64
    ensures Wrap(value) == value
  {
  }

  lemma WrapOnce(value: int)
    requires MAX_INT64 < value < TWO_TO_64
    ensures Wrap(value) == value - TWO_TO_64 < 0
  {
  }

  lemma WrapTwice(value: int)
    requires TWO_TO_64 <= value < 2 * TWO_TO_64
    ensures Wrap(value) == if value <= TWO_TO_64 + MAX_INT64 then value - TWO_TO_64 else value - 2 * TWO_TO_64
  {
  }

  /** When every charge is caught, the program computes the true total or refuses one too large. */
  lemma {:induction false} ComputedIsRequired(needs: seq<Need>)
    requires forall i :: 0 <= i < |needs| ==> NonNegative(needs[i]) && Caught(needs[i])
    ensures Computed(needs) == if Required(needs) <= MAX_INT64 then Some(Required(needs)) else None
    ensures Required(needs) >= BASE_BYTES
  {
    if needs != [] {
      ComputedIsRequired(needs[..|needs| - 1]);
    }
  }

  predicate NeedWithin(need: Need, limit: int) {
    NonNegative(need) && (need.FileNeed? ==> need.size as int <= limit && need.existing as int <= limit)
  }

  /** Every size a plan can hold is bounded by the file-size limit. */
  predicate SizesWithin(needs: seq<Need>, limit: int) {
    forall i :: 0 <= i < |needs| ==> NeedWithin(needs[i], limit)
  }

  predicate Trustworthy(needs: seq<Need>) {
    Computed(needs) == if Required(needs) <= MAX_INT64 then Some(Required(needs)) else None
  }

  /** Two files of this size wrap the sum around to nothing. */
  lemma WrapsToNothing()
    ensures var size: int64 := 0x4000_0000_0000_0000;
            Computed([FileNeed(size, size)]) == Some(BASE_BYTES) && Required([FileNeed(size, size)]) > MAX_INT64
  {
    var size: int64 := 0x4000_0000_0000_0000;
    var needs := [FileNeed(size, size)];
    assert needs[..0] == [] && TrueBytes(needs[0]) == TWO_TO_64;
    WrapTwice(TWO_TO_64);
  }

  /** The computation can be trusted for every plan exactly when the file-size limit is below 2^62. */
  lemma TrustworthyExactly(limit: int)
    requires 0 <= limit <= MAX_INT64
    ensures (forall needs :: SizesWithin(needs, limit) ==> Trustworthy(needs)) <==> limit < 0x4000_0000_0000_0000
  {
    if limit < 0x4000_0000_0000_0000 {
      forall needs | SizesWithin(needs, limit) ensures Trustworthy(needs) {
        forall i | 0 <= i < |needs| ensures Caught(needs[i]) {
          CaughtExactly(needs[i]);
        }
        ComputedIsRequired(needs);
      }
    } else {
      var size: int64 := 0x4000_0000_0000_0000;
      WrapsToNothing();
      assert SizesWithin([FileNeed(size, size)], limit) && !Trustworthy([FileNeed(size, size)]);
    }
  }
}

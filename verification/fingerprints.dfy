/** The texts whose hashes bind a plan to a state. */
module Fingerprints {
  import opened Identities
  import opened Delimited

  const NUL := '\0'
  const LF := '\n'

  // ---------------------------------------------------------------- numbers

  function Decimal(number: nat): (digits: string)
    ensures |digits| >= 1 && forall c :: c in digits ==> '0' <= c <= '9'
  {
    if number < 10 then [('0' as int + number) as char]
    else Decimal(number / 10) + [('0' as int + number % 10) as char]
  }

  function Value(digits: string): int {
    if digits == "" then 0
    else 10 * Value(digits[..|digits| - 1]) + (digits[|digits| - 1] as int - '0' as int)
  }

  lemma {:induction false} ValueDecimal(number: nat)
    ensures Value(Decimal(number)) == number
  {
    if number >= 10 {
      ValueDecimal(number / 10);
      assert Decimal(number)[..|Decimal(number)| - 1] == Decimal(number / 10);
    }
  }

  // ---------------------------------------------------------------- rows

  predicate Readable(field: string) { Free(field, NUL) && Free(field, LF) }

  predicate AllReadable(fields: seq<string>) { forall i :: 0 <= i < |fields| ==> Readable(fields[i]) }

  predicate Rows(rows: seq<seq<string>>) {
    forall i :: 0 <= i < |rows| ==> |rows[i]| >= 1
  }

  predicate ReadableRows(rows: seq<seq<string>>) {
    Rows(rows) && forall i :: 0 <= i < |rows| ==> AllReadable(rows[i])
  }

  function Text(rows: seq<seq<string>>): string
    requires Rows(rows)
  {
    if rows == [] then "" else Join(rows[0], NUL) + [LF] + Text(rows[1..])
  }

  lemma {:induction false} JoinStaysFree(fields: seq<string>, mark: char, other: char)
    requires |fields| >= 1 && AllFree(fields, other) && mark != other
    ensures Free(Join(fields, mark), other)
  {
    if |fields| > 1 { JoinStaysFree(fields[1..], mark, other); }
  }

  function Lines(rows: seq<seq<string>>): seq<string>
    requires Rows(rows)
  {
    if rows == [] then [""] else [Join(rows[0], NUL)] + Lines(rows[1..])
  }

  lemma {:induction false} TextLines(rows: seq<seq<string>>)
    requires ReadableRows(rows)
    ensures Split(Text(rows), LF) == Lines(rows)
  {
    if rows != [] {
      TextLines(rows[1..]);
      JoinStaysFree(rows[0], NUL, LF);
      SplitSegment(Join(rows[0], NUL), LF);
      SplitAt(Join(rows[0], NUL), Text(rows[1..]), LF);
    }
  }

  lemma {:induction false} LinesInjective(first: seq<seq<string>>, second: seq<seq<string>>)
    requires ReadableRows(first) && ReadableRows(second) && Lines(first) == Lines(second)
    ensures first == second
  {
    LinesLength(first);
    LinesLength(second);
    if first != [] {
      assert Lines(first)[0] == Join(first[0], NUL) && Lines(second)[0] == Join(second[0], NUL);
      assert Lines(first)[1..] == Lines(first[1..]) && Lines(second)[1..] == Lines(second[1..]);
      SplitJoin(first[0], NUL);
      SplitJoin(second[0], NUL);
      LinesInjective(first[1..], second[1..]);
      assert first == [first[0]] + first[1..] && second == [second[0]] + second[1..];
    }
  }

  lemma {:induction false} LinesLength(rows: seq<seq<string>>)
    requires Rows(rows)
    ensures |Lines(rows)| == |rows| + 1
  {
    if rows != [] { LinesLength(rows[1..]); }
  }

  /** Rows can be read back from their text when no field holds a separator. */
  lemma TextInjective(first: seq<seq<string>>, second: seq<seq<string>>)
    requires ReadableRows(first) && ReadableRows(second) && Text(first) == Text(second)
    ensures first == second
  {
    TextLines(first);
    TextLines(second);
    LinesInjective(first, second);
  }

  /** A row of a known number of fields can be read off the front of a text, when its fields hold no NUL
      and the last of them no line feed. */
  lemma {:induction false} RowIsPrefix(first: seq<string>, rest: string, second: seq<string>, more: string)
    requires |first| == |second| >= 1 && AllFree(first, NUL) && AllFree(second, NUL)
    requires Free(first[|first| - 1], LF) && Free(second[|second| - 1], LF)
    requires Join(first, NUL) + [LF] + rest == Join(second, NUL) + [LF] + more
    ensures first == second && rest == more
  {
    var text := Join(first, NUL) + [LF] + rest;
    if |first| == 1 {
      assert first[0] + [LF] <= text && second[0] + [LF] <= text;
      HeadsAgree(first[0], second[0], text, LF);
      assert rest == text[|first[0]| + 1..] && more == text[|first[0]| + 1..];
    } else {
      HeadOfRow(first, rest);
      HeadOfRow(second, more);
      HeadsAgree(first[0], second[0], text, NUL);
      RowIsPrefix(first[1..], rest, second[1..], more);
      assert first == [first[0]] + first[1..] && second == [second[0]] + second[1..];
    }
  }

  lemma HeadOfRow(fields: seq<string>, rest: string)
    requires |fields| >= 2
    ensures var text := Join(fields, NUL) + [LF] + rest;
            fields[0] + [NUL] <= text && text[|fields[0]| + 1..] == Join(fields[1..], NUL) + [LF] + rest
  {
    var text := Join(fields, NUL) + [LF] + rest;
    assert text == fields[0] + [NUL] + (Join(fields[1..], NUL) + [LF] + rest);
  }

  // ---------------------------------------------------------------- the target fingerprint

  datatype Record =
    | FileRecord(logicalPath: string, target: string, operation: string,
                 existingSize: nat, existingSha256: string, existingMode: nat)
    | PluginRecord(texts: seq<string>, existingFiles: nat, existingBytes: nat)
    | SettingRecord(logicalPath: string, plugin: string, preserve: string, operation: string,
                    size: nat, sha256: string)
    | GuardRecord(root: string, target: string, operation: string,
                  existingSize: nat, existingSha256: string, existingMode: nat)

  /** A plugin's text fields: directory, target, preserve path, operation, method, existing
      fingerprint, name, author and version. */
  const PLUGIN_TEXTS := 9

  predicate WellSized(record: Record) { record.PluginRecord? ==> |record.texts| == PLUGIN_TEXTS }

  function Fields(record: Record): seq<string> {
    match record
    case FileRecord(logicalPath, target, operation, existingSize, existingSha256, existingMode) =>
      [logicalPath, target, operation, Decimal(existingSize), existingSha256, Decimal(existingMode)]
    case PluginRecord(texts, existingFiles, existingBytes) =>
      ["plugin"] + texts + [Decimal(existingFiles), Decimal(existingBytes)]
    case SettingRecord(logicalPath, plugin, preserve, operation, size, sha256) =>
      ["preserve", logicalPath, plugin, preserve, operation, Decimal(size), sha256]
    case GuardRecord(root, target, operation, existingSize, existingSha256, existingMode) =>
      ["decky-loader-settings", root, target, operation, Decimal(existingSize), existingSha256, Decimal(existingMode)]
  }

  /** Field count and tag tell the four kinds apart, and the fields give back the record. */
  lemma FieldsInjective(first: Record, second: Record)
    requires WellSized(first) && WellSized(second) && Fields(first) == Fields(second)
    ensures first == second
  {
    match first
    case FileRecord(_, _, _, size, _, mode) =>
      assert |Fields(first)| == 6 && second.FileRecord?;
      ValueDecimal(size);
      ValueDecimal(mode);
      ValueDecimal(second.existingSize);
      ValueDecimal(second.existingMode);
      assert Fields(first)[3] == Fields(second)[3] && Fields(first)[5] == Fields(second)[5];
    case PluginRecord(texts, _, _) =>
      assert |Fields(first)| == 12 && second.PluginRecord?;
      PluginFields(first);
      PluginFields(second);
    case SettingRecord(_, _, _, _, size, _) =>
      assert |Fields(first)| == 7;
      assert Fields(first)[0][0] == 'p' && Fields(second)[0][0] == 'p';
      ValueDecimal(size);
      ValueDecimal(second.size);
      assert Fields(first)[5] == Fields(second)[5];
    case GuardRecord(_, _, _, size, _, mode) =>
      assert |Fields(first)| == 7;
      assert Fields(first)[0][0] == 'd' && Fields(second)[0][0] == 'd';
      ValueDecimal(size);
      ValueDecimal(mode);
      ValueDecimal(second.existingSize);
      ValueDecimal(second.existingMode);
      assert Fields(first)[4] == Fields(second)[4] && Fields(first)[6] == Fields(second)[6];
  }

  lemma PluginFields(record: Record)
    requires WellSized(record) && record.PluginRecord?
    ensures Fields(record)[1..10] == record.texts
    ensures Value(Fields(record)[10]) == record.existingFiles && Value(Fields(record)[11]) == record.existingBytes
  {
    ValueDecimal(record.existingFiles);
    ValueDecimal(record.existingBytes);
  }

  function RecordRows(records: seq<Record>): (rows: seq<seq<string>>)
    ensures |rows| == |records| && Rows(rows)
    ensures forall i :: 0 <= i < |records| ==> rows[i] == Fields(records[i])
  {
    seq(|records|, i requires 0 <= i < |records| => Fields(records[i]))
  }

  /** The tags that tell plugins, kept settings and the guard from files. */
  predicate IsTag(field: string) { field == "plugin" || field == "preserve" || field == "decky-loader-settings" }

  /** What the rule for paths and the mapping to targets leave: only a plugin's texts, some of which
      come from its own metadata, can hold a separator. */
  predicate Checked(record: Record) {
    && WellSized(record)
    && (!record.PluginRecord? ==> AllReadable(Fields(record)))
    && (record.FileRecord? ==> !IsTag(record.logicalPath))
  }

  /** Line feeds do no harm there. */
  predicate ReadableRecord(record: Record) { Checked(record) && AllFree(Fields(record), NUL) }

  predicate CheckedRecords(records: seq<Record>) { forall i :: 0 <= i < |records| ==> Checked(records[i]) }

  predicate ReadableRecords(records: seq<Record>) {
    forall i :: 0 <= i < |records| ==> ReadableRecord(records[i])
  }

  lemma {:induction false} DigitsAreFree(number: nat, mark: char)
    requires !('0' <= mark <= '9')
    ensures Free(Decimal(number), mark)
  {
  }

  lemma LastIsReadable(record: Record)
    requires Checked(record)
    ensures Free(Fields(record)[|Fields(record)| - 1], LF)
  {
    if record.PluginRecord? { DigitsAreFree(record.existingBytes, LF); }
  }

  /** The first field tells the kind, and so how many fields there are. */
  lemma KindIsSeen(first: Record, rest: string, second: Record, more: string)
    requires ReadableRecord(first) && ReadableRecord(second) && Line(first) + rest == Line(second) + more
    ensures |Fields(first)| == |Fields(second)|
  {
    var text := Line(first) + rest;
    HeadOfRow(Fields(first), rest);
    HeadOfRow(Fields(second), more);
    HeadsAgree(Fields(first)[0], Fields(second)[0], text, NUL);
  }

  lemma LineIsPrefix(first: Record, rest: string, second: Record, more: string)
    requires ReadableRecord(first) && ReadableRecord(second) && Line(first) + rest == Line(second) + more
    ensures first == second && rest == more
  {
    KindIsSeen(first, rest, second, more);
    LastIsReadable(first);
    LastIsReadable(second);
    RowIsPrefix(Fields(first), rest, Fields(second), more);
    FieldsInjective(first, second);
  }

  function Line(record: Record): string { Join(Fields(record), NUL) + [LF] }

  lemma TextOfHead(records: seq<Record>)
    requires records != []
    ensures RecordsText(records) == Line(records[0]) + RecordsText(records[1..])
  {
    assert RecordRows(records)[1..] == RecordRows(records[1..]);
  }

  lemma {:induction false} RecordsInjective(first: seq<Record>, second: seq<Record>)
    requires ReadableRecords(first) && ReadableRecords(second) && RecordsText(first) == RecordsText(second)
    ensures first == second
  {
    if first != [] { TextOfHead(first); }
    if second != [] { TextOfHead(second); }
    if first != [] && second != [] {
      LineIsPrefix(first[0], RecordsText(first[1..]), second[0], RecordsText(second[1..]));
      RecordsInjective(first[1..], second[1..]);
      assert first == [first[0]] + first[1..] && second == [second[0]] + second[1..];
    }
  }

  /** What a plan records about existing state, in the order it is hashed. */
  datatype Recorded = Recorded(files: seq<Record>, plugins: seq<Record>, settings: seq<Record>, guard: Option<Record>)

  predicate Sorted(recorded: Recorded) {
    && (forall i :: 0 <= i < |recorded.files| ==> recorded.files[i].FileRecord?)
    && (forall i :: 0 <= i < |recorded.plugins| ==> recorded.plugins[i].PluginRecord?)
    && (forall i :: 0 <= i < |recorded.settings| ==> recorded.settings[i].SettingRecord?)
    && (recorded.guard.Some? ==> recorded.guard.value.GuardRecord?)
  }

  function GuardList(guard: Option<Record>): seq<Record> { if guard.Some? then [guard.value] else [] }

  function Records(recorded: Recorded): seq<Record> {
    recorded.files + (recorded.plugins + (recorded.settings + GuardList(recorded.guard)))
  }

  function RecordsText(records: seq<Record>): string { Text(RecordRows(records)) }

  function TargetText(recorded: Recorded): string { RecordsText(Records(recorded)) }

  lemma {:induction false} TextConcat(some: seq<seq<string>>, others: seq<seq<string>>)
    requires Rows(some) && Rows(others)
    ensures Rows(some + others) && Text(some + others) == Text(some) + Text(others)
  {
    if some == [] {
      assert some + others == others;
    } else {
      TextConcat(some[1..], others);
      assert (some + others)[1..] == some[1..] + others;
    }
  }

  lemma RecordRowsConcat(some: seq<Record>, others: seq<Record>)
    ensures Text(RecordRows(some + others)) == Text(RecordRows(some)) + Text(RecordRows(others))
  {
    TextConcat(RecordRows(some), RecordRows(others));
    var all := some + others;
    forall i | 0 <= i < |all| ensures RecordRows(all)[i] == (RecordRows(some) + RecordRows(others))[i] {
      if i >= |some| { assert all[i] == others[i - |some|]; }
    }
    assert RecordRows(all) == RecordRows(some) + RecordRows(others);
  }

  lemma OneMoreRecord(records: seq<Record>, i: nat)
    requires i < |records|
    ensures RecordsText(records[..i + 1]) == RecordsText(records[..i]) + Line(records[i])
  {
    RecordRowsConcat(records[..i], [records[i]]);
    assert records[..i + 1] == records[..i] + [records[i]];
    assert RecordRows([records[i]]) == [Fields(records[i])];
    assert Text([Fields(records[i])]) == Line(records[i]) + Text([]);
  }

  /** Writes the rows of a list of records, one by one. */
  method WriteRecords(records: seq<Record>) returns (text: string)
    ensures text == RecordsText(records)
  {
    text := "";
    for i := 0 to |records|
      invariant text == RecordsText(records[..i])
    {
      OneMoreRecord(records, i);
      text := text + Line(records[i]);
    }
    assert records[..|records|] == records;
  }

  lemma RecordsTextConcat(some: seq<Record>, others: seq<Record>)
    ensures RecordsText(some + others) == RecordsText(some) + RecordsText(others)
  {
    RecordRowsConcat(some, others);
  }

  lemma Reassociate(first: string, second: string, third: string, fourth: string)
    ensures first + (second + (third + fourth)) == first + second + third + fourth
  {
  }

  lemma TargetTextParts(recorded: Recorded)
    ensures TargetText(recorded) == RecordsText(recorded.files) + RecordsText(recorded.plugins)
                                    + RecordsText(recorded.settings) + RecordsText(GuardList(recorded.guard))
  {
    var guards := GuardList(recorded.guard);
    RecordsTextConcat(recorded.settings, guards);
    RecordsTextConcat(recorded.plugins, recorded.settings + guards);
    RecordsTextConcat(recorded.files, recorded.plugins + (recorded.settings + guards));
    Reassociate(RecordsText(recorded.files), RecordsText(recorded.plugins), RecordsText(recorded.settings),
        RecordsText(guards));
  }

  /** What is hashed to bind a plan: its files, its plugins, its kept settings and the guard. */
  method FingerprintTargets(recorded: Recorded) returns (text: string)
    ensures text == TargetText(recorded)
  {
    TargetTextParts(recorded);
    var files := WriteRecords(recorded.files);
    var plugins := WriteRecords(recorded.plugins);
    var settings := WriteRecords(recorded.settings);
    var guards := WriteRecords(GuardList(recorded.guard));
    text := files + plugins + settings + guards;
  }

  /** Where one kind ends and others begin can be seen in a sequence. */
  lemma KindsSplit(some: seq<Record>, rest: seq<Record>, others: seq<Record>, more: seq<Record>, kind: Record -> bool)
    requires some + rest == others + more
    requires (forall i :: 0 <= i < |some| ==> kind(some[i])) && (forall i :: 0 <= i < |others| ==> kind(others[i]))
    requires (forall i :: 0 <= i < |rest| ==> !kind(rest[i])) && (forall i :: 0 <= i < |more| ==> !kind(more[i]))
    ensures some == others && rest == more
  {
    var all := some + rest;
    assert forall i :: 0 <= i < |all| ==> (kind(all[i]) <==> i < |some|);
    assert all == others + more && forall i :: 0 <= i < |all| ==> (kind(all[i]) <==> i < |others|);
    assert |others| < |all| ==> !kind(all[|others|]);
    assert |some| < |all| ==> !kind(all[|some|]);
    assert some == all[..|some|] && others == all[..|some|] && rest == all[|some|..] && more == all[|some|..];
  }

  /** The fingerprint text determines everything recorded: every file, plugin, preserved setting and
      the loader guard, of any records at all; those of worlds are told apart by TargetTextTold. */
  lemma TargetTextInjective(first: Recorded, second: Recorded)
    requires Sorted(first) && Sorted(second)
    requires ReadableRecords(Records(first)) && ReadableRecords(Records(second))
    requires TargetText(first) == TargetText(second)
    ensures first == second
  {
    RecordsInjective(Records(first), Records(second));
    SameRecorded(first, second);
  }

  /** Lists with equal records, each sorted by kind, are equal part by part. */
  lemma SameRecorded(first: Recorded, second: Recorded)
    requires Sorted(first) && Sorted(second) && Records(first) == Records(second)
    ensures first == second
  {
    var f, g := first.settings + GuardList(first.guard), second.settings + GuardList(second.guard);
    KindsSplit(first.files, first.plugins + f, second.files, second.plugins + g, (r: Record) => r.FileRecord?);
    KindsSplit(first.plugins, f, second.plugins, g, (r: Record) => r.PluginRecord?);
    KindsSplit(first.settings, GuardList(first.guard), second.settings, GuardList(second.guard),
               (r: Record) => r.SettingRecord?);
    assert first.guard == second.guard by {
      assert |GuardList(first.guard)| == |GuardList(second.guard)|;
      if first.guard.Some? { assert GuardList(first.guard)[0] == GuardList(second.guard)[0]; }
    }
  }

  // ---------------------------------------------------------------- records told by the front of their row

  /** A plugin's texts up to its tree's fingerprint, which precedes name, author and version. */
  const FRONT_TEXTS := 6

  /** Only what follows the fingerprint of a plugin's tree can hold a NUL. */
  predicate FrontFree(record: Record) {
    Checked(record) && (record.PluginRecord? ==> AllFree(record.texts[..FRONT_TEXTS], NUL))
  }

  predicate FrontsFree(records: seq<Record>) { forall i :: 0 <= i < |records| ==> FrontFree(records[i]) }

  /** The front of a plugin's row determines the rest of it. */
  predicate ToldByFront(first: Record, second: Record) {
    (&& first.PluginRecord? && second.PluginRecord? && WellSized(first) && WellSized(second)
     && first.texts[..FRONT_TEXTS] == second.texts[..FRONT_TEXTS])
    ==> first == second
  }

  predicate AllToldByFront(some: seq<Record>, others: seq<Record>) {
    forall i, j :: 0 <= i < |some| && 0 <= j < |others| ==> ToldByFront(some[i], others[j])
  }

  /** As many fields as hold no NUL can be read off the front of two rows, whatever follows. */
  lemma {:induction false} FrontIsSeen(first: seq<string>, rest: string, second: seq<string>, more: string, n: nat)
    requires n < |first| && n < |second| && AllFree(first[..n], NUL) && AllFree(second[..n], NUL)
    requires Join(first, NUL) + [LF] + rest == Join(second, NUL) + [LF] + more
    ensures first[..n] == second[..n]
  {
    if n > 0 {
      assert first[..n][0] == first[0] && second[..n][0] == second[0];
      HeadOfRow(first, rest);
      HeadOfRow(second, more);
      HeadsAgree(first[0], second[0], Join(first, NUL) + [LF] + rest, NUL);
      assert first[1..][..n - 1] == first[..n][1..] && second[1..][..n - 1] == second[..n][1..];
      FrontIsSeen(first[1..], rest, second[1..], more, n - 1);
      assert first[..n] == [first[0]] + first[1..][..n - 1] && second[..n] == [second[0]] + second[1..][..n - 1];
    }
  }

  /** The first field tells plugins from everything else. */
  lemma PluginIsSeen(first: Record, rest: string, second: Record, more: string)
    requires FrontFree(first) && FrontFree(second) && Line(first) + rest == Line(second) + more
    ensures first.PluginRecord? <==> second.PluginRecord?
  {
    FrontIsSeen(Fields(first), rest, Fields(second), more, 1);
    assert Fields(first)[0] == Fields(first)[..1][0] == Fields(second)[..1][0] == Fields(second)[0];
    assert "preserve"[1] == 'r' && "plugin"[1] == 'l' && "decky-loader-settings"[1] == 'e';
  }

  lemma FrontOfFields(record: Record)
    requires FrontFree(record) && record.PluginRecord?
    ensures AllFree(Fields(record)[..FRONT_TEXTS + 1], NUL)
    ensures Fields(record)[..FRONT_TEXTS + 1][1..] == record.texts[..FRONT_TEXTS]
  {
    var front := Fields(record)[..FRONT_TEXTS + 1];
    assert front == ["plugin"] + record.texts[..FRONT_TEXTS];
  }

  /** A row can be read off the front of a text when its front determines it. */
  lemma LineIsTold(first: Record, rest: string, second: Record, more: string)
    requires FrontFree(first) && FrontFree(second) && ToldByFront(first, second)
    requires Line(first) + rest == Line(second) + more
    ensures first == second && rest == more
  {
    PluginIsSeen(first, rest, second, more);
    if first.PluginRecord? {
      FrontOfFields(first);
      FrontOfFields(second);
      FrontIsSeen(Fields(first), rest, Fields(second), more, FRONT_TEXTS + 1);
      assert (Line(first) + rest)[|Line(first)|..] == rest && (Line(second) + more)[|Line(second)|..] == more;
    } else {
      LineIsPrefix(first, rest, second, more);
    }
  }

  lemma {:induction false} RecordsAreTold(first: seq<Record>, second: seq<Record>)
    requires FrontsFree(first) && FrontsFree(second) && AllToldByFront(first, second)
    requires RecordsText(first) == RecordsText(second)
    ensures first == second
  {
    if first != [] { TextOfHead(first); }
    if second != [] { TextOfHead(second); }
    if first != [] && second != [] {
      LineIsTold(first[0], RecordsText(first[1..]), second[0], RecordsText(second[1..]));
      RecordsAreTold(first[1..], second[1..]);
      assert first == [first[0]] + first[1..] && second == [second[0]] + second[1..];
    }
  }

  /** The text determines everything recorded, whatever the texts behind a tree's fingerprint hold, as
      long as the fingerprint determines them. */
  lemma TargetTextTold(first: Recorded, second: Recorded)
    requires Sorted(first) && Sorted(second) && FrontsFree(Records(first)) && FrontsFree(Records(second))
    requires AllToldByFront(first.plugins, second.plugins) && TargetText(first) == TargetText(second)
    ensures first == second
  {
    var some, others := Records(first), Records(second);
    forall i, j | 0 <= i < |some| && 0 <= j < |others| ensures ToldByFront(some[i], others[j]) {
      if some[i].PluginRecord? && others[j].PluginRecord? {
        assert some[i] == first.plugins[i - |first.files|] && others[j] == second.plugins[j - |second.files|];
      }
    }
    RecordsAreTold(some, others);
    SameRecorded(first, second);
  }

  // ---------------------------------------------------------------- exactly when a row is ambiguous

  lemma {:induction false} JoinConcat(some: seq<string>, others: seq<string>, mark: char)
    requires some != [] && others != []
    ensures Join(some + others, mark) == Join(some, mark) + [mark] + Join(others, mark)
  {
    if |some| == 1 {
      assert (some + others)[1..] == others;
    } else {
      assert (some + others)[1..] == some[1..] + others;
      JoinConcat(some[1..], others, mark);
    }
  }

  /** Joining puts one separator between fields; the others are inside them. */
  lemma {:induction false} JoinMarks(fields: seq<string>, mark: char)
    requires fields != []
    ensures multiset(Join(fields, mark))[mark] >= |fields| - 1
    ensures multiset(Join(fields, mark))[mark] == |fields| - 1 <==> AllFree(fields, mark)
  {
    if |fields| > 1 {
      JoinMarks(fields[1..], mark);
      assert fields == [fields[0]] + fields[1..];
    }
  }

  /** Two neighbouring fields, the first with a separator inside, and their other reading. */
  lemma ShiftSeparator(before: seq<string>, head: string, middle: string, last: string, after: seq<string>, mark: char)
    ensures Join(before + [head + [mark] + middle, last] + after, mark)
            == Join(before + [head, middle + [mark] + last] + after, mark)
  {
    var one, other := [head + [mark] + middle, last], [head, middle + [mark] + last];
    assert one[1..] == [last] && other[1..] == [middle + [mark] + last];
    assert Join(one, mark) == Join(other, mark) by {
      assert head + [mark] + middle + [mark] + last == head + [mark] + (middle + [mark] + last);
    }
    assert before + one + after == before + (one + after) && before + other + after == before + (other + after);
    if after != [] {
      JoinConcat(one, after, mark);
      JoinConcat(other, after, mark);
    } else {
      assert one + after == one && other + after == other;
    }
    if before != [] {
      JoinConcat(before, one + after, mark);
      JoinConcat(before, other + after, mark);
    } else {
      assert before + (one + after) == one + after && before + (other + after) == other + after;
    }
  }

  lemma Position(field: string, mark: char) returns (i: nat)
    requires !Free(field, mark)
    ensures i < |field| && field == field[..i] + [mark] + field[i + 1..]
  {
    i :| 0 <= i < |field| && field[i] == mark;
  }

  function PluginRow(record: Record): string
    requires record.PluginRecord?
  {
    Join(Fields(record), NUL)
  }

  /** Another plugin record with the same row. */
  predicate Ambiguous(record: Record, other: Record) {
    && record.PluginRecord? && other.PluginRecord? && WellSized(other)
    && other != record && PluginRow(other) == PluginRow(record)
  }

  lemma NulIsAmbiguous(record: Record, k: nat) returns (other: Record)
    requires record.PluginRecord? && WellSized(record) && k < PLUGIN_TEXTS && !Free(record.texts[k], NUL)
    ensures Ambiguous(record, other)
  {
    var texts, field := record.texts, record.texts[k];
    var i := Position(field, NUL);
    var head, tail := field[..i], field[i + 1..];
    var numbers := [Decimal(record.existingFiles), Decimal(record.existingBytes)];
    if k < PLUGIN_TEXTS - 1 {
      other := record.(texts := texts[k := head][k + 1 := tail + [NUL] + texts[k + 1]]);
      ShiftSeparator(["plugin"] + texts[..k], head, tail, texts[k + 1], texts[k + 2..] + numbers, NUL);
      assert Fields(record)
          == ["plugin"] + texts[..k] + [head + [NUL] + tail, texts[k + 1]] + (texts[k + 2..] + numbers);
      assert Fields(other)
          == ["plugin"] + texts[..k] + [head, tail + [NUL] + texts[k + 1]] + (texts[k + 2..] + numbers);
      assert other.texts[k] == head;
    } else {
      other := record.(texts := texts[k - 1 := texts[k - 1] + [NUL] + head][k := tail]);
      ShiftSeparator(["plugin"] + texts[..k - 1], texts[k - 1], head, tail, numbers, NUL);
      assert Fields(other) == ["plugin"] + texts[..k - 1] + [texts[k - 1] + [NUL] + head, tail] + numbers;
      assert Fields(record) == ["plugin"] + texts[..k - 1] + [texts[k - 1], head + [NUL] + tail] + numbers;
      assert other.texts[k] == tail;
    }
  }

  /** Taken by itself, a plugin's row belongs to no other plugin record exactly when none of its texts,
      among them the name, author and version its own metadata gives, holds a NUL. */
  lemma PluginRowUnique(record: Record)
    requires record.PluginRecord? && WellSized(record)
    ensures (forall other :: !Ambiguous(record, other)) <==> AllFree(record.texts, NUL)
  {
    if AllFree(record.texts, NUL) {
      forall other ensures !Ambiguous(record, other) {
        if other.PluginRecord? && WellSized(other) && PluginRow(other) == PluginRow(record) {
          FreeRowDetermines(record, other);
        }
      }
    } else {
      var k :| 0 <= k < |record.texts| && !Free(record.texts[k], NUL);
      var other := NulIsAmbiguous(record, k);
    }
  }

  lemma FreeRowDetermines(record: Record, other: Record)
    requires record.PluginRecord? && other.PluginRecord? && WellSized(record) && WellSized(other)
    requires AllFree(record.texts, NUL) && PluginRow(other) == PluginRow(record)
    ensures record == other
  {
    FreeFields(record);
    JoinMarks(Fields(record), NUL);
    JoinMarks(Fields(other), NUL);
    LastIsReadable(record);
    LastIsReadable(other);
    RowIsPrefix(Fields(record), "", Fields(other), "");
    FieldsInjective(record, other);
  }

  lemma FreeFields(record: Record)
    requires record.PluginRecord? && WellSized(record)
    ensures AllFree(Fields(record), NUL) <==> AllFree(record.texts, NUL)
  {
    DigitsAreFree(record.existingFiles, NUL);
    DigitsAreFree(record.existingBytes, NUL);
    var fields := Fields(record);
    forall i | 1 <= i < 10 ensures fields[i] == record.texts[i - 1] {}
    if AllFree(fields, NUL) {
      forall i | 0 <= i < |record.texts| ensures Free(record.texts[i], NUL) { assert Free(fields[i + 1], NUL); }
    }
  }

  // ---------------------------------------------------------------- exactly when a text is ambiguous

  /** The separators that the rows themselves call for. */
  function Separators(records: seq<Record>): nat {
    if records == [] then 0 else |Fields(records[0])| - 1 + Separators(records[1..])
  }

  predicate FreeRecords(records: seq<Record>) {
    forall i :: 0 <= i < |records| ==> AllFree(Fields(records[i]), NUL)
  }

  lemma FreeHeadAndTail(records: seq<Record>)
    requires records != []
    ensures FreeRecords(records) <==> AllFree(Fields(records[0]), NUL) && FreeRecords(records[1..])
  {
    if AllFree(Fields(records[0]), NUL) && FreeRecords(records[1..]) {
      forall i | 0 <= i < |records| ensures AllFree(Fields(records[i]), NUL) {
        if i > 0 { assert records[i] == records[1..][i - 1]; }
      }
    }
  }

  function Marks(text: string): nat { multiset(text)[NUL] }

  lemma LineMarks(record: Record, rest: string)
    ensures Marks(Line(record) + rest) == Marks(Line(record)) + Marks(rest)
    ensures Marks(Line(record)) >= |Fields(record)| - 1
    ensures Marks(Line(record)) == |Fields(record)| - 1 <==> AllFree(Fields(record), NUL)
  {
    JoinMarks(Fields(record), NUL);
  }

  lemma {:induction false} RecordsMarks(records: seq<Record>)
    ensures Marks(RecordsText(records)) >= Separators(records)
    ensures Marks(RecordsText(records)) == Separators(records) <==> FreeRecords(records)
  {
    if records != [] {
      TextOfHead(records);
      LineMarks(records[0], RecordsText(records[1..]));
      RecordsMarks(records[1..]);
      FreeHeadAndTail(records);
    }
  }

  predicate SameKinds(some: seq<Record>, others: seq<Record>) {
    |some| == |others| && forall i :: 0 <= i < |some| ==> |Fields(some[i])| == |Fields(others[i])|
  }

  lemma {:induction false} SameSeparators(some: seq<Record>, others: seq<Record>)
    requires SameKinds(some, others)
    ensures Separators(some) == Separators(others)
  {
    if some != [] { SameSeparators(some[1..], others[1..]); }
  }

  /** As many files, plugins and kept settings, and a guard or none. */
  predicate SameShape(first: Recorded, second: Recorded) {
    && |first.files| == |second.files| && |first.plugins| == |second.plugins|
    && |first.settings| == |second.settings| && (first.guard.Some? <==> second.guard.Some?)
  }

  /** Something else of the same shape has the same text, and so the same fingerprint. */
  predicate Confused(recorded: Recorded, other: Recorded) {
    && Sorted(other) && CheckedRecords(Records(other)) && SameShape(recorded, other)
    && other != recorded && TargetText(other) == TargetText(recorded)
  }

  lemma ShapeIsKinds(first: Recorded, second: Recorded)
    requires Sorted(first) && Sorted(second) && SameShape(first, second)
    requires CheckedRecords(Records(first)) && CheckedRecords(Records(second))
    ensures SameKinds(Records(first), Records(second))
  {
    var some, others := Records(first), Records(second);
    forall i | 0 <= i < |some| ensures |Fields(some[i])| == |Fields(others[i])| {
      assert Checked(some[i]) && Checked(others[i]);
    }
  }

  lemma FreeIsNotConfused(recorded: Recorded, other: Recorded)
    requires Sorted(recorded) && ReadableRecords(Records(recorded))
    ensures !Confused(recorded, other)
  {
    if Confused(recorded, other) {
      ShapeIsKinds(recorded, other);
      SameSeparators(Records(recorded), Records(other));
      RecordsMarks(Records(recorded));
      RecordsMarks(Records(other));
      TargetTextInjective(recorded, other);
    }
  }

  lemma TextWithOther(records: seq<Record>, k: nat, other: Record)
    requires k < |records| && Line(other) == Line(records[k])
    ensures RecordsText(records[k := other]) == RecordsText(records)
  {
    var changed := records[k := other];
    OneMoreRecord(records, k);
    OneMoreRecord(changed, k);
    assert changed[..k] == records[..k] && changed[k + 1..] == records[k + 1..];
    RecordsTextConcat(records[..k + 1], records[k + 1..]);
    RecordsTextConcat(changed[..k + 1], changed[k + 1..]);
    assert records == records[..k + 1] + records[k + 1..] && changed == changed[..k + 1] + changed[k + 1..];
  }

  function WithPlugin(recorded: Recorded, k: nat, twin: Record): Recorded
    requires k < |recorded.plugins|
  {
    recorded.(plugins := recorded.plugins[k := twin])
  }

  lemma WithPluginText(recorded: Recorded, k: nat, twin: Record)
    requires k < |recorded.plugins| && Line(twin) == Line(recorded.plugins[k])
    ensures TargetText(WithPlugin(recorded, k, twin)) == TargetText(recorded)
  {
    TextWithOther(recorded.plugins, k, twin);
    TargetTextParts(recorded);
    TargetTextParts(WithPlugin(recorded, k, twin));
  }

  lemma WithPluginChecked(recorded: Recorded, k: nat, twin: Record)
    requires k < |recorded.plugins| && CheckedRecords(Records(recorded)) && Checked(twin)
    ensures CheckedRecords(Records(WithPlugin(recorded, k, twin)))
  {
    assert Records(WithPlugin(recorded, k, twin)) == Records(recorded)[|recorded.files| + k := twin];
  }

  lemma NulConfuses(recorded: Recorded, k: nat) returns (other: Recorded)
    requires Sorted(recorded) && CheckedRecords(Records(recorded))
    requires k < |recorded.plugins| && !AllFree(recorded.plugins[k].texts, NUL)
    ensures Confused(recorded, other)
  {
    var record := recorded.plugins[k];
    assert Records(recorded)[|recorded.files| + k] == record && Checked(record);
    var t :| 0 <= t < |record.texts| && !Free(record.texts[t], NUL);
    var twin := NulIsAmbiguous(record, t);
    other := WithPlugin(recorded, k, twin);
    WithPluginText(recorded, k, twin);
    WithPluginChecked(recorded, k, twin);
    assert other.plugins[k] != recorded.plugins[k];
  }

  /** As bare records, what is recorded is told from everything else of its shape by its fingerprint if
      and only if no text of a plugin, among them the name, author and version of its own metadata,
      holds a NUL. What two worlds give is always told apart: see `TargetTextTold`. */
  lemma TargetTextUnique(recorded: Recorded)
    requires Sorted(recorded) && CheckedRecords(Records(recorded))
    ensures (forall other :: !Confused(recorded, other))
            <==> (forall k :: 0 <= k < |recorded.plugins| ==> AllFree(recorded.plugins[k].texts, NUL))
  {
    if forall k :: 0 <= k < |recorded.plugins| ==> AllFree(recorded.plugins[k].texts, NUL) {
      forall i | 0 <= i < |Records(recorded)| ensures ReadableRecord(Records(recorded)[i]) {
        var record := Records(recorded)[i];
        assert Checked(record);
        if record.PluginRecord? {
          assert record == recorded.plugins[i - |recorded.files|];
          FreeFields(record);
        }
      }
      forall other ensures !Confused(recorded, other) { FreeIsNotConfused(recorded, other); }
    } else {
      var k :| 0 <= k < |recorded.plugins| && !AllFree(recorded.plugins[k].texts, NUL);
      var other := NulConfuses(recorded, k);
    }
  }
}

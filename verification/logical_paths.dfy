/** The one rule every path in a manifest, archive or plan must pass. */
module LogicalPaths {
  import opened Delimited
  import opened SlashPaths

  datatype Verdict =
    | Accepted | Empty | NotNormalized | TooLong | Backslash | Absolute | ControlCharacter
    | Traversal | StreamSeparator | TrailingDotOrSpace | ReservedName

  function Utf8Length(path: string): nat {
    if path == "" then 0
    else
      (if path[0] < 0x80 as char then 1 else if path[0] < 0x800 as char then 2
       else if path[0] < 0x1_0000 as char then 3 else 4) + Utf8Length(path[1..])
  }

  predicate IsControl(character: char) {
    character < ' ' || 0x7f as char <= character <= 0x9f as char
  }

  predicate IsLetter(character: char) { 'a' <= character <= 'z' || 'A' <= character <= 'Z' }

  predicate HasDrive(path: string) { |path| >= 2 && IsLetter(path[0]) && path[1] == ':' }

  /** ASCII upper-casing; no other character upper-cases into a reserved device name. */
  function Upper(name: string): string {
    if name == "" then ""
    else [if 'a' <= name[0] <= 'z' then ((name[0] as int) - 32) as char else name[0]] + Upper(name[1..])
  }

  /** What precedes the first dot. */
  function Base(name: string): string {
    if name == "" || name[0] == '.' then "" else [name[0]] + Base(name[1..])
  }

  predicate IsDevice(base: string) {
    || base in {"CON", "PRN", "AUX", "NUL"}
    || (|base| == 4 && (base[..3] == "COM" || base[..3] == "LPT") && '1' <= base[3] <= '9')
  }

  predicate EndsBadly(segment: string) {
    segment != "" && (segment[|segment| - 1] == '.' || segment[|segment| - 1] == ' ')
  }

  function CheckSegment(segment: string): Verdict {
    if ':' in segment then StreamSeparator
    else if EndsBadly(segment) then TrailingDotOrSpace
    else if IsDevice(Base(Upper(segment))) then ReservedName
    else Accepted
  }

  function CheckSegments(segments: seq<string>): (verdict: Verdict)
    ensures verdict.Accepted? <==> forall i :: 0 <= i < |segments| ==> CheckSegment(segments[i]).Accepted?
  {
    if segments == [] then Accepted
    else if !CheckSegment(segments[0]).Accepted? then CheckSegment(segments[0])
    else CheckSegments(segments[1..])
  }

  /** The checks in the order they are made. `normal` is the Unicode NFC test. */
  function ValidateLogicalPath(path: string, maxLength: nat, normal: string -> bool): Verdict {
    if path == "" || path == "." then Empty
    else if !normal(path) then NotNormalized
    else if Utf8Length(path) > maxLength then TooLong
    else if '\\' in path then Backslash
    else if "/" <= path || "//" <= path || HasDrive(path) then Absolute
    else if exists c :: c in path && IsControl(c) then ControlCharacter
    else if Clean(path) != path || Clean(path) == ".." || "../" <= Clean(path) then Traversal
    else CheckSegments(Split(path, '/'))
  }

  /** What a path may consist of, segment by segment. */
  predicate Ordinary(segment: string) {
    && segment != "" && !EndsBadly(segment)
    && ':' !in segment && '\\' !in segment && (forall c :: c in segment ==> !IsControl(c))
    && !IsDevice(Base(Upper(segment)))
  }

  predicate AllOrdinary(segments: seq<string>) { forall i :: 0 <= i < |segments| ==> Ordinary(segments[i]) }

  predicate InSome(segments: seq<string>, character: char) {
    exists k :: 0 <= k < |segments| && character in segments[k]
  }

  lemma PrependContains(first: char, segments: seq<string>, character: char)
    requires |segments| >= 1 && AllFree(segments, '/')
    ensures InSome(Prepend(first, segments, '/'), character)
            <==> InSome(segments, character) || (character == first && first != '/')
  {
    var longer := Prepend(first, segments, '/');
    if first == '/' {
      assert forall k :: 0 <= k < |segments| ==> longer[k + 1] == segments[k];
      assert longer[0] == "";
    } else {
      assert longer[0] == [first] + segments[0];
      assert forall k :: 1 <= k < |segments| ==> longer[k] == segments[k];
      assert character in longer[0] <==> character == first || character in segments[0];
    }
  }

  /** A path contains a character other than the slash exactly when one of its segments does. */
  lemma {:induction false} CharacterOf(path: string, character: char)
    requires character != '/'
    ensures character in path <==> InSome(Split(path, '/'), character)
  {
    if path != "" {
      CharacterOf(path[1..], character);
      PrependContains(path[0], Split(path[1..], '/'), character);
      assert path == [path[0]] + path[1..];
    }
  }

  lemma ControlOf(path: string)
    ensures (exists c :: c in path && IsControl(c)) <==> exists c :: InSome(Split(path, '/'), c) && IsControl(c)
  {
    forall c | IsControl(c) ensures c in path <==> InSome(Split(path, '/'), c) {
      CharacterOf(path, c);
    }
  }

  lemma OrdinaryIsPlain(segments: seq<string>)
    requires AllOrdinary(segments)
    ensures AllPlain(segments)
  {
  }

  /** Accepted paths are exactly those whose every segment is ordinary: the checks on the whole
      string (empty, absolute, drive, cleaning, traversal) add nothing to that. */
  lemma AcceptedExactlyWhenOrdinary(path: string, maxLength: nat, normal: string -> bool)
    ensures ValidateLogicalPath(path, maxLength, normal).Accepted?
            <==> normal(path) && Utf8Length(path) <= maxLength && AllOrdinary(Split(path, '/'))
  {
    if normal(path) && Utf8Length(path) <= maxLength {
      if AllOrdinary(Split(path, '/')) {
        OrdinaryIsAccepted(path, maxLength, normal);
      }
      if ValidateLogicalPath(path, maxLength, normal).Accepted? {
        AcceptedIsOrdinary(path, maxLength, normal);
      }
    }
  }

  lemma OrdinaryIsAccepted(path: string, maxLength: nat, normal: string -> bool)
    requires normal(path) && Utf8Length(path) <= maxLength && AllOrdinary(Split(path, '/'))
    ensures ValidateLogicalPath(path, maxLength, normal).Accepted?
  {
    var segments := Split(path, '/');
    OrdinaryIsPlain(segments);
    assert Ordinary(segments[0]);
    assert path != "" && path[0] != '/';
    PlainIsClean(path);
    CharacterOf(path, '\\');
    CharacterOf(path, ':');
    ControlOf(path);
  }

  lemma AcceptedIsOrdinary(path: string, maxLength: nat, normal: string -> bool)
    requires ValidateLogicalPath(path, maxLength, normal).Accepted?
    ensures AllOrdinary(Split(path, '/'))
  {
    var segments := Split(path, '/');
    CleanIsPlain(path);
    CharacterOf(path, '\\');
    ControlOf(path);
    forall i | 0 <= i < |segments| ensures Ordinary(segments[i]) {
      assert Plain(segments[i]) && CheckSegment(segments[i]).Accepted?;
    }
  }

  /** Whatever is accepted stays below the directory it is resolved in. */
  lemma AcceptedIsPlain(path: string, maxLength: nat, normal: string -> bool)
    requires ValidateLogicalPath(path, maxLength, normal).Accepted?
    ensures AllPlain(Split(path, '/')) && AllFree(Split(path, '/'), '/')
  {
    AcceptedIsOrdinary(path, maxLength, normal);
    OrdinaryIsPlain(Split(path, '/'));
  }
}

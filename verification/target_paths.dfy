/** Where the files of a snapshot go: the mapping from logical paths to targets. */
module TargetPaths {
  import opened Delimited
  import opened SlashPaths

  /** A cleaned absolute path, as its segments. */
  type Place = seq<string>

  datatype Roots = Roots(decky: Place, steam: Place, state: Place)

  predicate IsPlace(place: Place) { AllPlain(place) && AllFree(place, '/') }

  /** One directory is the other or lies beneath it. */
  predicate Overlap(first: Place, second: Place) { first <= second || second <= first }

  predicate ValidRoots(roots: Roots) {
    && IsPlace(roots.decky) && IsPlace(roots.steam) && IsPlace(roots.state)
    && !Overlap(roots.decky, roots.steam) && !Overlap(roots.decky, roots.state) && !Overlap(roots.steam, roots.state)
  }

  predicate StrictlyBeneath(root: Place, target: Place) { root < target }

  /** Joins segments to a directory and cleans the result. */
  function Resolve(root: Place, relative: seq<string>): Place { Collapse(root + relative, true, []) }

  datatype Mapping = Mapped(root: Place, target: Place) | NotRestored | Unsupported

  predicate Numeric(value: string) {
    value != "" && forall i :: 0 <= i < |value| ==> '0' <= value[i] <= '9'
  }

  const SETTINGS := "decky/settings"
  const DATA := "decky/data"
  const THEMES := "css-loader/themes"
  const LIBRARY := "steam/artwork/librarycache"
  const USERDATA := "steam/artwork/userdata"

  /** Whether a logical path lies in a directory of the snapshot. */
  predicate Below(directory: string, logical: string) { directory + "/" <= logical }

  function Remainder(directory: string, logical: string): string
    requires Below(directory, logical)
  {
    logical[|directory| + 1..]
  }

  function MapInto(root: Place, directory: string, logical: string): Mapping
    requires Below(directory, logical)
  {
    Mapped(root, Resolve(root, Split(Remainder(directory, logical), '/')))
  }

  function MapUserdata(steam: Place, parts: seq<string>): Mapping {
    if |parts| < 3 || parts[1] != "grid" || !Numeric(parts[0]) then Unsupported
    else
      var root := Resolve(steam, ["userdata", parts[0], "config", "grid"]);
      Mapped(root, Resolve(root, parts[2..]))
  }

  function MapTarget(roots: Roots, logical: string): Mapping {
    if Below(SETTINGS, logical) then MapInto(Resolve(roots.decky, ["settings"]), SETTINGS, logical)
    else if Below(DATA, logical) then MapInto(Resolve(roots.decky, ["data"]), DATA, logical)
    else if Below(THEMES, logical) then MapInto(Resolve(roots.decky, ["themes"]), THEMES, logical)
    else if Below(LIBRARY, logical) then MapInto(Resolve(roots.steam, ["appcache", "librarycache"]), LIBRARY, logical)
    else if Below(USERDATA, logical) then MapUserdata(roots.steam, Split(Remainder(USERDATA, logical), '/'))
    else if Below("reports", logical) then NotRestored
    else Unsupported
  }

  /** The logical path a target was mapped from. */
  function Unmap(roots: Roots, target: Place): string {
    if roots.decky < target then UnmapDecky(target[|roots.decky|..])
    else if roots.steam < target then UnmapSteam(target[|roots.steam|..])
    else ""
  }

  function UnmapDecky(rest: seq<string>): string {
    if |rest| < 2 then ""
    else if rest[0] == "settings" then SETTINGS + "/" + Join(rest[1..], '/')
    else if rest[0] == "data" then DATA + "/" + Join(rest[1..], '/')
    else THEMES + "/" + Join(rest[1..], '/')
  }

  function UnmapSteam(rest: seq<string>): string {
    if |rest| < 3 then ""
    else if rest[0] == "appcache" then LIBRARY + "/" + Join(rest[2..], '/')
    else if |rest| < 5 then ""
    else USERDATA + "/" + (rest[1] + "/" + ("grid" + "/" + Join(rest[4..], '/')))
  }

  lemma ResolvePlain(root: Place, relative: seq<string>)
    requires IsPlace(root) && AllPlain(relative)
    ensures Resolve(root, relative) == root + relative
  {
    PlainCollapse(root + relative, true, []);
    assert [] + (root + relative) == root + relative;
  }

  lemma SplitBelow(directory: string, logical: string)
    requires Below(directory, logical)
    ensures logical == directory + "/" + Remainder(directory, logical)
    ensures Split(logical, '/') == Split(directory, '/') + Split(Remainder(directory, logical), '/')
  {
    SplitAt(directory, Remainder(directory, logical), '/');
  }

  lemma RemainderPlain(directory: string, logical: string)
    requires Below(directory, logical) && AllPlain(Split(logical, '/'))
    ensures AllPlain(Split(Remainder(directory, logical), '/'))
        && AllFree(Split(Remainder(directory, logical), '/'), '/')
  {
    SplitBelow(directory, logical);
    var head, rest := Split(directory, '/'), Split(Remainder(directory, logical), '/');
    forall i | 0 <= i < |rest| ensures Plain(rest[i]) {
      assert Split(logical, '/')[|head| + i] == rest[i];
    }
  }

  lemma MapIntoBeneath(base: Place, under: seq<string>, directory: string, logical: string)
    requires IsPlace(base) && IsPlace(under) && Below(directory, logical) && AllPlain(Split(logical, '/'))
    ensures MapInto(Resolve(base, under), directory, logical)
            == Mapped(base + under, base + under + Split(Remainder(directory, logical), '/'))
  {
    RemainderPlain(directory, logical);
    ResolvePlain(base, under);
    ResolvePlain(base + under, Split(Remainder(directory, logical), '/'));
  }

  lemma MapUserdataBeneath(steam: Place, parts: seq<string>)
    requires IsPlace(steam) && IsPlace(parts) && MapUserdata(steam, parts).Mapped?
    ensures MapUserdata(steam, parts).root == steam + ["userdata", parts[0], "config", "grid"]
    ensures MapUserdata(steam, parts).target == steam + ["userdata", parts[0], "config", "grid"] + parts[2..]
  {
    var under := ["userdata", parts[0], "config", "grid"];
    ResolvePlain(steam, under);
    ResolvePlain(steam + under, parts[2..]);
  }

  lemma NamesArePlain()
    ensures IsPlace(["settings"]) && IsPlace(["data"]) && IsPlace(["themes"])
    ensures IsPlace(["appcache", "librarycache"])
  {
  }

  lemma Deeper(base: Place, under: seq<string>, parts: seq<string>)
    requires IsPlace(base) && IsPlace(under) && IsPlace(parts) && under != [] && parts != []
    ensures StrictlyBeneath(base, base + under) && StrictlyBeneath(base + under, base + under + parts)
    ensures IsPlace(base + under + parts)
  {
  }

  /** A mapped target lies strictly beneath its root, and that beneath one of the roots. */
  predicate WellPlaced(roots: Roots, mapping: Mapping)
    requires mapping.Mapped?
  {
    && StrictlyBeneath(mapping.root, mapping.target) && IsPlace(mapping.target)
    && (StrictlyBeneath(roots.decky, mapping.root) || StrictlyBeneath(roots.steam, mapping.root))
  }

  lemma MapIntoWellPlaced(roots: Roots, base: Place, under: seq<string>, directory: string, logical: string)
    requires ValidRoots(roots) && AllPlain(Split(logical, '/')) && Below(directory, logical)
    requires base in {roots.decky, roots.steam} && IsPlace(under) && under != []
    ensures WellPlaced(roots, MapInto(Resolve(base, under), directory, logical))
  {
    MapIntoBeneath(base, under, directory, logical);
    RemainderPlain(directory, logical);
    Deeper(base, under, Split(Remainder(directory, logical), '/'));
  }

  lemma TargetBeneathRoot(roots: Roots, logical: string)
    requires ValidRoots(roots) && AllPlain(Split(logical, '/')) && MapTarget(roots, logical).Mapped?
    ensures WellPlaced(roots, MapTarget(roots, logical))
  {
    NamesArePlain();
    if Below(SETTINGS, logical) {
      MapIntoWellPlaced(roots, roots.decky, ["settings"], SETTINGS, logical);
    } else if Below(DATA, logical) {
      MapIntoWellPlaced(roots, roots.decky, ["data"], DATA, logical);
    } else if Below(THEMES, logical) {
      MapIntoWellPlaced(roots, roots.decky, ["themes"], THEMES, logical);
    } else if Below(LIBRARY, logical) {
      MapIntoWellPlaced(roots, roots.steam, ["appcache", "librarycache"], LIBRARY, logical);
    } else {
      UserdataWellPlaced(roots, logical);
    }
  }

  lemma UserdataWellPlaced(roots: Roots, logical: string)
    requires ValidRoots(roots) && AllPlain(Split(logical, '/')) && Below(USERDATA, logical)
    requires MapUserdata(roots.steam, Split(Remainder(USERDATA, logical), '/')).Mapped?
    ensures WellPlaced(roots, MapUserdata(roots.steam, Split(Remainder(USERDATA, logical), '/')))
  {
    var parts := Split(Remainder(USERDATA, logical), '/');
    RemainderPlain(USERDATA, logical);
    MapUserdataBeneath(roots.steam, parts);
    Deeper(roots.steam, ["userdata", parts[0], "config", "grid"], parts[2..]);
  }

  // ---------------------------------------------------------------- what is restored, and where

  /** The directories of a snapshot keep apart by a character of their names. */
  lemma InOneDirectory(logical: string)
    ensures Below(SETTINGS, logical) ==> |logical| > 6 && logical[0] == 'd' && logical[6] == 's'
    ensures Below(DATA, logical) ==> |logical| > 6 && logical[0] == 'd' && logical[6] == 'd'
    ensures Below(THEMES, logical) ==> |logical| > 6 && logical[0] == 'c'
    ensures Below(LIBRARY, logical) ==> |logical| > 14 && logical[0] == 's' && logical[14] == 'l'
    ensures Below(USERDATA, logical) ==> |logical| > 14 && logical[0] == 's' && logical[14] == 'u'
    ensures Below("reports", logical) ==> |logical| > 6 && logical[0] == 'r'
  {
    assert Below(SETTINGS, logical) ==> (SETTINGS + "/")[0] == logical[0] && (SETTINGS + "/")[6] == logical[6];
    assert Below(DATA, logical) ==> (DATA + "/")[0] == logical[0] && (DATA + "/")[6] == logical[6];
    assert Below(THEMES, logical) ==> (THEMES + "/")[0] == logical[0];
    assert Below(LIBRARY, logical) ==> (LIBRARY + "/")[0] == logical[0] && (LIBRARY + "/")[14] == logical[14];
    assert Below(USERDATA, logical) ==> (USERDATA + "/")[0] == logical[0] && (USERDATA + "/")[14] == logical[14];
    assert Below("reports", logical) ==> ("reports" + "/")[0] == logical[0];
  }

  /** Settings, data and themes go below Decky's home, each under a name of its own. */
  lemma DeckyTargets(roots: Roots, logical: string, under: string, directory: string)
    requires ValidRoots(roots) && AllPlain(Split(logical, '/')) && Below(directory, logical)
    requires (under, directory) in {("settings", SETTINGS), ("data", DATA), ("themes", THEMES)}
    ensures MapTarget(roots, logical) == Mapped(roots.decky + [under],
        roots.decky + [under] + Split(Remainder(directory, logical), '/'))
  {
    InOneDirectory(logical);
    NamesArePlain();
    MapIntoBeneath(roots.decky, [under], directory, logical);
  }

  lemma LibraryTargets(roots: Roots, logical: string)
    requires ValidRoots(roots) && AllPlain(Split(logical, '/')) && Below(LIBRARY, logical)
    ensures MapTarget(roots, logical) == Mapped(roots.steam + ["appcache", "librarycache"],
        roots.steam + ["appcache", "librarycache"] + Split(Remainder(LIBRARY, logical), '/'))
  {
    InOneDirectory(logical);
    NamesArePlain();
    MapIntoBeneath(roots.steam, ["appcache", "librarycache"], LIBRARY, logical);
  }

  lemma DigitExactly(character: char)
    ensures '0' <= character <= '9' <==> character in "0123456789"
  {
    var digits := "0123456789";
    assert digits[0] == '0' && digits[1] == '1' && digits[2] == '2' && digits[3] == '3' && digits[4] == '4'
           && digits[5] == '5' && digits[6] == '6' && digits[7] == '7' && digits[8] == '8' && digits[9] == '9';
  }

  lemma NumericExactly(value: string)
    ensures Numeric(value) <==> value != "" && forall c :: c in value ==> c in "0123456789"
  {
    forall i | 0 <= i < |value| ensures '0' <= value[i] <= '9' <==> value[i] in "0123456789" {
      DigitExactly(value[i]);
    }
    if Numeric(value) {
      forall c | c in value ensures c in "0123456789" {
        var i :| 0 <= i < |value| && value[i] == c;
      }
    } else if value != "" {
      var i :| 0 <= i < |value| && !('0' <= value[i] <= '9');
      assert value[i] in value;
    }
  }

  /** A user's artwork goes to that user's grid; what is not below one is not supported. */
  lemma UserdataTargets(roots: Roots, logical: string)
    requires ValidRoots(roots) && AllPlain(Split(logical, '/')) && Below(USERDATA, logical)
    ensures var parts := Split(Remainder(USERDATA, logical), '/');
            MapTarget(roots, logical) ==
            if |parts| >= 3 && parts[0] != "" && (forall c :: c in parts[0] ==> c in "0123456789") && parts[1] == "grid"
            then Mapped(roots.steam + ["userdata", parts[0], "config", "grid"],
                        roots.steam + ["userdata", parts[0], "config", "grid"] + parts[2..])
            else Unsupported
  {
    InOneDirectory(logical);
    RemainderPlain(USERDATA, logical);
    var parts := Split(Remainder(USERDATA, logical), '/');
    NumericExactly(parts[0]);
    if MapUserdata(roots.steam, parts).Mapped? { MapUserdataBeneath(roots.steam, parts); }
  }

  /** Reports are left out, and nothing else has a target. */
  lemma OtherTargets(roots: Roots, logical: string)
    requires !Below(SETTINGS, logical) && !Below(DATA, logical) && !Below(THEMES, logical)
    requires !Below(LIBRARY, logical) && !Below(USERDATA, logical)
    ensures MapTarget(roots, logical) == if "reports/" <= logical then NotRestored else Unsupported
  {
    assert "reports" + "/" == "reports/";
  }

  // ---------------------------------------------------------------- reading a target back

  lemma UnmapAt(roots: Roots, base: Place, rest: seq<string>)
    requires ValidRoots(roots) && base in {roots.decky, roots.steam} && rest != []
    ensures Unmap(roots, base + rest) == if base == roots.decky then UnmapDecky(rest) else UnmapSteam(rest)
  {
  }

  /** What a target is in terms of its root, and its logical path in terms of its directory. */
  lemma MapIntoParts(base: Place, under: seq<string>, directory: string, logical: string, parts: seq<string>)
    requires IsPlace(base) && IsPlace(under) && Below(directory, logical) && AllPlain(Split(logical, '/'))
    requires parts == Split(Remainder(directory, logical), '/')
    ensures MapInto(Resolve(base, under), directory, logical).target == base + (under + parts)
    ensures logical == directory + "/" + Join(parts, '/')
  {
    MapIntoBeneath(base, under, directory, logical);
    assert base + under + parts == base + (under + parts);
    JoinSplit(Remainder(directory, logical), '/');
    SplitBelow(directory, logical);
  }

  lemma DeckyParts(under: string, directory: string, parts: seq<string>)
    requires (under, directory) in {("settings", SETTINGS), ("data", DATA), ("themes", THEMES)} && parts != []
    ensures UnmapDecky([under] + parts) == directory + "/" + Join(parts, '/')
  {
  }

  lemma LibraryParts(parts: seq<string>)
    requires parts != []
    ensures UnmapSteam(["appcache", "librarycache"] + parts) == LIBRARY + "/" + Join(parts, '/')
  {
  }

  lemma UnmapFromDecky(roots: Roots, under: string, directory: string, logical: string)
    requires ValidRoots(roots) && AllPlain(Split(logical, '/')) && Below(directory, logical) && IsPlace([under])
    requires (under, directory) in {("settings", SETTINGS), ("data", DATA), ("themes", THEMES)}
    ensures Unmap(roots, MapInto(Resolve(roots.decky, [under]), directory, logical).target) == logical
  {
    var parts := Split(Remainder(directory, logical), '/');
    MapIntoParts(roots.decky, [under], directory, logical, parts);
    UnmapAt(roots, roots.decky, [under] + parts);
    DeckyParts(under, directory, parts);
  }

  lemma UnmapFromLibrary(roots: Roots, logical: string)
    requires ValidRoots(roots) && AllPlain(Split(logical, '/')) && Below(LIBRARY, logical)
    ensures Unmap(roots, MapInto(Resolve(roots.steam, ["appcache", "librarycache"]), LIBRARY, logical).target)
            == logical
  {
    NamesArePlain();
    var parts := Split(Remainder(LIBRARY, logical), '/');
    MapIntoParts(roots.steam, ["appcache", "librarycache"], LIBRARY, logical, parts);
    UnmapAt(roots, roots.steam, ["appcache", "librarycache"] + parts);
    LibraryParts(parts);
  }

  lemma UnmapFromUserdata(roots: Roots, logical: string)
    requires ValidRoots(roots) && AllPlain(Split(logical, '/')) && Below(USERDATA, logical)
    requires MapUserdata(roots.steam, Split(Remainder(USERDATA, logical), '/')).Mapped?
    ensures Unmap(roots, MapUserdata(roots.steam, Split(Remainder(USERDATA, logical), '/')).target) == logical
  {
    var parts := Split(Remainder(USERDATA, logical), '/');
    RemainderPlain(USERDATA, logical);
    MapUserdataBeneath(roots.steam, parts);
    var under := ["userdata", parts[0], "config", "grid"];
    assert roots.steam + under + parts[2..] == roots.steam + (under + parts[2..]);
    UnmapAt(roots, roots.steam, under + parts[2..]);
    UserdataParts(parts);
    JoinSplit(Remainder(USERDATA, logical), '/');
    SplitBelow(USERDATA, logical);
  }

  lemma UserdataParts(parts: seq<string>)
    requires |parts| >= 3 && parts[1] == "grid"
    ensures UnmapSteam(["userdata", parts[0], "config", "grid"] + parts[2..]) == USERDATA + "/" + Join(parts, '/')
  {
    var rest := ["userdata", parts[0], "config", "grid"] + parts[2..];
    assert rest[4..] == parts[2..] && parts[1..][1..] == parts[2..];
    assert Join(parts[1..], '/') == "grid" + "/" + Join(parts[2..], '/');
  }

  /** Mapping a path and reading its target back gives the path. */
  lemma UnmapMapTarget(roots: Roots, logical: string)
    requires ValidRoots(roots) && AllPlain(Split(logical, '/')) && MapTarget(roots, logical).Mapped?
    ensures Unmap(roots, MapTarget(roots, logical).target) == logical
  {
    NamesArePlain();
    if Below(SETTINGS, logical) {
      UnmapFromDecky(roots, "settings", SETTINGS, logical);
    } else if Below(DATA, logical) {
      UnmapFromDecky(roots, "data", DATA, logical);
    } else if Below(THEMES, logical) {
      UnmapFromDecky(roots, "themes", THEMES, logical);
    } else if Below(LIBRARY, logical) {
      UnmapFromLibrary(roots, logical);
    } else {
      UnmapFromUserdata(roots, logical);
    }
  }

  /** Two paths with the same target are one path. */
  lemma MapTargetInjective(roots: Roots, first: string, second: string)
    requires ValidRoots(roots) && AllPlain(Split(first, '/')) && AllPlain(Split(second, '/'))
    requires MapTarget(roots, first).Mapped? && MapTarget(roots, second).Mapped?
    requires MapTarget(roots, first).target == MapTarget(roots, second).target
    ensures first == second
  {
    UnmapMapTarget(roots, first);
    UnmapMapTarget(roots, second);
  }
}

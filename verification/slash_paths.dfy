/** Slash-separated paths and their lexical cleaning: a path is its own cleaning, and does not climb,
    exactly when each of its segments is plain. */
module SlashPaths {
  import opened Delimited

  /** Drops empty and "." segments and lets ".." remove what precedes it. */
  function Collapse(segments: seq<string>, rooted: bool, kept: seq<string>): seq<string>
    decreases |segments|
  {
    if segments == [] then kept
    else
      var rest := segments[1..];
      if segments[0] == "" || segments[0] == "." then Collapse(rest, rooted, kept)
      else if segments[0] != ".." then Collapse(rest, rooted, kept + [segments[0]])
      else if kept != [] && kept[|kept| - 1] != ".." then Collapse(rest, rooted, kept[..|kept| - 1])
      else if rooted then Collapse(rest, rooted, kept)
      else Collapse(rest, rooted, kept + [".."])
  }

  function Clean(path: string): string {
    var rooted := path != "" && path[0] == '/';
    var kept := Collapse(Split(path, '/'), rooted, []);
    if rooted then "/" + (if kept == [] then "" else Join(kept, '/'))
    else if kept == [] then "." else Join(kept, '/')
  }

  predicate Plain(segment: string) { segment != "" && segment != "." && segment != ".." }

  predicate AllPlain(segments: seq<string>) { forall i :: 0 <= i < |segments| ==> Plain(segments[i]) }

  lemma {:induction false} PlainCollapse(segments: seq<string>, rooted: bool, kept: seq<string>)
    requires AllPlain(segments)
    ensures Collapse(segments, rooted, kept) == kept + segments
    decreases |segments|
  {
    if segments != [] {
      PlainCollapse(segments[1..], rooted, kept + [segments[0]]);
      assert kept + [segments[0]] + segments[1..] == kept + segments;
    } else {
      assert kept + segments == kept;
    }
  }

  /** What cleaning keeps: ".." at most in front, and everything else plain. */
  predicate Climbs(kept: seq<string>) {
    && AllFree(kept, '/')
    && (forall i :: 0 <= i < |kept| ==> kept[i] != "" && kept[i] != ".")
    && (forall i, j :: 0 <= i < j < |kept| && kept[j] == ".." ==> kept[i] == "..")
  }

  lemma {:induction false} CollapseClimbs(segments: seq<string>, rooted: bool, kept: seq<string>)
    requires AllFree(segments, '/') && Climbs(kept)
    requires rooted ==> AllPlain(kept)
    ensures Climbs(Collapse(segments, rooted, kept))
    ensures rooted ==> AllPlain(Collapse(segments, rooted, kept))
    decreases |segments|
  {
    if segments != [] {
      var rest := segments[1..];
      assert Free(segments[0], '/');
      if segments[0] == "" || segments[0] == "." {
        CollapseClimbs(rest, rooted, kept);
      } else if segments[0] != ".." {
        CollapseClimbs(rest, rooted, kept + [segments[0]]);
      } else if kept != [] && kept[|kept| - 1] != ".." {
        CollapseClimbs(rest, rooted, kept[..|kept| - 1]);
      } else if rooted {
        CollapseClimbs(rest, rooted, kept);
      } else {
        CollapseClimbs(rest, rooted, kept + [".."]);
      }
    }
  }

  predicate Traverses(path: string) { path == "." || path == ".." || "../" <= path }

  lemma PlainIsClean(path: string)
    requires path != "" && path[0] != '/' && AllPlain(Split(path, '/'))
    ensures Clean(path) == path && !Traverses(path)
  {
    JoinSplit(path, '/');
    PlainCollapse(Split(path, '/'), false, []);
    assert [] + Split(path, '/') == Split(path, '/');
    if Traverses(path) { TraversalIsNotPlain(path); }
  }

  lemma CleanIsPlain(path: string)
    requires path != "" && path[0] != '/' && Clean(path) == path && !Traverses(path)
    ensures AllPlain(Split(path, '/'))
  {
    var kept := Collapse(Split(path, '/'), false, []);
    CollapseClimbs(Split(path, '/'), false, []);
    SplitJoin(kept, '/');
    SplitHead(path);
    assert kept[0] != "..";
  }

  /** Being its own cleaning, relative and without traversal, is having only plain segments. */
  lemma CleanExactlyWhenPlain(path: string)
    requires path != "" && path[0] != '/'
    ensures Clean(path) == path && !Traverses(path) <==> AllPlain(Split(path, '/'))
  {
    if AllPlain(Split(path, '/')) { PlainIsClean(path); }
    if Clean(path) == path && !Traverses(path) { CleanIsPlain(path); }
  }

  lemma TraversalIsNotPlain(path: string)
    requires Traverses(path)
    ensures !AllPlain(Split(path, '/'))
  {
    if path == "." || path == ".." {
      SplitSegment(path, '/');
    } else {
      assert path == ".." + "/" + path[3..];
      SplitAt("..", path[3..], '/');
      SplitSegment("..", '/');
    }
    assert !Plain(Split(path, '/')[0]);
  }

  /** The first segment is the whole path, or the path goes on after it with a slash. */
  lemma SplitHead(path: string)
    ensures var segments := Split(path, '/');
            if |segments| == 1 then path == segments[0] else segments[0] + "/" <= path
  {
  }
}

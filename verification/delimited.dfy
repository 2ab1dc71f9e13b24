/** Text split at, and joined by, a separating character: splitting and joining undo one another when
    the parts are free of the separator, and different texts split differently. */
module Delimited {
  predicate Free(segment: string, mark: char) { mark !in segment }

  predicate AllFree(segments: seq<string>, mark: char) { forall i :: 0 <= i < |segments| ==> Free(segments[i], mark) }

  function Split(text: string, mark: char): (segments: seq<string>)
    ensures |segments| >= 1 && AllFree(segments, mark)
  {
    if text == "" then [""] else Prepend(text[0], Split(text[1..], mark), mark)
  }

  /** The segments of a text one character longer. */
  function Prepend(character: char, segments: seq<string>, mark: char): (longer: seq<string>)
    requires |segments| >= 1 && AllFree(segments, mark)
    ensures |longer| >= 1 && AllFree(longer, mark)
  {
    if character == mark then [""] + segments else [[character] + segments[0]] + segments[1..]
  }

  lemma PrependConcat(character: char, segments: seq<string>, more: seq<string>, mark: char)
    requires |segments| >= 1 && AllFree(segments + more, mark) && AllFree(segments, mark)
    ensures Prepend(character, segments + more, mark) == Prepend(character, segments, mark) + more
  {
  }

  function Join(segments: seq<string>, mark: char): string
    requires |segments| >= 1
  {
    if |segments| == 1 then segments[0] else segments[0] + [mark] + Join(segments[1..], mark)
  }

  lemma {:induction false} JoinSplit(text: string, mark: char)
    ensures Join(Split(text, mark), mark) == text
  {
    if text != "" {
      JoinSplit(text[1..], mark);
      JoinPrepend(text[0], Split(text[1..], mark), mark);
      assert text == [text[0]] + text[1..];
    }
  }

  /** Joining the segments of a text one character longer. */
  lemma JoinPrepend(character: char, segments: seq<string>, mark: char)
    requires |segments| >= 1 && AllFree(segments, mark)
    ensures Join(Prepend(character, segments, mark), mark) == [character] + Join(segments, mark)
  {
    var longer := Prepend(character, segments, mark);
    if character == mark {
      assert longer[1..] == segments;
    } else {
      assert longer[1..] == segments[1..];
      if |segments| > 1 {
        assert [character] + segments[0] + [mark] + Join(segments[1..], mark)
            == [character] + (segments[0] + [mark] + Join(segments[1..], mark));
      }
    }
  }

  lemma {:induction false} SplitSegment(segment: string, mark: char)
    requires Free(segment, mark)
    ensures Split(segment, mark) == [segment]
  {
    if segment != "" {
      SplitSegment(segment[1..], mark);
      assert segment == [segment[0]] + segment[1..];
    }
  }

  /** Splitting distributes over a joining mark. */
  lemma {:induction false} SplitAt(first: string, second: string, mark: char)
    ensures Split(first + [mark] + second, mark) == Split(first, mark) + Split(second, mark)
  {
    var text := first + [mark] + second;
    if first == "" {
      assert text[0] == mark && text[1..] == second;
    } else {
      assert text[0] == first[0] && text[1..] == first[1..] + [mark] + second;
      SplitAt(first[1..], second, mark);
      PrependConcat(first[0], Split(first[1..], mark), Split(second, mark), mark);
    }
  }

  lemma {:induction false} SplitJoin(segments: seq<string>, mark: char)
    requires |segments| >= 1 && AllFree(segments, mark)
    ensures Split(Join(segments, mark), mark) == segments
  {
    if |segments| == 1 {
      SplitSegment(segments[0], mark);
    } else {
      SplitAt(segments[0], Join(segments[1..], mark), mark);
      SplitSegment(segments[0], mark);
      SplitJoin(segments[1..], mark);
      assert segments == [segments[0]] + segments[1..];
    }
  }

  /** What precedes the first mark of a text is one thing only. */
  lemma HeadsAgree(first: string, second: string, text: string, mark: char)
    requires Free(first, mark) && Free(second, mark) && first + [mark] <= text && second + [mark] <= text
    ensures first == second
  {
    assert first == text[..|first|] && text[|first|] == mark;
    assert second == text[..|second|] && text[|second|] == mark;
    forall i | 0 <= i < |first| ensures text[i] != mark { assert first[i] == text[i]; }
    forall i | 0 <= i < |second| ensures text[i] != mark { assert second[i] == text[i]; }
  }

  /** Different texts split differently. */
  lemma SplitInjective(first: string, second: string, mark: char)
    requires Split(first, mark) == Split(second, mark)
    ensures first == second
  {
    JoinSplit(first, mark);
    JoinSplit(second, mark);
  }
}

/** The run-length form of an observed text and its expansion. */
module ObservedFrames {
  import opened Text
  import opened OriginalPaths

  datatype Segment = Literal(source: Text) | RepeatAscii(byte: Unit, count: nat)

  datatype Frame = Plain(source: Text) | Segments(segments: seq<Segment>)

  const LIMIT: nat := 131073
  const SHORTEST: nat := 64

  /** The bytes a text encodes to; a lone surrogate takes the three bytes of its replacement. */
  function Size(s: Text): nat { |Utf8Text(s)| }

  function Repeated(unit: Unit, n: nat): Text { seq(n, _ => unit) }

  function SegmentText(segment: Segment): Text {
    match segment case Literal(source) => source case RepeatAscii(byte, count) => Repeated(byte, count)
  }

  function Joined(segments: seq<Segment>): Text {
    if segments == [] then [] else Joined(segments[..|segments| - 1]) + SegmentText(segments[|segments| - 1])
  }

  /** How far the unit at `i` repeats. */
  function RunLength(s: Text, i: nat): (n: nat)
    requires i < |s|
    ensures 1 <= n <= |s| - i && s[i..i + n] == Repeated(s[i], n)
    ensures i + n < |s| ==> s[i + n] != s[i]
    decreases |s| - i
  {
    if i + 1 < |s| && s[i + 1] == s[i] then
      var n := RunLength(s, i + 1);
      assert s[i..i + 1 + n] == [s[i]] + s[i + 1..i + 1 + n];
      1 + n
    else 1
  }

  /** A run of the regular expression starts here. */
  predicate RunAt(s: Text, i: nat)
    requires i < |s|
  {
    s[i] < 0x80 && RunLength(s, i) >= SHORTEST
  }

  /** Segments already cut stay; runs are cut whole, the rest is literal. */
  ghost predicate CutUpTo(segments: seq<Segment>, s: Text, start: nat)
    requires start <= |s|
  {
    && Joined(segments) == s[..start]
    && (start > 0 && start < |s| ==> s[start - 1] < 0x80)
    && Sizes(segments) == Size(s[..start])
    && (forall segment <- segments :: SegmentOk(segment))
    && Maximal(segments, s)
  }

  /** A repeat is a whole run: the units before and after it differ. */
  ghost predicate Maximal(segments: seq<Segment>, s: Text) {
    forall j :: 0 <= j < |segments| && segments[j].RepeatAscii? ==> WholeRun(segments, s, j)
  }

  ghost predicate WholeRun(segments: seq<Segment>, s: Text, j: nat)
    requires j < |segments| && segments[j].RepeatAscii?
  {
    var from, end := |Joined(segments[..j])|, |Joined(segments[..j + 1])|;
    (0 < from <= |s| ==> s[from - 1] != segments[j].byte) && (end < |s| ==> s[end] != segments[j].byte)
  }

  lemma MaximalSnoc(segments: seq<Segment>, s: Text, segment: Segment)
    requires Maximal(segments, s)
    requires segment.RepeatAscii? ==>
      var from, end := |Joined(segments)|, |Joined(segments + [segment])|;
      (0 < from <= |s| ==> s[from - 1] != segment.byte) && (end < |s| ==> s[end] != segment.byte)
    ensures Maximal(segments + [segment], s)
  {
    var more := segments + [segment];
    forall j | 0 <= j < |more| && more[j].RepeatAscii? ensures WholeRun(more, s, j) {
      if j < |segments| {
        assert WholeRun(segments, s, j);
        assert more[..j] == segments[..j] && more[..j + 1] == segments[..j + 1];
      } else {
        assert more[..j] == segments && more[..j + 1] == more;
      }
    }
  }

  /** Repeats are ASCII and long; literals are not empty and hold no long ASCII run. */
  ghost predicate SegmentOk(segment: Segment) {
    match segment
    case Literal(source) => source != [] && forall i :: 0 <= i < |source| ==> !RunAt(source, i)
    case RepeatAscii(byte, count) => byte < 0x80 && count >= SHORTEST
  }

  function SegmentSize(segment: Segment): nat {
    match segment case Literal(source) => Size(source) case RepeatAscii(_, count) => count
  }

  function Sizes(segments: seq<Segment>): nat {
    if segments == [] then 0 else Sizes(segments[..|segments| - 1]) + SegmentSize(segments[|segments| - 1])
  }

  // ---- Sizes add up where no pair is cut.

  lemma {:induction false} SizeJoin(a: Text, b: Text)
    requires a != [] && b != [] ==> !(High(a[|a| - 1]) && Low(b[0]))
    ensures Utf8Text(a + b) == Utf8Text(a) + Utf8Text(b)
    decreases |a|
  {
    if a == [] {
      assert a + b == b;
    } else {
      var n := HeadWidth(a);
      assert PairHead(a + b) == PairHead(a);
      assert (a + b)[n..] == a[n..] + b;
      assert Point(a + b) == Point(a);
      SizeJoin(a[n..], b);
    }
  }

  lemma {:induction false} RepeatedSize(unit: Unit, n: nat)
    requires unit < 0x80
    ensures Size(Repeated(unit, n)) == n
    decreases n
  {
    if n > 0 {
      RepeatedSize(unit, n - 1);
      assert Repeated(unit, n)[1..] == Repeated(unit, n - 1);
    }
  }

  lemma JoinedSnoc(segments: seq<Segment>, segment: Segment)
    ensures Joined(segments + [segment]) == Joined(segments) + SegmentText(segment)
    ensures Sizes(segments + [segment]) == Sizes(segments) + SegmentSize(segment)
  {
    assert (segments + [segment])[..|segments|] == segments;
  }

  /** Runs inside a slice are runs of the text, cut at the slice's end. */
  lemma {:induction false} RunInSlice(s: Text, start: nat, end: nat, i: nat)
    requires start <= i < end <= |s|
    ensures RunLength(s[start..end], i - start) <= RunLength(s, i)
    decreases end - i
  {
    var slice := s[start..end];
    assert slice[i - start] == s[i];
    if i + 1 < end && s[i + 1] == s[i] {
      assert slice[i - start + 1] == s[i + 1];
      RunInSlice(s, start, end, i + 1);
    } else {
      assert i + 1 < end ==> slice[i - start + 1] == s[i + 1];
      assert RunLength(slice, i - start) == 1;
    }
  }

  lemma LiteralCut(segments: seq<Segment>, s: Text, start: nat, end: nat)
    requires start < end <= |s| && CutUpTo(segments, s, start)
    requires forall i :: start <= i < end ==> !RunAt(s, i)
    requires end < |s| ==> s[end] < 0x80
    ensures var cut := segments + [Literal(s[start..end])];
      && Joined(cut) == s[..end] && Sizes(cut) == Size(s[..end]) && Maximal(cut, s)
      && forall segment <- cut :: SegmentOk(segment)
  {
    hide Utf8Text, Joined, Sizes, RunLength, Maximal;
    MaximalSnoc(segments, s, Literal(s[start..end]));
    var literal := s[start..end];
    JoinedSnoc(segments, Literal(literal));
    assert s[..start] + literal == s[..end];
    SizeJoin(s[..start], literal);
    forall i | 0 <= i < |literal| ensures !RunAt(literal, i) {
      RunInSlice(s, start, end, start + i);
      assert !RunAt(s, start + i);
    }
  }

  lemma RepeatCut(segments: seq<Segment>, s: Text, end: nat)
    requires end < |s| && RunAt(s, end)
    requires Joined(segments) == s[..end] && Sizes(segments) == Size(s[..end])
    requires Maximal(segments, s) && (end > 0 ==> s[end - 1] != s[end])
    requires forall segment <- segments :: SegmentOk(segment)
    ensures CutUpTo(segments + [RepeatAscii(s[end], RunLength(s, end))], s, end + RunLength(s, end))
  {
    hide Utf8Text, Joined, Sizes, RunLength, Maximal;
    var n := RunLength(s, end);
    JoinedSnoc(segments, RepeatAscii(s[end], n));
    assert s[..end] + Repeated(s[end], n) == s[..end + n];
    assert s[end + n - 1] == s[end..end + n][n - 1] == s[end];
    MaximalSnoc(segments, s, RepeatAscii(s[end], n));
    RepeatedSize(s[end], n);
    SizeJoin(s[..end], Repeated(s[end], n));
  }

  method CountRun(s: Text, i: nat) returns (n: nat)
    requires i < |s|
    ensures n == RunLength(s, i)
  {
    n := 1;
    while i + n < |s| && s[i + n] == s[i]
      invariant 1 <= n <= |s| - i
      invariant forall k :: i <= k < i + n ==> s[k] == s[i]
      invariant RunLength(s, i) == n - 1 + RunLength(s, i + n - 1)
    {
      n := n + 1;
    }
  }

  /**
    Compressing an observed text. `jsonLength` stands for the length of the serialized segments;
    the text is kept as it is unless segments are few and shorter.
   */
  method ObservedFrame(source: Text, jsonLength: seq<Segment> -> nat) returns (frame: Frame)
    ensures frame.Plain? ==> frame.source == source
    ensures frame.Segments? ==> 0 < |frame.segments| <= 32 && jsonLength(frame.segments) < |source|
    ensures frame.Segments? ==> CutUpTo(frame.segments, source, |source|)
  {
    hide Joined, Sizes, Utf8Text, RunLength, SegmentOk, Maximal;
    var segments: seq<Segment> := [];
    var start: nat, i: nat := 0, 0;
    NothingCut(source);
    while i < |source|
      invariant start <= i <= |source| && CutUpTo(segments, source, start)
      invariant forall k :: start <= k < i ==> !RunAt(source, k)
      invariant 0 < start == i < |source| ==> source[start - 1] != source[start]
    {
      var n := CountRun(source, i);
      if source[i] < 0x80 && n >= SHORTEST {
        if i > start {
          RunStarts(source, i);
          LiteralCut(segments, source, start, i);
          segments := segments + [Literal(source[start..i])];
        }
        RepeatCut(segments, source, i);
        segments := segments + [RepeatAscii(source[i], n)];
        RunEnds(source, i);
        start := i + n;
        i := start;
      } else {
        i := i + 1;
      }
    }
    if start < |source| {
      LiteralCut(segments, source, start, |source|);
      segments := segments + [Literal(source[start..|source|])];
    }
    if 0 < |segments| <= 32 && jsonLength(segments) < |source| {
      return Segments(segments);
    }
    return Plain(source);
  }

  lemma RunStarts(s: Text, i: nat)
    requires 0 < i < |s| && RunAt(s, i) && !RunAt(s, i - 1)
    ensures s[i - 1] != s[i]
  {
  }

  lemma RunEnds(s: Text, i: nat)
    requires i < |s|
    ensures var end := i + RunLength(s, i); s[end - 1] == s[i] && (end < |s| ==> s[end - 1] != s[end])
  {
    var n := RunLength(s, i);
    assert s[i + n - 1] == s[i..i + n][n - 1];
  }

  lemma NothingCut(s: Text)
    ensures CutUpTo([], s, 0)
  {
    assert s[..0] == [];
  }

  ghost predicate Expandable(segments: seq<Segment>) {
    0 < |segments| <= 32 && Sizes(segments) <= LIMIT && forall segment <- segments :: Measured(segment)
  }

  /** Expanding a recipe; an oversized or malformed one is refused. */
  method ExpandFrame(frame: Frame) returns (r: Option<Text>)
    ensures frame.Plain? ==> r == if Size(frame.source) > LIMIT then None else Some(frame.source)
    ensures frame.Segments? ==> r == if Expandable(frame.segments) then Some(Joined(frame.segments)) else None
  {
    hide Utf8Text;
    if frame.Plain? {
      return if Size(frame.source) > LIMIT then None else Some(frame.source);
    }
    var segments := frame.segments;
    if |segments| == 0 || |segments| > 32 {
      return None;
    }
    var length, text := 0, [];
    assert segments[..|segments|] == segments;
    for i := 0 to |segments|
      invariant length == Sizes(segments[..i]) <= LIMIT && text == Joined(segments[..i])
      invariant forall segment <- segments[..i] :: Measured(segment)
    {
      assert segments[..i + 1] == segments[..i] + [segments[i]];
      JoinedSnoc(segments[..i], segments[i]);
      SizesGrow(segments, i + 1);
      assert segments[i] in segments;
      if !Measured(segments[i]) {
        return None;
      }
      length := length + SegmentSize(segments[i]);
      if length > LIMIT {
        return None;
      }
      text := text + SegmentText(segments[i]);
    }
    return Some(text);
  }

  predicate Measured(segment: Segment) { segment.RepeatAscii? ==> segment.byte <= 127 && segment.count <= LIMIT }

  lemma {:induction false} SizesGrow(segments: seq<Segment>, i: nat)
    requires i <= |segments|
    ensures Sizes(segments[..i]) <= Sizes(segments)
    decreases |segments| - i
  {
    if i < |segments| {
      JoinedSnoc(segments[..i], segments[i]);
      assert segments[..i + 1] == segments[..i] + [segments[i]];
      SizesGrow(segments, i + 1);
    } else {
      assert segments[..i] == segments;
    }
  }

  lemma {:induction false} SizeOfMember(segments: seq<Segment>, i: nat)
    requires i < |segments|
    ensures SegmentSize(segments[i]) <= Sizes(segments)
  {
    JoinedSnoc(segments[..i], segments[i]);
    assert segments[..i + 1] == segments[..i] + [segments[i]];
    SizesGrow(segments, i + 1);
  }

  /**
    Main result: expanding the observed frame of a text gives the text back exactly when it fits
    the limit, whatever the serialized length decides.
   */
  method RoundTrip(source: Text, jsonLength: seq<Segment> -> nat) returns (r: Option<Text>)
    ensures r == if Size(source) <= LIMIT then Some(source) else None
  {
    hide Utf8Text, Joined, Sizes, Maximal;
    var frame := ObservedFrame(source, jsonLength);
    if frame.Segments? {
      assert source[..|source|] == source;
      if Size(source) <= LIMIT {
        forall i | 0 <= i < |frame.segments| ensures Measured(frame.segments[i]) {
          SizeOfMember(frame.segments, i);
          assert SegmentOk(frame.segments[i]);
        }
      }
    }
    r := ExpandFrame(frame);
  }
}

/** The framing the stream task applies to the response text: frames end at
    the first blank line ("\n\n"), and a frame's payload is the rest of its
    first line that starts with "data: ". This is a subset of the
    Server-Sent Events format: no other separators, one data line, no
    joining of multi-line data. */
module Framing {
  import opened Prelude

  const SEPARATOR: string := "\n\n"
  const DATA_PREFIX: string := "data: "

  // ---------------------------------------------------------------------------
  // Frames

  predicate SeparatorAt(s: string, i: int) {
    0 <= i && i + 1 < |s| && s[i] == '\n' && s[i + 1] == '\n'
  }

  predicate NoSeparator(s: string) {
    forall i | 0 <= i < |s| :: !SeparatorAt(s, i)
  }

  /** A text that can stand before a separator and be split off again:
      no separator inside it and no newline at its end. */
  predicate WellFormedFrame(f: string) {
    NoSeparator(f) && (f == [] || f[|f| - 1] != '\n')
  }

  predicate AllWellFormed(fs: seq<string>) {
    forall k | 0 <= k < |fs| :: WellFormedFrame(fs[k])
  }

  /** `s.find("\n\n")`: the first position of a separator. */
  function FindSeparator(s: string): (r: Option<nat>)
    ensures r.Some? ==> SeparatorAt(s, r.value) && forall j | 0 <= j < r.value :: !SeparatorAt(s, j)
    ensures r.None? <==> NoSeparator(s)
  {
    FindFrom(s, 0)
  }

  function FindFrom(s: string, k: nat): (r: Option<nat>)
    requires k <= |s|
    ensures r.Some? ==> k <= r.value && SeparatorAt(s, r.value)
                        && forall j | k <= j < r.value :: !SeparatorAt(s, j)
    ensures r.None? <==> forall j | k <= j < |s| :: !SeparatorAt(s, j)
    decreases |s| - k
  {
    if k + 1 >= |s| then None
    else if s[k] == '\n' && s[k + 1] == '\n' then Some(k)
    else FindFrom(s, k + 1)
  }

  /** Each frame followed by the separator. */
  function JoinFrames(fs: seq<string>): string {
    if fs == [] then "" else fs[0] + SEPARATOR + JoinFrames(fs[1..])
  }

  /** The frames the splitting loop takes off `s`, in order, and the
      remainder it keeps: the frames with their separators, then the
      remainder, give back `s`; no frame and not the remainder holds a
      separator. */
  function SplitFrames(s: string): (r: (seq<string>, string))
    ensures JoinFrames(r.0) + r.1 == s
    ensures AllWellFormed(r.0)
    ensures NoSeparator(r.1)
    decreases |s|
  {
    match FindSeparator(s)
    case None => ([], s)
    case Some(i) =>
      var tail := SplitFrames(s[i + 2..]);
      SplitStep(s, i, tail.0, tail.1);
      ([s[..i]] + tail.0, tail.1)
  }

  /** The text before the first separator is a well-formed frame. */
  lemma FrameBeforeSeparator(s: string, i: nat)
    requires FindSeparator(s) == Some(i)
    ensures WellFormedFrame(s[..i])
  {
    forall j | 0 <= j < i ensures !SeparatorAt(s[..i], j) {
      assert !SeparatorAt(s, j);
    }
    if i > 0 { assert !SeparatorAt(s, i - 1); }
  }

  lemma SplitStep(s: string, i: nat, fs: seq<string>, r: string)
    requires FindSeparator(s) == Some(i)
    requires JoinFrames(fs) + r == s[i + 2..] && AllWellFormed(fs)
    ensures JoinFrames([s[..i]] + fs) + r == s
    ensures AllWellFormed([s[..i]] + fs)
  {
    FrameBeforeSeparator(s, i);
    JoinFramesCons(s[..i], fs, r);
    assert s == s[..i] + SEPARATOR + s[i + 2..];
    var g := [s[..i]] + fs;
    forall k | 0 <= k < |g| ensures WellFormedFrame(g[k]) {
      if k > 0 { assert g[k] == fs[k - 1]; }
    }
  }

  /** After a well-formed frame and its separator, the first separator is
      the one that ends the frame. */
  lemma FindAfterFrame(f: string, x: string)
    requires WellFormedFrame(f)
    ensures FindSeparator(f + SEPARATOR + x) == Some(|f|)
  {
    var s := f + SEPARATOR + x;
    assert SeparatorAt(s, |f|);
    forall j | 0 <= j < |f| ensures !SeparatorAt(s, j) {
      if j + 1 < |f| {
        assert !SeparatorAt(f, j);
      } else {
        assert s[j] == f[|f| - 1];
      }
    }
  }

  lemma JoinFramesCons(f: string, fs: seq<string>, x: string)
    ensures JoinFrames([f] + fs) + x == f + SEPARATOR + (JoinFrames(fs) + x)
  {
    assert ([f] + fs)[1..] == fs;
  }

  /** Splitting well-formed frames followed by any text gives those frames
      back, then what splitting the text alone gives. */
  lemma {:induction false} SplitAfterFrames(fs: seq<string>, x: string)
    requires AllWellFormed(fs)
    ensures SplitFrames(JoinFrames(fs) + x) == (fs + SplitFrames(x).0, SplitFrames(x).1)
    decreases |fs|
  {
    if fs == [] {
      assert JoinFrames(fs) + x == x;
      assert fs + SplitFrames(x).0 == SplitFrames(x).0;
    } else {
      var rest := fs[1..];
      assert fs == [fs[0]] + rest;
      assert WellFormedFrame(fs[0]);
      assert AllWellFormed(rest) by {
        forall k | 0 <= k < |rest| ensures WellFormedFrame(rest[k]) { assert rest[k] == fs[k + 1]; }
      }
      SplitAfterFrames(rest, x);
      SplitAfterOneMore(fs[0], rest, x);
    }
  }

  lemma SplitAfterOneMore(f: string, rest: seq<string>, x: string)
    requires WellFormedFrame(f)
    requires SplitFrames(JoinFrames(rest) + x) == (rest + SplitFrames(x).0, SplitFrames(x).1)
    ensures SplitFrames(JoinFrames([f] + rest) + x) == ([f] + rest + SplitFrames(x).0, SplitFrames(x).1)
  {
    var y := JoinFrames(rest) + x;
    SplitFirstFrame(f, y);
    JoinFramesCons(f, rest, x);
    var sx := SplitFrames(x).0;
    SeqAssoc([f], rest, sx);
  }

  lemma SeqAssoc<T>(a: seq<T>, b: seq<T>, c: seq<T>)
    ensures a + (b + c) == a + b + c
  {
  }

  /** Splitting a well-formed frame, its separator and any text. */
  lemma SplitFirstFrame(f: string, y: string)
    requires WellFormedFrame(f)
    ensures SplitFrames(f + SEPARATOR + y) == ([f] + SplitFrames(y).0, SplitFrames(y).1)
  {
    var s := f + SEPARATOR + y;
    FindAfterFrame(f, y);
    assert s[..|f|] == f;
    assert s[|f| + 2..] == y;
  }

  /** Joining and splitting are inverse: well-formed frames and a remainder
      without a separator are exactly what splitting their join yields. */
  lemma SplitJoinRoundTrip(fs: seq<string>, rest: string)
    requires AllWellFormed(fs) && NoSeparator(rest)
    ensures SplitFrames(JoinFrames(fs) + rest) == (fs, rest)
  {
    SplitAfterFrames(fs, rest);
    assert fs + [] == fs;
  }

  // ---------------------------------------------------------------------------
  // Lines and the data payload

  /** A line ended by "\r\n" loses its '\r'. */
  function StripCR(l: string): string {
    if |l| > 0 && l[|l| - 1] == '\r' then l[..|l| - 1] else l
  }

  /** `str::lines`: split at '\n', dropping a '\r' before it; a final
      newline does not start an empty line. */
  function Lines(s: string): (r: seq<string>)
    ensures forall k | 0 <= k < |r| :: '\n' !in r[k]
    decreases |s|
  {
    if s == [] then []
    else
      var i := IndexOf(s, '\n');
      if i == |s| then [s] else [StripCR(s[..i])] + Lines(s[i + 1..])
  }

  /** `lines` takes off one newline-ended line at a time. */
  lemma LinesCons(l: string, rest: string)
    requires '\n' !in l
    ensures Lines(l + "\n" + rest) == [StripCR(l)] + Lines(rest)
  {
    var s := l + "\n" + rest;
    assert forall j | 0 <= j < |l| :: s[j] == l[j] && s[j] != '\n' by {
      forall j | 0 <= j < |l| ensures s[j] == l[j] && s[j] != '\n' { assert l[j] in l; }
    }
    assert s[|l|] == '\n';
    assert IndexOf(s, '\n') == |l|;
    assert s[..|l|] == l;
    assert s[|l| + 1..] == rest;
  }

  /** A last line without a newline is kept whole. */
  lemma LinesLast(l: string)
    requires '\n' !in l && l != []
    ensures Lines(l) == [l]
  {
    assert forall j | 0 <= j < |l| :: l[j] != '\n' by {
      forall j | 0 <= j < |l| ensures l[j] != '\n' { assert l[j] in l; }
    }
  }

  /** The index of the first line that starts with "data: ". */
  function FirstDataLine(lines: seq<string>): (r: Option<nat>)
    ensures r.Some? ==> r.value < |lines| && DATA_PREFIX <= lines[r.value]
                        && forall j | 0 <= j < r.value :: !(DATA_PREFIX <= lines[j])
    ensures r.None? <==> forall j | 0 <= j < |lines| :: !(DATA_PREFIX <= lines[j])
  {
    if lines == [] then None
    else if DATA_PREFIX <= lines[0] then Some(0)
    else match FirstDataLine(lines[1..])
      case None => None
      case Some(i) => Some(i + 1)
  }

  /** The payload of a frame: its first data line without the prefix, or
      None when no line carries the prefix. */
  function FramePayload(frame: string): (r: Option<string>)
    ensures r.Some? ==> DATA_PREFIX + r.value in Lines(frame) && '\n' !in r.value
    ensures r.Some? ==> DATA_PREFIX + r.value == Lines(frame)[FirstDataLine(Lines(frame)).value]
    ensures r.None? <==> forall l | l in Lines(frame) :: !(DATA_PREFIX <= l)
  {
    var lines := Lines(frame);
    match FirstDataLine(lines)
    case None => None
    case Some(i) =>
      var line := lines[i];
      assert DATA_PREFIX + line[6..] == line;
      Some(line[6..])
  }
}

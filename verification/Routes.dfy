/** Paths as lists of segments, and the checks that routing makes on them. */
module Routes {
  import opened Seqs

  predicate Allowed(c: char) {
    'a' <= c <= 'z' || 'A' <= c <= 'Z' || '0' <= c <= '9' || c == '_' || c == '-' || c == '.'
  }

  predicate Safe(segment: string) {
    && 0 < |segment| <= 128
    && (forall i | 0 <= i < |segment| :: Allowed(segment[i]))
    && exists i | 0 <= i < |segment| :: segment[i] != '.'
  }

  /** `safe_segment`. */
  method SafeSegment(segment: string) returns (r: bool)
    ensures r <==> Safe(segment)
  {
    if segment == "" || |segment| > 128 {
      return false;
    }
    var dotsOnly := true;
    for i := 0 to |segment|
      invariant forall k | 0 <= k < i :: Allowed(segment[k])
      invariant dotsOnly <==> forall k | 0 <= k < i :: segment[k] == '.'
    {
      if !Allowed(segment[i]) {
        return false;
      }
      if segment[i] != '.' {
        dotsOnly := false;
      }
    }
    r := !dotsOnly;
  }

  /** A fixed segment of a route. */
  type Word = s: string | Safe(s) witness AsWord("a")

  function AsWord(s: string): (w: string)
    requires 0 < |s| <= 128 && s[0] != '.' && forall i | 0 <= i < |s| :: Allowed(s[i])
    ensures w == s && Safe(w)
  {
    s
  }

  function Slash(segment: string): string {
    "/" + segment
  }

  function Path(segments: seq<string>): string {
    Flatten(Map(Slash, segments))
  }

  predicate AllSafe(segments: seq<string>) {
    forall i | 0 <= i < |segments| :: Safe(segments[i])
  }

  /** A last segment may carry an action behind a colon. */
  ghost predicate SafeLast(segment: string) {
    Safe(segment) || exists k | 0 <= k < |segment| :: segment[k] == ':' && Safe(segment[..k]) && Safe(segment[k + 1..])
  }

  ghost predicate SplitsInto(path: string, segments: seq<string>) {
    && segments != [] && path == Path(segments)
    && AllSafe(segments[..|segments| - 1]) && SafeLast(segments[|segments| - 1])
  }

  /** The path is a slash before each of some safe segments, the last perhaps with an action. */
  ghost predicate SafePath(path: string) {
    exists segments :: SplitsInto(path, segments)
  }

  // ---- Putting paths together ----

  lemma PathConcat(a: seq<string>, b: seq<string>)
    ensures Path(a + b) == Path(a) + Path(b)
  {
    FlattenConcat(Map(Slash, a), Map(Slash, b));
    assert Map(Slash, a + b) == Map(Slash, a) + Map(Slash, b);
  }

  lemma PathOne(segment: string)
    ensures Path([segment]) == Slash(segment)
  {
    assert Map(Slash, [segment]) == [Slash(segment)];
    FlattenOne(Slash(segment));
  }

  lemma OneIsSafe(segment: string)
    requires SafeLast(segment)
    ensures SafePath(Slash(segment))
  {
    PathOne(segment);
    assert SplitsInto(Slash(segment), [segment]);
  }

  lemma WordsAreSafe(words: seq<Word>)
    requires words != []
    ensures SafePath(Path(words))
  {
    assert SplitsInto(Path(words), words);
  }

  lemma UnderIsSafe(words: seq<string>, path: string)
    requires AllSafe(words) && SafePath(path)
    ensures SafePath(Path(words) + path)
  {
    var segments :| SplitsInto(path, segments);
    PathConcat(words, segments);
    var all := words + segments;
    assert all[..|all| - 1] == words + segments[..|segments| - 1];
    assert SplitsInto(Path(words) + path, all);
  }

  lemma StepIsSafe(segment: string, path: string)
    requires Safe(segment) && SafePath(path)
    ensures SafePath(Slash(segment) + path)
  {
    PathOne(segment);
    UnderIsSafe([segment], path);
  }

  // ---- What a safe path is made of ----

  predicate PathChar(c: char) {
    Allowed(c) || c == '/' || c == ':'
  }

  lemma LastChars(segment: string)
    requires SafeLast(segment)
    ensures forall i | 0 <= i < |segment| :: PathChar(segment[i])
  {
    if !Safe(segment) {
      var k :| 0 <= k < |segment| && segment[k] == ':' && Safe(segment[..k]) && Safe(segment[k + 1..]);
      forall i | 0 <= i < |segment| ensures PathChar(segment[i]) {
        if i < k {
          assert segment[..k][i] == segment[i];
        } else if i > k {
          assert segment[k + 1..][i - k - 1] == segment[i];
        }
      }
    }
  }

  lemma {:induction false} PathChars(segments: seq<string>)
    requires forall i | 0 <= i < |segments| :: SafeLast(segments[i])
    ensures forall i | 0 <= i < |Path(segments)| :: PathChar(Path(segments)[i])
  {
    if segments != [] {
      var n := |segments| - 1;
      PathChars(segments[..n]);
      LastChars(segments[n]);
      assert segments == segments[..n] + [segments[n]];
      PathConcat(segments[..n], [segments[n]]);
      PathOne(segments[n]);
    }
  }

  lemma SafePathChars(path: string)
    requires SafePath(path)
    ensures path != "" && path[0] == '/'
    ensures forall i | 0 <= i < |path| :: PathChar(path[i])
  {
    var segments :| SplitsInto(path, segments);
    PathChars(segments);
    assert segments == [segments[0]] + segments[1..];
    PathConcat([segments[0]], segments[1..]);
    PathOne(segments[0]);
  }
}

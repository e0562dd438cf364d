/**
 * Event framing of a server-sent event stream: an event runs up to and including the first
 * LF LF or CRLF CRLF (a subset of section 9.2.5 of the WHATWG HTML Standard).
 * Byte strings are modelled as `string`, one char per byte.
 */
module Sse {
  import opened Seqs

  predicate OccursAt(s: string, pat: string, i: nat) {
    i + |pat| <= |s| && s[i..i + |pat|] == pat
  }

  /** std::string::find: the first occurrence at or after `from` (see `FindIsFirst`). */
  function Find(s: string, pat: string, from: nat): (r: Option<nat>)
    ensures r.Some? ==> from <= r.value && r.value + |pat| <= |s|
    decreases |s| + 1 - from
  {
    if from + |pat| > |s| then None
    else if OccursAt(s, pat, from) then Some(from)
    else Find(s, pat, from + 1)
  }

  lemma {:induction false} FindIsFirst(s: string, pat: string, from: nat)
    ensures match Find(s, pat, from)
            case None => forall i: nat | from <= i :: !OccursAt(s, pat, i)
            case Some(k) => OccursAt(s, pat, k) && forall i: nat | from <= i < k :: !OccursAt(s, pat, i)
    decreases |s| + 1 - from
  {
    if from + |pat| <= |s| && !OccursAt(s, pat, from) { FindIsFirst(s, pat, from + 1); }
  }

  predicate Contains(s: string, pat: string) {
    Find(s, pat, 0).Some?
  }

  /** The delimiter search of the read loops: the end of the event that starts at `pos`. */
  function NextEnd(buffer: string, pos: nat): Option<nat> {
    Earlier(Find(buffer, "\n\n", pos), Find(buffer, "\r\n\r\n", pos))
  }

  /** The end of the delimiter that starts first; both ends are counted from its start. */
  function Earlier(lf: Option<nat>, crlf: Option<nat>): Option<nat> {
    if crlf.Some? && (lf.None? || crlf.value < lf.value) then Some(crlf.value + 4)
    else if lf.Some? then Some(lf.value + 2)
    else None
  }

  predicate LfLfAt(s: string, i: nat) {
    i + 2 <= |s| && s[i] == '\n' && s[i + 1] == '\n'
  }

  predicate CrlfCrlfAt(s: string, i: nat) {
    i + 4 <= |s| && s[i] == '\r' && s[i + 1] == '\n' && s[i + 2] == '\r' && s[i + 3] == '\n'
  }

  /** `s` ends in an event delimiter. */
  predicate Closed(s: string) {
    || (|s| >= 2 && LfLfAt(s, |s| - 2))
    || (|s| >= 4 && CrlfCrlfAt(s, |s| - 4))
  }

  /** The reference definition: the shortest closed prefix of `s` has length `n`. */
  predicate IsFirstEvent(s: string, n: nat) {
    && n <= |s|
    && Closed(s[..n])
    && forall m | 0 <= m < n :: !Closed(s[..m])
  }

  function FirstClosed(s: string, n: nat): (r: Option<nat>)
    ensures r.Some? ==> 2 <= r.value <= |s|
    decreases |s| + 1 - n
  {
    if n > |s| then None else if Closed(s[..n]) then Some(n) else FirstClosed(s, n + 1)
  }

  function Cut(s: string): (r: Option<nat>)
    ensures r.Some? ==> 2 <= r.value <= |s|
  {
    FirstClosed(s, 0)
  }

  /** One-shot framing of a whole byte stream: its complete events and the unfinished remainder. */
  function Events(s: string): seq<string>
    decreases |s|
  {
    match Cut(s)
    case None => []
    case Some(n) => [s[..n]] + Events(s[n..])
  }

  function Rest(s: string): string
    decreases |s|
  {
    match Cut(s)
    case None => s
    case Some(n) => Rest(s[n..])
  }

  lemma {:induction false} FirstClosedIsFirst(s: string, n: nat)
    requires forall m | 0 <= m < n && m <= |s| :: !Closed(s[..m])
    ensures match FirstClosed(s, n) case None => forall m | 0 <= m <= |s| :: !Closed(s[..m])
                                    case Some(r) => IsFirstEvent(s, r)
    decreases |s| + 1 - n
  {
    if n <= |s| && !Closed(s[..n]) { FirstClosedIsFirst(s, n + 1); }
  }

  /** `Cut` computes the reference definition. */
  lemma CutIsFirstEvent(s: string)
    ensures match Cut(s) case None => forall m | 0 <= m <= |s| :: !Closed(s[..m])
                         case Some(r) => IsFirstEvent(s, r)
  {
    FirstClosedIsFirst(s, 0);
  }

  lemma CutIs(s: string, n: nat)
    requires IsFirstEvent(s, n)
    ensures Cut(s) == Some(n)
  {
    CutIsFirstEvent(s);
  }

  lemma DelimiterChars(s: string, i: nat)
    ensures OccursAt(s, "\n\n", i) == LfLfAt(s, i)
    ensures OccursAt(s, "\r\n\r\n", i) == CrlfCrlfAt(s, i)
  {
    if i + 2 <= |s| {
      var t := s[i..i + 2];
      assert t[0] == s[i] && t[1] == s[i + 1];
    }
    if i + 4 <= |s| {
      var t := s[i..i + 4];
      assert t[0] == s[i] && t[1] == s[i + 1] && t[2] == s[i + 2] && t[3] == s[i + 3];
    }
  }

  /** The code's search, which compares where delimiters start, finds the shortest closed prefix. */
  lemma SearchIsFirstEvent(s: string)
    ensures NextEnd(s, 0) == Cut(s)
  {
    forall i: nat ensures OccursAt(s, "\n\n", i) == LfLfAt(s, i) { DelimiterChars(s, i); }
    forall i: nat ensures OccursAt(s, "\r\n\r\n", i) == CrlfCrlfAt(s, i) { DelimiterChars(s, i); }
    var lf, crlf := Find(s, "\n\n", 0), Find(s, "\r\n\r\n", 0);
    FindIsFirst(s, "\n\n", 0);
    FindIsFirst(s, "\r\n\r\n", 0);
    EarliestStartIsEarliestEnd(s, lf, crlf);
  }

  predicate IsFirst(at: (string, nat) -> bool, s: string, r: Option<nat>) {
    && (r.Some? ==> at(s, r.value))
    && forall i: nat | i < (if r.Some? then r.value else |s|) :: !at(s, i)
  }

  /** A CRLF CRLF that starts just before an LF LF would need '\r' where the LF LF has '\n'. */
  lemma EarliestStartIsEarliestEnd(s: string, lf: Option<nat>, crlf: Option<nat>)
    requires IsFirst(LfLfAt, s, lf) && IsFirst(CrlfCrlfAt, s, crlf)
    ensures Cut(s) == if crlf.Some? && (lf.None? || crlf.value < lf.value) then Some(crlf.value + 4)
                      else if lf.Some? then Some(lf.value + 2)
                      else None
  {
    forall m | 0 <= m <= |s|
      ensures Closed(s[..m]) <==> (2 <= m && LfLfAt(s, m - 2)) || (4 <= m && CrlfCrlfAt(s, m - 4)) {}
    if crlf.Some? && (lf.None? || crlf.value < lf.value) {
      CutIs(s, crlf.value + 4);
    } else if lf.Some? {
      CutIs(s, lf.value + 2);
    } else {
      CutIsFirstEvent(s);
    }
  }

  function Shifted(r: Option<nat>, pos: nat): Option<nat> {
    match r case None => None case Some(k) => Some(pos + k)
  }

  /** Searching from an offset is searching the rest. */
  lemma SearchFrom(s: string, pos: nat)
    requires pos <= |s|
    ensures NextEnd(s, pos) == Shifted(Cut(s[pos..]), pos)
  {
    SearchShift(s, s[pos..], pos);
    SearchIsFirstEvent(s[pos..]);
  }

  lemma SearchShift(s: string, t: string, pos: nat)
    requires pos <= |s| && t == s[pos..]
    ensures NextEnd(s, pos) == Shifted(NextEnd(t, 0), pos)
  {
    FindShift(s, t, "\n\n", pos, 0);
    FindShift(s, t, "\r\n\r\n", pos, 0);
    EarlierShift(Find(t, "\n\n", 0), Find(t, "\r\n\r\n", 0), pos);
  }

  lemma EarlierShift(lf: Option<nat>, crlf: Option<nat>, pos: nat)
    ensures Earlier(Shifted(lf, pos), Shifted(crlf, pos)) == Shifted(Earlier(lf, crlf), pos)
  {
  }

  lemma OccursShift(s: string, t: string, pat: string, pos: nat, i: nat)
    requires pos <= |s| && t == s[pos..]
    ensures OccursAt(t, pat, i) == OccursAt(s, pat, pos + i)
  {
    if pos + i + |pat| <= |s| { assert t[i..i + |pat|] == s[pos + i..pos + i + |pat|]; }
  }

  lemma {:induction false} FindShift(s: string, t: string, pat: string, pos: nat, i: nat)
    requires pos <= |s| && t == s[pos..]
    ensures Find(s, pat, pos + i) == Shifted(Find(t, pat, i), pos)
    decreases |s| + 1 - i
  {
    OccursShift(s, t, pat, pos, i);
    if pos + i + |pat| <= |s| { FindShift(s, t, pat, pos, i + 1); }
  }

  /** What one search from an offset tells about the framing of the rest. */
  lemma SearchFrames(s: string, pos: nat)
    requires pos <= |s|
    ensures match NextEnd(s, pos)
            case None => Events(s[pos..]) == [] && Rest(s[pos..]) == s[pos..]
            case Some(end) => && pos < end <= |s|
                              && Events(s[pos..]) == [s[pos..end]] + Events(s[end..])
                              && Rest(s[pos..]) == Rest(s[end..])
  {
    SearchFrom(s, pos);
    var rest := s[pos..];
    if Cut(rest).Some? {
      var n := Cut(rest).value;
      assert s[pos..pos + n] == rest[..n] && s[pos + n..] == rest[n..];
    }
  }

  /** An event found in a prefix of the stream is the event of the whole stream. */
  lemma CutStable(s: string, t: string)
    requires Cut(s).Some?
    ensures Cut(s + t) == Cut(s)
  {
    var n := Cut(s).value;
    CutIsFirstEvent(s);
    forall m | 0 <= m <= n ensures (s + t)[..m] == s[..m] {}
    CutIs(s + t, n);
  }

  /** Framing may be resumed at any byte: the hard lemma behind chunk independence. */
  lemma {:induction false} FramingResumes(s: string, t: string)
    ensures Events(s + t) == Events(s) + Events(Rest(s) + t)
    ensures Rest(s + t) == Rest(Rest(s) + t)
    decreases |s|
  {
    match Cut(s) {
      case None =>
      case Some(n) =>
        CutStable(s, t);
        assert (s + t)[..n] == s[..n] && (s + t)[n..] == s[n..] + t;
        FramingResumes(s[n..], t);
    }
  }

  /** Framing loses nothing. */
  lemma {:induction false} FramingConserves(s: string)
    ensures Flatten(Events(s)) + Rest(s) == s
    decreases |s|
  {
    match Cut(s) {
      case None =>
      case Some(n) =>
        FramingConserves(s[n..]);
        FlattenConcat([s[..n]], Events(s[n..]));
        FlattenOne(s[..n]);
        assert s == s[..n] + s[n..];
    }
  }

  /** A byte string that holds no line break. */
  predicate OneLine(s: string) {
    '\n' !in s && '\r' !in s
  }

  /** One or two non-empty lines and a blank one are exactly one event. */
  lemma LinesAreOneEvent(head: string, line: string)
    requires head == "" || (OneLine(head[..|head| - 1]) && head[|head| - 1] == '\n' && |head| > 1)
    requires OneLine(line) && line != ""
    ensures OneEvent(head + line + "\n\n")
  {
    var e := head + line + "\n\n";
    var n := |head| + |line|;
    assert e[n..] == "\n\n";
    forall i | 0 <= i < n ensures e[i] != '\r' && (e[i] == '\n' ==> i == |head| - 1) {
      if i < |head| - 1 { assert e[i] == head[..|head| - 1][i]; }
      else if i >= |head| { assert e[i] == line[i - |head|]; }
    }
    forall m | 0 <= m < |e| ensures !Closed(e[..m]) {
    }
    assert e[..|e|] == e;
    CutIs(e, |e|);
    assert e[|e|..] == "";
  }

  predicate OneEvent(e: string) {
    Events(e) == [e] && Rest(e) == ""
  }

  /** A stream made of single events frames back into them. */
  lemma {:induction false} FramesBack(es: seq<string>)
    requires forall e | e in es :: OneEvent(e)
    ensures Events(Flatten(es)) == es && Rest(Flatten(es)) == ""
  {
    if es != [] {
      var n := |es| - 1;
      FramesBack(es[..n]);
      FramingResumes(Flatten(es[..n]), es[n]);
      assert OneEvent(es[n]);
      assert "" + es[n] == es[n] && es == es[..n] + [es[n]];
    }
  }
}

/** End to end: the text that the provider streams is the text that the client reads. */
module StreamEndToEnd {
  import opened Seqs
  import opened Json
  import opened Sse
  import opened StreamFormats
  import opened StreamRules
  import opened StreamPipe
  import opened StreamPipeTheorems
  import opened StreamMarks

  /** The text of a provider event; events without data carry none. */
  function SourceText(route: Route, e: string): string {
    var f := Scan(e, false);
    if f.data == "" then "" else DeltaText(Parse(route.codec, route.source, f))
  }

  /** Framing yields single events. */
  lemma {:induction false} FramedIsSingle(s: string, e: string)
    requires e in Events(s)
    ensures OneEvent(e)
    decreases |s|
  {
    var n := Cut(s).value;
    var first := s[..n];
    if e in Events(s[n..]) {
      FramedIsSingle(s[n..], e);
    } else {
      CutIsFirstEvent(s);
      assert first[..n] == first && forall m | 0 <= m < n :: first[..m] == s[..m];
      CutIs(first, n);
      assert first[n..] == "";
    }
  }

  /** The client form of an event is one event, and reads as the provider's text. */
  lemma FormReads(route: Route, e: string)
    requires route.mode == CrossProtocol && Lawful(route.codec) && OneEvent(e)
    ensures OneEvent(TransformEvent(route, e))
    ensures EventText(route.codec, route.target, TransformEvent(route, e)) == SourceText(route, e)
  {
    var f := Scan(e, false);
    if f.data != "" {
      var d := Parse(route.codec, route.source, f);
      SerializedIsOneEvent(route.codec, route.target, d);
      SerializedText(route.codec, route.target, d);
    }
  }

  lemma {:induction false} NoPolicyPasses(c: Config, asked: nat, es: seq<string>)
    requires c.policy.None?
    ensures AllPass(c, asked, es)
    decreases |es|
  {
    if es != [] { NoPolicyPasses(c, AskedAfter(c, asked, es[0], Content(c, es[0])), es[1..]); }
  }

  /** Without a policy, a client that never disconnects receives the client form of every event. */
  lemma {:induction false} NeverStops(c: Config, p: Pipe, es: seq<string>)
    requires c.policy.None? && Accepting(c) && !p.stopped
    ensures !Feed(c, p, es).stopped
    decreases |es|
  {
    if es != [] {
      OnEventDelivers(c, p, es[0]);
      NeverStops(c, OnEvent(c, p, es[0]), es[1..]);
    }
  }

  lemma AllDelivered(c: Config, ticks: seq<Tick>) returns (m: nat)
    requires c.policy.None? && Accepting(c)
    ensures TransformLasts(c, ticks, m)
    ensures Transform(c, ticks).pipe.sent == Flatten(Map(c.rules.form, Events(Bytes(ticks[..m]))))
  {
    m := TransformLength(c, ticks);
    var es := Events(Bytes(ticks[..m]));
    TransformFramesOnce(c, ticks[..m]);
    FeedDelivers(c, Start, es);
    NoPolicyPasses(c, 0, es);
    AllPassDelivery(c, es);
    assert "" + Delivery(c, 0, es) == Delivery(c, 0, es);
    if m < |ticks| {
      var run := Transform(c, ticks[..m]);
      NeverStops(c, run.pipe, Events(run.buffer + BytesOf(ticks[m])));
    } else {
      assert ticks[..m] == ticks;
    }
  }

  /**
   * On every cross-protocol route without a policy, whatever the chunking, the clock and the sizes of
   * the client's writes: a client that stays reads exactly the text of the events that were read.
   */
  lemma StreamedTextArrives(c: Config, route: Route, ticks: seq<Tick>) returns (m: nat)
    requires Serves(c, route) && route.mode == CrossProtocol && Lawful(route.codec)
    requires c.policy.None? && Accepting(c)
    ensures TransformLasts(c, ticks, m)
    ensures StreamText(route.codec, route.target, Transform(c, ticks).pipe.sent)
         == Flatten(Map(e => SourceText(route, e), Events(Bytes(ticks[..m]))))
    ensures Rest(Transform(c, ticks).pipe.sent) == ""
  {
    m := AllDelivered(c, ticks);
    var es := Events(Bytes(ticks[..m]));
    var read, text := (e: string) => EventText(route.codec, route.target, e), (e: string) => SourceText(route, e);
    forall e | e in es ensures OneEvent(c.rules.form(e)) && read(c.rules.form(e)) == text(e) {
      FramedIsSingle(Bytes(ticks[..m]), e);
      FormReads(route, e);
    }
    ReadsBack(c.rules.form, read, text, es);
  }
}

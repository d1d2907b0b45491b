// The options of a usage-fields query (src/manage/usage/get_fields_options.rs,
// and its borrowed-string twin src/usage/get_fields_options.rs, which behaves
// the same): a date range, each bound sent only when set.
module FieldsOptions {
  import opened Wrappers
  import opened Query
  import opened FormUrlencoded

  /** The builder's fields; the serialisable struct copies them unchanged. */
  datatype Options = Options(start: Option<string>, end: Option<string>)

  /** What `OptionsBuilder::new` starts from: nothing set. */
  const Initial: Options := Options(None, None)

  /** The query pairs: start before end, absent bounds skipped. */
  function Pairs(o: Options): (ps: seq<Pair>)
    ensures |ps| == (if o.start.Some? then 1 else 0) + (if o.end.Some? then 1 else 0)
  {
    IfSome("start", o.start) + IfSome("end", o.end)
  }

  /** `urlencoded`: the form-urlencoded query text. */
  function Text(o: Options): string
  {
    Urlencoded(Pairs(o))
  }

  /** Each bound is sent once, exactly when set, and start comes first. */
  lemma PairsValues(o: Options)
    ensures Values(Pairs(o), "start") == if o.start.Some? then [o.start.value] else []
    ensures Values(Pairs(o), "end") == if o.end.Some? then [o.end.value] else []
    ensures o.start.Some? ==> Pairs(o)[0] == ("start", o.start.value)
  {
    ValuesAppend(IfSome("start", o.start), IfSome("end", o.end), "start");
    ValuesAppend(IfSome("start", o.start), IfSome("end", o.end), "end");
  }

  /** The query text parses back as the pairs, whatever the bounds hold. */
  lemma TextRoundTrip(o: Options)
    ensures ParsePairs(Text(o)) == Pairs(o)
  {
    ParseUrlencoded(Pairs(o));
  }

  /** With both bounds set the text is `start=` and the encoded start, `&`, then `end=` and the encoded end. */
  lemma TextBothBounds(start: string, end: string)
    ensures Text(Options(Some(start), Some(end))) == ("start=" + Encode(start)) + "&" + ("end=" + Encode(end))
  {
    assert Pairs(Options(Some(start), Some(end))) == [("start", start), ("end", end)];
    StartKey();
    EndKey();
    Text2(("start", start), ("end", end), "start=" + Encode(start), "end=" + Encode(end),
          ("start=" + Encode(start)) + "&" + ("end=" + Encode(end)));
  }

  /** The documented example: the colons of the start bound are written `%3A`, the end bound is unchanged. */
  lemma TextExample()
    ensures Text(Options(Some("2024-04-10T00:00:00Z"), Some("2024-10-10")))
         == ("start=" + "2024-04-10T00%3A00%3A00Z") + "&" + ("end=" + "2024-10-10")
  {
    TextBothBounds("2024-04-10T00:00:00Z", "2024-10-10");
    StartBoundEncoded();
    EndBoundUnchanged();
  }

  /** A bound of the form `a:b:c` is written with both colons as `%3A`. */
  lemma ColonsEncoded(a: string, b: string, c: string)
    requires UnreservedText(a) && UnreservedText(b) && UnreservedText(c)
    ensures Encode(a + ":" + b + ":" + c) == a + "%3A" + b + "%3A" + c
  {
    UnreservedUnchanged(a);
    UnreservedUnchanged(b);
    UnreservedUnchanged(c);
    ColonExamples();
    EncodeAppend(a, ":");
    EncodeAppend(a + ":", b);
    EncodeAppend(a + ":" + b, ":");
    EncodeAppend(a + ":" + b + ":", c);
  }

  // Each literal fact of the example sits in a lemma of its own, which keeps every proof small.

  lemma StartKey()
    ensures PairText(("start", "")) == "start="
  {
    UnreservedUnchanged("start");
  }

  lemma EndKey()
    ensures PairText(("end", "")) == "end="
  {
    UnreservedUnchanged("end");
  }

  lemma ExampleBound()
    ensures "2024-04-10T00" + ":" + "00" + ":" + "00Z" == "2024-04-10T00:00:00Z"
  {
  }

  lemma ExampleBoundEncoded()
    ensures "2024-04-10T00" + "%3A" + "00" + "%3A" + "00Z" == "2024-04-10T00%3A00%3A00Z"
  {
  }

  lemma StartBoundEncoded()
    ensures Encode("2024-04-10T00:00:00Z") == "2024-04-10T00%3A00%3A00Z"
  {
    ExampleBound();
    ExampleBoundEncoded();
    ColonsEncoded("2024-04-10T00", "00", "00Z");
  }

  lemma EndBoundUnchanged()
    ensures Encode("2024-10-10") == "2024-10-10"
  {
    UnreservedUnchanged("2024-10-10");
  }

  /** `OptionsBuilder`: the builder's fields. */
  class OptionsBuilder {
    var options: Options

    /** `OptionsBuilder::new`. */
    constructor()
      ensures options == Initial
    {
      options := Initial;
    }

    /** `start`: overwrites one field. */
    method SetStart(start: string)
      modifies this
      ensures options == old(options).(start := Some(start))
    {
      options := options.(start := Some(start));
    }

    /** `end`: overwrites one field. */
    method SetEnd(end: string)
      modifies this
      ensures options == old(options).(end := Some(end))
    {
      options := options.(end := Some(end));
    }

    /** `build`: the options as set. */
    method Build() returns (o: Options)
      ensures o == options
    {
      o := options;
    }
  }

  // The builder's documented behaviour, as methods that build fresh options.

  /** A second `start` call replaces the first. */
  method StartOverwrites(a: string, b: string) returns (o1: Options, o2: Options)
    ensures o1 == o2
    ensures o1.start == Some(b)
  {
    var b1 := new OptionsBuilder();
    b1.SetStart(a);
    b1.SetStart(b);
    o1 := b1.Build();
    var b2 := new OptionsBuilder();
    b2.SetStart(b);
    o2 := b2.Build();
  }

  /** A second `end` call replaces the first. */
  method EndOverwrites(a: string, b: string) returns (o1: Options, o2: Options)
    ensures o1 == o2
    ensures o1.end == Some(b)
  {
    var b1 := new OptionsBuilder();
    b1.SetEnd(a);
    b1.SetEnd(b);
    o1 := b1.Build();
    var b2 := new OptionsBuilder();
    b2.SetEnd(b);
    o2 := b2.Build();
  }
}

// The options of a request-listing query (src/usage/list_requests_options.rs):
// a date range, a page limit and a status filter, each sent only when set.
module ListRequestsOptions {
  import opened Wrappers
  import opened Query

  /** The request outcome a listing can be filtered by. */
  datatype Status = Succeeded | Failed

  /** The builder's fields. */
  datatype Options = Options(start: Option<string>, end: Option<string>, limit: Option<usize>, status: Option<Status>)

  /** What `OptionsBuilder::new` starts from: nothing set. */
  const Initial: Options := Options(None, None, None, None)

  /** The struct the query is serialised from, with the status already named. */
  datatype Serializable = Serializable(start: Option<string>, end: Option<string>, limit: Option<usize>, status: Option<string>)

  /** The status's wire name. */
  function StatusName(s: Status): (n: string)
    ensures n == "succeeded" <==> s == Succeeded
    ensures n == "failed" <==> s == Failed
  {
    match s
    case Succeeded => "succeeded"
    case Failed => "failed"
  }

  /** `From<&Options> for SerializableOptions`: every field copied, the status by name. */
  function ToSerializable(o: Options): (s: Serializable)
    ensures s.start == o.start && s.end == o.end && s.limit == o.limit
    ensures s.status.Some? <==> o.status.Some?
    ensures o.status == Some(Succeeded) <==> s.status == Some("succeeded")
    ensures o.status == Some(Failed) <==> s.status == Some("failed")
  {
    Serializable(o.start, o.end, o.limit,
      match o.status
      case Some(Succeeded) => Some("succeeded")
      case Some(Failed) => Some("failed")
      case None => None)
  }

  /** Reads a status name back. */
  function ParseStatus(n: string): Option<Status>
  {
    if n == "succeeded" then Some(Succeeded) else if n == "failed" then Some(Failed) else None
  }

  /** The options a serialisable record names, when its status is one of the two names. */
  function FromSerializable(s: Serializable): Option<Options>
  {
    if s.status.None? then Some(Options(s.start, s.end, s.limit, None))
    else match ParseStatus(s.status.value)
      case Some(st) => Some(Options(s.start, s.end, s.limit, Some(st)))
      case None => None
  }

  /** The conversion loses nothing. */
  lemma ConversionRoundTrip(o: Options)
    ensures FromSerializable(ToSerializable(o)) == Some(o)
  {
  }

  /** The query pairs, fields in declaration order with absent ones skipped. */
  function Pairs(o: Serializable): seq<Pair>
  {
    IfSome("start", o.start)
    + IfSome("end", o.end)
    + IfSome("limit", MapOpt(UsizeString, o.limit))
    + IfSome("status", o.status)
  }

  /** None of the keys of this group is `k`. */
  lemma PairsSilent(o: Serializable, k: string)
    requires k != "start" && k != "end" && k != "limit" && k != "status"
    ensures Values(Pairs(o), k) == []
  {
    var p := IfSome("start", o.start);
    ValuesIfSome("start", o.start, k);
    ValuesIfSome("end", o.end, k);
    ValuesDropRight(p, IfSome("end", o.end), k);
    p := p + IfSome("end", o.end);
    ValuesIfSome("limit", MapOpt(UsizeString, o.limit), k);
    ValuesDropRight(p, IfSome("limit", MapOpt(UsizeString, o.limit)), k);
    p := p + IfSome("limit", MapOpt(UsizeString, o.limit));
    ValuesIfSome("status", o.status, k);
    ValuesDropRight(p, IfSome("status", o.status), k);
    p := p + IfSome("status", o.status);
  }

  lemma ProjectStart(o: Serializable)
    ensures Values(Pairs(o), "start") == Values(IfSome("start", o.start), "start")
  {
    var p := IfSome("start", o.start);
    ValuesIfSome("end", o.end, "start");
    ValuesDropRight(p, IfSome("end", o.end), "start");
    p := p + IfSome("end", o.end);
    ValuesIfSome("limit", MapOpt(UsizeString, o.limit), "start");
    ValuesDropRight(p, IfSome("limit", MapOpt(UsizeString, o.limit)), "start");
    p := p + IfSome("limit", MapOpt(UsizeString, o.limit));
    ValuesIfSome("status", o.status, "start");
    ValuesDropRight(p, IfSome("status", o.status), "start");
    p := p + IfSome("status", o.status);
  }

  lemma ProjectEnd(o: Serializable)
    ensures Values(Pairs(o), "end") == Values(IfSome("end", o.end), "end")
  {
    var p := IfSome("start", o.start);
    ValuesIfSome("start", o.start, "end");
    ValuesDropLeft(p, IfSome("end", o.end), "end");
    p := p + IfSome("end", o.end);
    ValuesIfSome("limit", MapOpt(UsizeString, o.limit), "end");
    ValuesDropRight(p, IfSome("limit", MapOpt(UsizeString, o.limit)), "end");
    p := p + IfSome("limit", MapOpt(UsizeString, o.limit));
    ValuesIfSome("status", o.status, "end");
    ValuesDropRight(p, IfSome("status", o.status), "end");
    p := p + IfSome("status", o.status);
  }

  lemma ProjectLimit(o: Serializable)
    ensures Values(Pairs(o), "limit") == Values(IfSome("limit", MapOpt(UsizeString, o.limit)), "limit")
  {
    var p := IfSome("start", o.start);
    ValuesIfSome("start", o.start, "limit");
    ValuesIfSome("end", o.end, "limit");
    ValuesDropRight(p, IfSome("end", o.end), "limit");
    p := p + IfSome("end", o.end);
    ValuesDropLeft(p, IfSome("limit", MapOpt(UsizeString, o.limit)), "limit");
    p := p + IfSome("limit", MapOpt(UsizeString, o.limit));
    ValuesIfSome("status", o.status, "limit");
    ValuesDropRight(p, IfSome("status", o.status), "limit");
    p := p + IfSome("status", o.status);
  }

  lemma ProjectStatus(o: Serializable)
    ensures Values(Pairs(o), "status") == Values(IfSome("status", o.status), "status")
  {
    var p := IfSome("start", o.start);
    ValuesIfSome("start", o.start, "status");
    ValuesIfSome("end", o.end, "status");
    ValuesDropRight(p, IfSome("end", o.end), "status");
    p := p + IfSome("end", o.end);
    ValuesIfSome("limit", MapOpt(UsizeString, o.limit), "status");
    ValuesDropRight(p, IfSome("limit", MapOpt(UsizeString, o.limit)), "status");
    p := p + IfSome("limit", MapOpt(UsizeString, o.limit));
    ValuesDropLeft(p, IfSome("status", o.status), "status");
    p := p + IfSome("status", o.status);
  }

  /** Each field is sent once, exactly when set. */
  lemma PairsValues(o: Options)
    ensures Values(Pairs(ToSerializable(o)), "start") == if o.start.Some? then [o.start.value] else []
    ensures Values(Pairs(ToSerializable(o)), "end") == if o.end.Some? then [o.end.value] else []
    ensures Values(Pairs(ToSerializable(o)), "limit") == if o.limit.Some? then [NatString(o.limit.value)] else []
    ensures Values(Pairs(ToSerializable(o)), "status") == if o.status.Some? then [StatusName(o.status.value)] else []
  {
    var s := ToSerializable(o);
    ProjectStart(s);
    ValuesIfSome("start", s.start, "start");
    ProjectEnd(s);
    ValuesIfSome("end", s.end, "end");
    ProjectLimit(s);
    ValuesIfSome("limit", MapOpt(UsizeString, s.limit), "limit");
    ProjectStatus(s);
    ValuesIfSome("status", s.status, "status");
  }

  /** A fresh builder sends nothing. */
  lemma InitialPairs()
    ensures Pairs(ToSerializable(Initial)) == []
  {
  }

  /** `OptionsBuilder`: the builder's fields. */
  class OptionsBuilder {
    var options: Options

    /** `OptionsBuilder::new`. */
    constructor()
      ensures options == Initial
    {
      options := Initial;
    }

    /** `start`: overwrites one field. */
    method SetStart(start: string)
      modifies this
      ensures options == old(options).(start := Some(start))
    {
      options := options.(start := Some(start));
    }

    /** `end`: overwrites one field. */
    method SetEnd(end: string)
      modifies this
      ensures options == old(options).(end := Some(end))
    {
      options := options.(end := Some(end));
    }

    /** `limit`: overwrites one field. */
    method SetLimit(limit: usize)
      modifies this
      ensures options == old(options).(limit := Some(limit))
    {
      options := options.(limit := Some(limit));
    }

    /** `status`: overwrites one field. */
    method SetStatus(status: Status)
      modifies this
      ensures options == old(options).(status := Some(status))
    {
      options := options.(status := Some(status));
    }

    /** `build`: the options as set. */
    method Build() returns (o: Options)
      ensures o == options
    {
      o := options;
    }
  }

  // The builder's documented behaviour, as methods that build fresh options.

  /** A second `status` call replaces the first. */
  method StatusOverwrites(a: Status, b: Status) returns (o1: Options, o2: Options)
    ensures o1 == o2
    ensures o1.status == Some(b)
  {
    var b1 := new OptionsBuilder();
    b1.SetStatus(a);
    b1.SetStatus(b);
    o1 := b1.Build();
    var b2 := new OptionsBuilder();
    b2.SetStatus(b);
    o2 := b2.Build();
  }
}

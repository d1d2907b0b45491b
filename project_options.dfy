// The options of a project update (src/manage/projects/options.rs, and its
// borrowed-string twin src/projects/options.rs, which behaves the same): a
// name and a company, sent as a JSON body holding only the fields that are set.
module ProjectOptions {
  import opened Wrappers
  import opened Json

  /** The builder's fields; the serialisable struct copies them unchanged. */
  datatype Options = Options(name: Option<string>, company: Option<string>)

  /** What `OptionsBuilder::new` starts from: nothing set. */
  const Initial: Options := Options(None, None)

  /** One member per field that is set (`skip_serializing_if = "Option::is_none"`). */
  function Member(k: string, v: Option<string>): (m: seq<(string, Json)>)
    ensures |m| <= 1 && forall i :: 0 <= i < |m| ==> m[i].0 == k
  {
    if v.Some? then [(k, Str(v.value))] else []
  }

  /** The JSON body: name before company. */
  function Body(o: Options): Json
  {
    Obj(Member("name", o.name) + Member("company", o.company))
  }

  /** A field read back from the body: absent means unset. */
  function ReadField(v: Json, k: string): Option<Option<string>>
  {
    match Get(v, k)
    case None => Some(None)
    case Some(Str(x)) => Some(Some(x))
    case Some(_) => None
  }

  /** How a receiver reads the body back. */
  function ReadBody(v: Json): Option<Options>
  {
    match (ReadField(v, "name"), ReadField(v, "company"))
    case (Some(n), Some(c)) => Some(Options(n, c))
    case _ => None
  }

  /** The body reads back as the options: each field is sent exactly when set. */
  lemma BodyRoundTrip(o: Options)
    ensures ReadBody(Body(o)) == Some(o)
    ensures Get(Body(o), "name").Some? <==> o.name.Some?
    ensures Get(Body(o), "company").Some? <==> o.company.Some?
  {
    LookupSkip(Member("name", o.name), Member("company", o.company), "name");
    if o.company.None? {
      LookupSkip(Member("name", o.name), Member("company", o.company), "company");
      LookupSkip([], Member("name", o.name), "company");
      assert [] + Member("name", o.name) == Member("name", o.name);
    }
  }

  /** A fresh builder sends an empty object. */
  lemma InitialBody()
    ensures Body(Initial) == Obj([])
  {
  }

  /** `OptionsBuilder`: the builder's fields. */
  class OptionsBuilder {
    var options: Options

    /** `OptionsBuilder::new`. */
    constructor()
      ensures options == Initial
    {
      options := Initial;
    }

    /** `name`: overwrites one field. */
    method SetName(name: string)
      modifies this
      ensures options == old(options).(name := Some(name))
    {
      options := options.(name := Some(name));
    }

    /** `company`: overwrites one field. */
    method SetCompany(company: string)
      modifies this
      ensures options == old(options).(company := Some(company))
    {
      options := options.(company := Some(company));
    }

    /** `build`: the options as set. */
    method Build() returns (o: Options)
      ensures o == options
    {
      o := options;
    }
  }

  // The builder's documented behaviour, as methods that build fresh options.

  /** A second `name` call replaces the first. */
  method NameOverwrites(a: string, b: string) returns (o1: Options, o2: Options)
    ensures o1 == o2
    ensures o1.name == Some(b)
  {
    var b1 := new OptionsBuilder();
    b1.SetName(a);
    b1.SetName(b);
    o1 := b1.Build();
    var b2 := new OptionsBuilder();
    b2.SetName(b);
    o2 := b2.Build();
  }

  /** A second `company` call replaces the first. */
  method CompanyOverwrites(a: string, b: string) returns (o1: Options, o2: Options)
    ensures o1 == o2
    ensures o1.company == Some(b)
  {
    var b1 := new OptionsBuilder();
    b1.SetCompany(a);
    b1.SetCompany(b);
    o1 := b1.Build();
    var b2 := new OptionsBuilder();
    b2.SetCompany(b);
    o2 := b2.Build();
  }
}

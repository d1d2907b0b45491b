// An abstract JSON value, standing for the parsed `serde_json::Value` the
// decoders read and the bodies the serialisers produce. Text parsing and
// printing are not modelled: a value is the tree that text denotes.
module Json {
  import opened Wrappers

  /** A JSON number: an integer, or any other numeral kept as its text. */
  datatype Number = Int(i: int) | Float(text: string)

  /** A JSON value; an object keeps its members in text order. */
  datatype Json =
    | Null
    | Bool(b: bool)
    | Num(n: Number)
    | Str(s: string)
    | Arr(items: seq<Json>)
    | Obj(members: seq<(string, Json)>)

  /** The value stored under `k`; with a repeated key the later member wins, as when a map is built member by member. */
  function Lookup(members: seq<(string, Json)>, k: string): (r: Option<Json>)
    ensures r.None? <==> forall i :: 0 <= i < |members| ==> members[i].0 != k
  {
    if members == [] then None
    else if members[|members| - 1].0 == k then Some(members[|members| - 1].1)
    else Lookup(members[..|members| - 1], k)
  }

  /** `value.get(k)`: the member `k` of an object; nothing for any other value. */
  function Get(v: Json, k: string): Option<Json>
  {
    if v.Obj? then Lookup(v.members, k) else None
  }

  /** `value.get(k).and_then(as_str)`. */
  function GetString(v: Json, k: string): (r: Option<string>)
    ensures r.Some? <==> Get(v, k).Some? && Get(v, k).value.Str?
  {
    var m := Get(v, k);
    if m.Some? && m.value.Str? then Some(m.value.s) else None
  }

  /** An appended member is what a later lookup finds. */
  lemma LookupLast(members: seq<(string, Json)>, k: string, v: Json)
    ensures Lookup(members + [(k, v)], k) == Some(v)
  {
  }

  /** A member with another key does not hide earlier ones. */
  lemma LookupOther(members: seq<(string, Json)>, k: string, k': string, v: Json)
    requires k != k'
    ensures Lookup(members + [(k', v)], k) == Lookup(members, k)
  {
    assert (members + [(k', v)])[..|members|] == members;
  }

  /** Members that do not carry `k` can be passed over. */
  lemma {:induction false} LookupSkip(a: seq<(string, Json)>, b: seq<(string, Json)>, k: string)
    requires forall i :: 0 <= i < |b| ==> b[i].0 != k
    ensures Lookup(a + b, k) == Lookup(a, k)
    decreases |b|
  {
    if b != [] {
      var b' := b[..|b| - 1];
      var ab := a + b;
      assert ab[|ab| - 1] == b[|b| - 1];
      assert ab[|ab| - 1].0 != k;
      assert ab[..|ab| - 1] == a + b';
      assert Lookup(ab, k) == Lookup(a + b', k);
      LookupSkip(a, b', k);
    } else {
      assert a + b == a;
    }
  }

  /** A member that no later member shadows is what a lookup finds. */
  lemma {:induction false} LookupAt(members: seq<(string, Json)>, i: int, k: string)
    requires 0 <= i < |members| && members[i].0 == k
    requires forall j :: i < j < |members| ==> members[j].0 != k
    ensures Lookup(members, k) == Some(members[i].1)
  {
    var a := members[..i + 1];
    var b := members[i + 1..];
    assert members == a + b;
    forall j | 0 <= j < |b|
      ensures b[j].0 != k
    {
      assert b[j] == members[i + 1 + j];
    }
    LookupSkip(a, b, k);
    assert a[|a| - 1] == members[i];
  }

  /** Strings as JSON strings. */
  function StrArr(xs: seq<string>): (r: seq<Json>)
    ensures |r| == |xs|
    ensures forall i :: 0 <= i < |xs| ==> r[i] == Str(xs[i])
  {
    if xs == [] then [] else [Str(xs[0])] + StrArr(xs[1..])
  }

  /** The strings an array of JSON strings holds. */
  function Strings(items: seq<Json>): (r: Option<seq<string>>)
    ensures r.Some? <==> forall i :: 0 <= i < |items| ==> items[i].Str?
    ensures r.Some? ==> |r.value| == |items| && forall i :: 0 <= i < |items| ==> items[i] == Str(r.value[i])
  {
    if items == [] then Some([])
    else if !items[0].Str? then None
    else
      var rest := Strings(items[1..]);
      if rest.None? then
        assert exists i :: 0 <= i < |items[1..]| && !items[1..][i].Str?;
        None
      else
        Some([items[0].s] + rest.value)
  }

  /** Reading back an array of strings gives the strings. */
  lemma StringsStrArr(xs: seq<string>)
    ensures Strings(StrArr(xs)) == Some(xs)
  {
    var r := Strings(StrArr(xs));
    assert r.value == xs;
  }
}

/** The JSON values the canvas serialiser produces: integers, strings, arrays and
    objects whose members keep their insertion order, as a Python dict does. */
module Json {
  import opened Wrappers

  datatype Value =
    | JInt(n: int)
    | JString(s: string)
    | JArray(elems: seq<Value>)
    | JObject(fields: seq<(string, Value)>)

  /** The keys of an object, in order. */
  function Keys(fields: seq<(string, Value)>): (ks: seq<string>)
    ensures |ks| == |fields|
    ensures forall i :: 0 <= i < |fields| ==> ks[i] == fields[i].0
  {
    seq(|fields|, i requires 0 <= i < |fields| => fields[i].0)
  }

  /** The dictionary a JSON reader builds from an object: a later member with the
      same key overrides an earlier one. */
  function ToMap(fields: seq<(string, Value)>): map<string, Value> {
    if fields == [] then map[]
    else ToMap(fields[..|fields| - 1])[fields[|fields| - 1].0 := fields[|fields| - 1].1]
  }

  /** Reading an object built from two parts is reading the second part over the first. */
  lemma {:induction false} ToMapAppend(a: seq<(string, Value)>, b: seq<(string, Value)>)
    ensures ToMap(a + b) == ToMap(a) + ToMap(b)
    decreases |b|
  {
    if b == [] {
      assert a + b == a;
    } else {
      var b' := b[..|b| - 1];
      var last := b[|b| - 1];
      assert (a + b)[..|a + b| - 1] == a + b';
      assert (a + b)[|a + b| - 1] == last;
      ToMapAppend(a, b');
    }
  }

  lemma ToMapSingle(key: string, v: Value)
    ensures ToMap([(key, v)]) == map[key := v]
  {
    assert [(key, v)][..0] == [];
  }

  /** The member a reader finds under `key`, if any. */
  function Get(m: map<string, Value>, key: string): Option<Value> {
    if key in m then Some(m[key]) else None
  }

  function GetString(m: map<string, Value>, key: string): Option<string> {
    match Get(m, key)
    case Some(JString(s)) => Some(s)
    case _ => None
  }

  function GetInt(m: map<string, Value>, key: string): Option<int> {
    match Get(m, key)
    case Some(JInt(n)) => Some(n)
    case _ => None
  }
}

/** The JSON values the program builds and inspects (nlohmann::json), with the
    accessors it uses. Text parsing and dump() are outside the model: a transport
    body is either a parsed document or a parse failure. */
module Json {
  import opened Wrappers
  import opened Strings
  import opened OrderedMap

  datatype Json =
    | JNull
    | JBool(b: bool)
    | JInt(i: int)
    | JFloat(r: real)
    | JStr(s: string)
    | JArr(items: seq<Json>)
    | JObj(fields: OMap<Json>)

  /** A text body after nlohmann::json::parse: a value, or the parse error's what(). */
  datatype Body = Parsed(doc: Json) | Unparsable(what: string)

  /** basic_json::type_name(). */
  function TypeName(j: Json): (r: string)
    ensures r in {"null", "boolean", "number", "string", "array", "object"}
  {
    match j
    case JNull => "null"
    case JBool(_) => "boolean"
    case JInt(_) => "number"
    case JFloat(_) => "number"
    case JStr(_) => "string"
    case JArr(_) => "array"
    case JObj(_) => "object"
  }

  const TypeError302 := "[json.exception.type_error.302] "
  const TypeError305 := "[json.exception.type_error.305] "
  const TypeError306 := "[json.exception.type_error.306] "

  /** j.contains(key): false for every non-object. */
  predicate Has(j: Json, key: string)
  {
    j.JObj? && HasKey(j.fields, key)
  }

  /** The value stored under a key j contains; null when it does not. */
  function Member(j: Json, key: string): (r: Json)
    ensures Has(j, key) ==> (key, r) in j.fields
  {
    if Has(j, key) then Get(j.fields, key).value else JNull
  }

  /** Non-const j[key]: null reads as an empty object, a missing key reads as null,
      any other type throws type_error.305. */
  function At(j: Json, key: string): (r: Outcome<Json>)
    ensures r.Ok? <==> j.JNull? || j.JObj?
    ensures Has(j, key) ==> r == Ok(Get(j.fields, key).value)
    ensures r.Ok? && !Has(j, key) ==> r.value == JNull
  {
    match j
    case JNull => Ok(JNull)
    case JObj(fs) =>
      (match Get(fs, key) case Some(v) => Ok(v) case None => Ok(JNull))
    case _ => Throw(TypeError305 + "cannot use operator[] with a string argument with " + TypeName(j))
  }

  /** Non-const j[idx]: null reads as an empty array, an index past the end reads as
      null (the array is padded), any other type throws type_error.305. */
  function AtIndex(j: Json, idx: nat): (r: Outcome<Json>)
    ensures r.Ok? <==> j.JNull? || j.JArr?
    ensures j.JArr? && idx < |j.items| ==> r == Ok(j.items[idx])
  {
    match j
    case JNull => Ok(JNull)
    case JArr(items) => if idx < |items| then Ok(items[idx]) else Ok(JNull)
    case _ => Throw(TypeError305 + "cannot use operator[] with a numeric argument with " + TypeName(j))
  }

  /** j.empty(): null is empty, arrays and objects when they have no element, every
      other value (the empty string included) is not. */
  predicate IsEmpty(j: Json)
  {
    match j
    case JNull => true
    case JArr(items) => |items| == 0
    case JObj(fs) => |fs| == 0
    case _ => false
  }

  /** Conversion to std::string. */
  function AsString(j: Json): (r: Outcome<string>)
    ensures r.Ok? <==> j.JStr?
    ensures j.JStr? ==> r == Ok(j.s)
  {
    if j.JStr? then Ok(j.s) else Throw(TypeError302 + "type must be string, but is " + TypeName(j))
  }

  /** Truncation toward zero, as static_cast<int>(double) does. */
  function TruncReal(x: real): (r: int)
    ensures x >= 0.0 ==> r as real <= x < r as real + 1.0
    ensures x < 0.0 ==> r as real - 1.0 < x <= r as real
  {
    if x >= 0.0 then x.Floor else -((-x).Floor)
  }

  /** Conversion to int: numbers (floats truncated) and booleans convert, anything
      else throws type_error.302. The int range is not modelled. */
  function AsInt(j: Json): (r: Outcome<int>)
    ensures r.Ok? <==> j.JInt? || j.JFloat? || j.JBool?
    ensures j.JInt? ==> r == Ok(j.i)
  {
    match j
    case JInt(i) => Ok(i)
    case JFloat(x) => Ok(TruncReal(x))
    case JBool(b) => Ok(if b then 1 else 0)
    case _ => Throw(TypeError302 + "type must be number, but is " + TypeName(j))
  }

  /** Conversion to double: only numbers convert. Unlike the conversion to int, a
      boolean throws type_error.302 too. */
  function AsReal(j: Json): (r: Outcome<real>)
    ensures r.Ok? <==> j.JInt? || j.JFloat?
    ensures j.JInt? ==> r == Ok(j.i as real)
    ensures j.JFloat? ==> r == Ok(j.r)
    ensures r.Throw? ==> r.what == TypeError302 + "type must be number, but is " + TypeName(j)
  {
    match j
    case JInt(i) => Ok(i as real)
    case JFloat(x) => Ok(x)
    case _ => Throw(TypeError302 + "type must be number, but is " + TypeName(j))
  }

  /** A boolean reads as an int but not as a double. */
  lemma BoolNotReal()
    ensures AsInt(JBool(true)) == Ok(1) && AsInt(JBool(false)) == Ok(0)
    ensures AsReal(JBool(true)) == Throw(TypeError302 + "type must be number, but is boolean")
  {
  }

  /** Conversion to bool. */
  function AsBool(j: Json): (r: Outcome<bool>)
    ensures r.Ok? <==> j.JBool?
    ensures j.JBool? ==> r == Ok(j.b)
  {
    if j.JBool? then Ok(j.b) else Throw(TypeError302 + "type must be boolean, but is " + TypeName(j))
  }

  /** All values of an object converted to strings, or the first failure. */
  function StringFields(fs: seq<(string, Json)>): (r: Outcome<seq<(string, string)>>)
    ensures r.Ok? ==> |r.value| == |fs| && forall i :: 0 <= i < |fs| ==> r.value[i].0 == fs[i].0
  {
    if |fs| == 0 then Ok([])
    else
      var v :- AsString(fs[0].1);
      var rest :- StringFields(fs[1..]);
      Ok([(fs[0].0, v)] + rest)
  }

  /** Conversion to std::map<std::string, std::string>: an object whose values are
      all strings. */
  function AsStringMap(j: Json): (r: Outcome<OMap<string>>)
    ensures r.Ok? ==> j.JObj? && Keys(r.value) == Keys(j.fields)
    ensures r.Ok? && Increasing(j.fields) ==> Increasing(r.value)
  {
    if !j.JObj? then Throw(TypeError302 + "type must be object, but is " + TypeName(j))
    else
      var vs :- StringFields(j.fields);
      assert Increasing(j.fields) ==> Increasing(vs) by {
        if Increasing(j.fields) {
          forall a, b | 0 <= a < b < |vs| ensures StrLt(KeyAt(vs, a), KeyAt(vs, b)) {
            assert vs[a].0 == j.fields[a].0 && vs[b].0 == j.fields[b].0;
            assert StrLt(KeyAt(j.fields, a), KeyAt(j.fields, b));
          }
        }
      }
      Ok(vs)
  }

  /** A string map as a JSON object of strings. */
  function FromStringMap(m: OMap<string>): (r: Json)
    ensures r.JObj? && Keys(r.fields) == Keys(m)
    ensures Increasing(m) ==> Increasing(r.fields)
  {
    var fs := seq(|m|, i requires 0 <= i < |m| => (m[i].0, JStr(m[i].1)));
    assert Increasing(m) ==> Increasing(fs) by {
      if Increasing(m) {
        forall a, b | 0 <= a < b < |fs| ensures StrLt(KeyAt(fs, a), KeyAt(fs, b)) {
          assert fs[a].0 == m[a].0 && fs[b].0 == m[b].0;
          assert StrLt(KeyAt(m, a), KeyAt(m, b));
        }
      }
    }
    JObj(fs)
  }

  lemma {:induction false} StringFieldsOfStrings(m: seq<(string, string)>)
    ensures StringFields(seq(|m|, i requires 0 <= i < |m| => (m[i].0, JStr(m[i].1)))) == Ok(m)
  {
    var fs := seq(|m|, i requires 0 <= i < |m| => (m[i].0, JStr(m[i].1)));
    if |m| > 0 {
      var tail := m[1..];
      StringFieldsOfStrings(tail);
      assert fs[1..] == seq(|tail|, i requires 0 <= i < |tail| => (tail[i].0, JStr(tail[i].1)));
      assert m == [m[0]] + tail;
    }
  }

  /** Converting a string map to JSON and back gives the same map. */
  lemma StringMapRoundTrip(m: OMap<string>)
    ensures AsStringMap(FromStringMap(m)) == Ok(m)
  {
    StringFieldsOfStrings(m);
  }

  /** j.value(key, default) with a conversion: non-objects throw type_error.306, a
      missing key gives the default, a present one is converted (and may throw). */
  function ValueOr<T>(j: Json, key: string, default: T, conv: Json -> Outcome<T>): (r: Outcome<T>)
    ensures !j.JObj? ==> r.Throw?
    ensures j.JObj? && !HasKey(j.fields, key) ==> r == Ok(default)
    ensures j.JObj? && HasKey(j.fields, key) ==> r == conv(Get(j.fields, key).value)
  {
    if !j.JObj? then Throw(TypeError306 + "cannot use value() with " + TypeName(j))
    else match Get(j.fields, key)
      case None => Ok(default)
      case Some(v) => conv(v)
  }

  /** j[key] = v on an object or null (null becomes an object first). */
  function Set(j: Json, key: string, v: Json): (r: Json)
    requires j.JNull? || j.JObj?
    ensures r.JObj? && Get(r.fields, key) == Some(v)
    ensures j.JObj? ==> forall k :: k != key ==> Get(r.fields, k) == Get(j.fields, k)
    ensures j.JNull? ==> forall k :: k != key ==> Get(r.fields, k) == None
    ensures (j.JNull? || Increasing(j.fields)) ==> Increasing(r.fields)
  {
    match j
    case JObj(fs) => JObj(Insert(fs, key, v))
    case JNull => JObj(Insert([], key, v))
  }

  predicate DistinctKeys(pairs: seq<(string, Json)>)
  {
    forall a, b :: 0 <= a < b < |pairs| ==> KeyAt(pairs, a) != KeyAt(pairs, b)
  }

  /** The assignments j[k] = v for each pair, one after another, on a null value. */
  function SetAll(pairs: seq<(string, Json)>): (r: Json)
    ensures r.JNull? <==> |pairs| == 0
    ensures r.JNull? || (r.JObj? && Increasing(r.fields))
  {
    if |pairs| == 0 then JNull
    else Set(SetAll(pairs[..|pairs| - 1]), pairs[|pairs| - 1].0, pairs[|pairs| - 1].1)
  }

  lemma SetAllLast(pairs: seq<(string, Json)>)
    requires |pairs| > 0
    ensures SetAll(pairs) == Set(SetAll(pairs[..|pairs| - 1]), pairs[|pairs| - 1].0, pairs[|pairs| - 1].1)
  {
  }

  lemma SetAllSnoc(pairs: seq<(string, Json)>, p: (string, Json))
    ensures SetAll(pairs + [p]) == Set(SetAll(pairs), p.0, p.1)
  {
    assert (pairs + [p])[..|pairs|] == pairs;
  }

  lemma DistinctPrefix(pairs: seq<(string, Json)>, n: nat)
    requires DistinctKeys(pairs) && n <= |pairs|
    ensures DistinctKeys(pairs[..n])
  {
    var prefix := pairs[..n];
    forall a, b | 0 <= a < b < |prefix| ensures KeyAt(prefix, a) != KeyAt(prefix, b) {
      assert prefix[a] == pairs[a] && prefix[b] == pairs[b];
      assert KeyAt(pairs, a) != KeyAt(pairs, b);
    }
  }

  /** With distinct keys, every assigned key reads back its own value. */
  lemma {:induction false} SetAllGet(pairs: seq<(string, Json)>, i: nat)
    requires DistinctKeys(pairs) && i < |pairs|
    ensures SetAll(pairs).JObj? && Get(SetAll(pairs).fields, pairs[i].0) == Some(pairs[i].1)
    decreases |pairs|
  {
    var n := |pairs| - 1;
    if i < n {
      DistinctPrefix(pairs, n);
      SetAllGet(pairs[..n], i);
      LaterAssignmentKeeps(pairs, i);
      assert Get(SetAll(pairs).fields, pairs[i].0) == Some(pairs[i].1);
    } else {
      assert i == n;
      LastAssignmentReads(pairs);
    }
  }

  /** The last assignment reads back its own value. */
  lemma LastAssignmentReads(pairs: seq<(string, Json)>)
    requires |pairs| > 0
    ensures SetAll(pairs).JObj? && Get(SetAll(pairs).fields, pairs[|pairs| - 1].0) == Some(pairs[|pairs| - 1].1)
  {
    var n := |pairs| - 1;
    var prev := SetAll(pairs[..n]);
    assert SetAll(pairs) == Set(prev, pairs[n].0, pairs[n].1);
  }

  /** A later assignment to another key leaves an earlier one readable. */
  lemma LaterAssignmentKeeps(pairs: seq<(string, Json)>, i: nat)
    requires DistinctKeys(pairs) && i < |pairs| - 1
    requires Get(SetAll(pairs[..|pairs| - 1]).fields, pairs[i].0) == Some(pairs[i].1)
    ensures Get(SetAll(pairs).fields, pairs[i].0) == Some(pairs[i].1)
  {
    var n := |pairs| - 1;
    var prev := SetAll(pairs[..n]);
    assert KeyAt(pairs, i) != KeyAt(pairs, n);
    assert SetAll(pairs) == Set(prev, pairs[n].0, pairs[n].1);
  }

  /** The value of k after the assignments: the last one's when it assigns k,
      otherwise the value before it (none before the first). */
  lemma SetAllStep(pairs: seq<(string, Json)>, k: string)
    requires |pairs| > 0
    ensures var n := |pairs| - 1;
            Get(SetAll(pairs).fields, k)
              == if pairs[n].0 == k then Some(pairs[n].1)
                 else if n == 0 then None
                 else Get(SetAll(pairs[..n]).fields, k)
  {
    SetAllLast(pairs);
  }

  /** The keys of an object built by assignments are exactly the keys assigned. */
  lemma {:induction false} SetAllHasKey(pairs: seq<(string, Json)>, k: string)
    requires |pairs| > 0
    ensures HasKey(SetAll(pairs).fields, k) <==> HasKey(pairs, k)
    decreases |pairs|
  {
    var n := |pairs| - 1;
    var prefix := pairs[..n];
    SetAllStep(pairs, k);
    assert pairs == prefix + [pairs[n]];
    HasKeySnoc(prefix, pairs[n], k);
    if k != pairs[n].0 && n > 0 {
      SetAllHasKey(prefix, k);
    }
  }
}

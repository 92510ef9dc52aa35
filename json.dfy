/** JSON values as the JavaScript source handles them: request bodies, configs, metadata. */
module Json {
  import opened Wrappers
  import opened Strings

  datatype Value =
    | Null
    | Bool(b: bool)
    | Num(n: real)
    | Str(s: string)
    | Arr(items: seq<Value>)
    | Obj(fields: map<string, Value>)

  /** JavaScript truthiness (`if (v)`, `v || d`); NaN is not a value of this model. */
  predicate Truthy(v: Value)
  {
    match v
    case Null => false
    case Bool(b) => b
    case Num(n) => n != 0.0
    case Str(s) => s != ""
    case Arr(_) => true
    case Obj(_) => true
  }

  /** `v.key` for an own property of a plain object; `None` is `undefined`. */
  function Field(v: Value, key: string): (r: Option<Value>)
    ensures r.Some? <==> v.Obj? && key in v.fields
  {
    if v.Obj? && key in v.fields then Some(v.fields[key]) else None
  }

  /** `v && typeof v === 'object' && !Array.isArray(v)`: a plain object. */
  predicate IsPlainObject(v: Value)
  {
    v.Obj?
  }

  /** The index-keyed properties of an array-like of length `n` (`{...array}`, `{...string}`). */
  function Indexed(a: seq<Value>, n: nat): (m: map<string, Value>)
    requires n <= |a|
    ensures forall i :: 0 <= i < n ==> NatToString(i) in m && m[NatToString(i)] == a[i]
  {
    if n == 0 then map[]
    else
      var m := Indexed(a, n - 1);
      var r := m[NatToString(n - 1) := a[n - 1]];
      assert forall i :: 0 <= i < n - 1 ==> r[NatToString(i)] == a[i] by {
        forall i | 0 <= i < n - 1 ensures r[NatToString(i)] == a[i] {
          NatToStringInjective(i, n - 1);
        }
      }
      r
  }

  /** Every key of `Indexed(a, n)` is the decimal form of an index below `n`. */
  lemma {:induction false} IndexedKeys(a: seq<Value>, n: nat, k: string)
    requires n <= |a| && k in Indexed(a, n)
    ensures exists i :: 0 <= i < n && k == NatToString(i)
  {
    if k != NatToString(n - 1) {
      IndexedKeys(a, n - 1, k);
    }
  }

  /** The one-character strings of `s`. */
  function Chars(s: string): (r: seq<Value>)
    ensures |r| == |s|
    ensures forall i :: 0 <= i < |s| ==> r[i] == Str([s[i]])
  {
    if s == [] then [] else [Str([s[0]])] + Chars(s[1..])
  }

  /**
   * The own enumerable properties that object spread `{...v}` copies: an
   * object's fields, an array's or a string's indices, nothing for the rest.
   */
  function Spread(v: Value): map<string, Value>
  {
    match v
    case Obj(m) => m
    case Arr(a) => Indexed(a, |a|)
    case Str(s) => Indexed(Chars(s), |s|)
    case _ => map[]
  }

  /**
   * Whether `String(v).trim()` is empty, with `null` read as an array element
   * (which `join` renders as ""): a boolean, a number or an object always
   * renders as visible text, an array joins its elements with ",".
   */
  predicate StringFormBlank(v: Value)
  {
    match v
    case Null => true
    case Bool(_) => false
    case Num(_) => false
    case Str(s) => Trim(s) == ""
    case Obj(_) => false
    case Arr(a) => |a| == 0 || (|a| == 1 && StringFormBlank(a[0]))
  }
}

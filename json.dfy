/**
  JSON values, and the way ECMAScript's `Object.keys` and object spread
  (`{...v}`) see a value as a bag of string-keyed properties.
 */
module Json {
  import opened Wrappers

  /** A JSON value as a JSON text parser produces it. */
  datatype Value =
    | Null
    | Bool(b: bool)
    | Num(n: real)
    | Str(s: string)
    | Arr(elems: seq<Value>)
    | Obj(fields: map<string, Value>)

  /** A plain object: its own enumerable properties, by name. */
  type Object = map<string, Value>

  /** True of a non-empty string made only of the decimal digits. */
  predicate AllDigits(k: string)
  {
    |k| > 0 && forall i :: 0 <= i < |k| ==> '0' <= k[i] <= '9'
  }

  /** The character of the decimal digit `d`. */
  function Digit(d: nat): (c: char)
    requires d < 10
    ensures '0' <= c <= '9'
    ensures c as int - '0' as int == d
  {
    ('0' as int + d) as char
  }

  /**
    The property name under which an array element or a string character
    with index `n` is seen: the shortest decimal spelling of `n`.
   */
  function IndexKey(n: nat): (k: string)
    ensures AllDigits(k)
    ensures |k| == 1 <==> n < 10
  {
    if n < 10 then [Digit(n)] else IndexKey(n / 10) + [Digit(n % 10)]
  }

  /** The number a string of decimal digits spells. */
  function KeyIndex(k: string): (n: nat)
  {
    if k == [] then 0
    else
      var d := k[|k| - 1] as int - '0' as int;
      KeyIndex(k[..|k| - 1]) * 10 + (if 0 <= d then d else 0)
  }

  /** Reading an index's property name back gives the index. */
  lemma {:induction false} KeyIndexOfIndexKey(n: nat)
    ensures KeyIndex(IndexKey(n)) == n
  {
    var k := IndexKey(n);
    if n < 10 {
      assert k[..|k| - 1] == [];
    } else {
      assert k[..|k| - 1] == IndexKey(n / 10);
      KeyIndexOfIndexKey(n / 10);
    }
  }

  /** Distinct indices have distinct property names. */
  lemma IndexKeyInjective(n: nat, m: nat)
    requires IndexKey(n) == IndexKey(m)
    ensures n == m
  {
    KeyIndexOfIndexKey(n);
    KeyIndexOfIndexKey(m);
  }

  /** The properties of an array-like value: element `i` under `IndexKey(i)`. */
  function Indexed(elems: seq<Value>): (m: Object)
    ensures |m| == |elems|
    ensures forall i :: 0 <= i < |elems| ==> IndexKey(i) in m && m[IndexKey(i)] == elems[i]
    ensures forall k :: k in m ==> AllDigits(k) && KeyIndex(k) < |elems|
  {
    if elems == [] then map[]
    else
      var n := |elems| - 1;
      var prev := Indexed(elems[..n]);
      var key := IndexKey(n);
      KeyIndexOfIndexKey(n);
      assert key !in prev;
      prev[key := elems[n]]
  }

  /** The one-character strings of `s`, in order, as a string spreads into them. */
  function Characters(s: string): (r: seq<Value>)
    ensures |r| == |s|
    ensures forall i :: 0 <= i < |s| ==> r[i] == Str([s[i]])
  {
    seq(|s|, i requires 0 <= i < |s| => Str([s[i]]))
  }

  /**
    The own enumerable properties of `v` as `Object.keys(v)` and `{...v}`
    see them. `None` stands for the TypeError both throw on `null`.
   */
  function OwnEntries(v: Value): (r: Option<Object>)
    ensures r.None? <==> v.Null?
    ensures v.Obj? ==> r == Some(v.fields)
    ensures v.Bool? || v.Num? ==> r == Some(map[])
    ensures v.Arr? ==> r.Some? && |r.value| == |v.elems|
    ensures v.Arr? ==> forall i :: 0 <= i < |v.elems| ==>
      IndexKey(i) in r.value && r.value[IndexKey(i)] == v.elems[i]
    ensures v.Str? ==> r.Some? && |r.value| == |v.s|
    ensures v.Str? ==> forall i :: 0 <= i < |v.s| ==>
      IndexKey(i) in r.value && r.value[IndexKey(i)] == Str([v.s[i]])
    ensures r.Some? && !v.Obj? ==> forall k :: k in r.value ==> AllDigits(k)
  {
    match v
    case Null => None
    case Bool(_) => Some(map[])
    case Num(_) => Some(map[])
    case Str(s) => Some(Indexed(Characters(s)))
    case Arr(elems) => Some(Indexed(elems))
    case Obj(fields) => Some(fields)
  }
}

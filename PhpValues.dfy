/**
 * The values `json_decode($s, true)` produces, and the few PHP operations the
 * client applies to them: truthiness, `$a['key']`, `array_keys`, `array_diff`
 * and the `(array)` cast.
 */
module PhpValues {
  import opened Wrappers
  import opened PhpStrings

  /**
   * A decoded JSON value. With `$assoc = true`, objects and lists both become
   * PHP arrays: an ordered sequence of entries. Keys are kept in their string
   * form: list positions are the keys "0", "1", ..., and the only comparisons
   * the client makes on keys (`$a['error']` and `array_diff`) compare them as
   * strings.
   */
  datatype Value =
    | Null
    | Bool(b: bool)
    | Int(i: int)
    | Float(f: real)
    | Str(s: string)
    | Arr(entries: seq<Entry>)

  datatype Entry = Entry(key: string, val: Value)

  /** The empty PHP array `[]`, which is also what `{}` decodes to. */
  const EmptyArray: Value := Arr([])

  /** PHP's conversion to bool: what `if ($v)` tests. */
  predicate Truthy(v: Value) {
    match v
    case Null => false
    case Bool(b) => b
    case Int(i) => i != 0
    case Float(f) => f != 0.0
    case Str(s) => s != "" && s != "0"
    case Arr(es) => |es| > 0
  }

  /** `array_keys($a)`: the keys in order. */
  function Keys(es: seq<Entry>): (ks: seq<string>)
    ensures |ks| == |es|
    ensures forall i :: 0 <= i < |es| ==> ks[i] == es[i].key
  {
    if es == [] then [] else [es[0].key] + Keys(es[1..])
  }

  /** The value stored under `key`, if the array has that key. */
  function Lookup(es: seq<Entry>, key: string): (r: Option<Value>)
    ensures r.None? <==> key !in Keys(es)
    ensures r.Some? ==> Entry(key, r.value) in es
  {
    if es == [] then None
    else if es[0].key == key then Some(es[0].val)
    else Lookup(es[1..], key)
  }

  /**
   * No key occurs twice, as in every PHP array. `json_decode` keeps the last
   * of repeated object keys; a `Value` that repeats a key is not one it
   * produces, and `Lookup` would find the first.
   */
  predicate DistinctKeys(es: seq<Entry>) {
    forall i, j :: 0 <= i < j < |es| ==> es[i].key != es[j].key
  }

  /** With distinct keys, the value found under a key is the one stored there. */
  lemma {:induction false} LookupDistinct(es: seq<Entry>, key: string, v: Value)
    requires DistinctKeys(es) && Entry(key, v) in es
    ensures Lookup(es, key) == Some(v)
  {
    if es[0].key != key {
      assert DistinctKeys(es[1..]);
      assert Entry(key, v) in es[1..];
      LookupDistinct(es[1..], key, v);
    }
  }

  /**
   * `$v[$key]` read as an rvalue, for the word keys the client uses ('error',
   * 'data', 'message'). On an array it is the stored value, or `null` (with a
   * warning) when the key is missing. On `null`, a bool or a number it is
   * `null` with a warning. On a string PHP 8 throws a TypeError, since a word
   * is not a valid string offset: that is `None`.
   */
  function Index(v: Value, key: string): (r: Option<Value>)
    ensures r.None? <==> v.Str?
    ensures v.Arr? && key in Keys(v.entries) ==> r.Some? && Entry(key, r.value) in v.entries
    ensures !v.Str? && !(v.Arr? && key in Keys(v.entries)) ==> r == Some(Null)
  {
    match v
    case Arr(es) => Some(Lookup(es, key).GetOr(Null))
    case Str(_) => None
    case _ => Some(Null)
  }

  /**
   * `array_diff($a, $b)` with its keys dropped: the elements of `a`, in order,
   * that are not equal to any element of `b` (PHP compares them as strings).
   */
  function ArrayDiff(a: seq<string>, b: seq<string>): (r: seq<string>)
    ensures forall x :: x in r <==> x in a && x !in b
    ensures |r| <= |a|
  {
    if a == [] then []
    else if a[0] in b then ArrayDiff(a[1..], b)
    else [a[0]] + ArrayDiff(a[1..], b)
  }

  /**
   * `(array)$v`: an array is unchanged, `null` becomes `[]`, and any other
   * value becomes the one-element list `[0 => $v]`.
   */
  function CastToArray(v: Value): (r: Value)
    ensures r.Arr?
    ensures v.Arr? ==> r == v
    ensures Truthy(r) <==> v != Null && (v.Arr? ==> Truthy(v))
  {
    match v
    case Arr(_) => v
    case Null => EmptyArray
    case _ => Arr([Entry("0", v)])
  }

  /**
   * `$v == $s` under PHP 8, for an integer-form numeric string `$s` such as
   * '1': `null` is compared as "" and so never matches; a bool is compared
   * with the string's truth value; a number is compared numerically; a string
   * by PHP's string comparison; an array is never equal to a string.
   */
  predicate LooseEqualsNumeric(v: Value, s: string)
    requires IsIntegerString(s)
  {
    match v
    case Null => false
    case Bool(b) => b == Truthy(Str(s))
    case Int(i) => i == IntegerValue(s)
    case Float(f) => f == IntegerValue(s) as real
    case Str(t) => LooseEqualsStrings(t, s)
    case Arr(_) => false
  }
}

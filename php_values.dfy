/** PHP values as the trace filter and the error handler see them.

    A PHP array is an ordered sequence of (key, value) entries; a key is an
    integer or a string. Keys of a PHP array are unique, so the entry with a
    given key is identified by its position. Floats and closed resources are
    not represented. */
module PhpValues {

  datatype Key = IntKey(n: int) | StrKey(name: string)

  /** The argument values a stack frame can hold: an object (its class name and
      its properties), a boolean, a string, an array, null, an open resource or
      an integer. */
  datatype Value =
    | Obj(className: string, props: seq<Entry>)
    | Bool(b: bool)
    | Str(s: string)
    | Arr(entries: seq<Entry>)
    | Null
    | Resource
    | Int(i: int)

  datatype Entry = Entry(key: Key, value: Value)

  type PhpArray = seq<Entry>

  /** A stack frame is a PHP array with keys such as 'function', 'file',
      'line', 'class' and 'args'. */
  type Frame = PhpArray

  function Min(a: int, b: int): (m: int)
    ensures m <= a && m <= b && (m == a || m == b)
  {
    if a <= b then a else b
  }

  /** Position of the (first) entry with key `k`, or -1 when `k` is absent. */
  function IndexOf(a: PhpArray, k: Key): (r: int)
    ensures -1 <= r < |a|
    ensures r >= 0 ==> a[r].key == k && forall j :: 0 <= j < r ==> a[j].key != k
    ensures r < 0 ==> forall j :: 0 <= j < |a| ==> a[j].key != k
  {
    if a == [] then -1
    else if a[0].key == k then 0
    else
      var r := IndexOf(a[1..], k);
      if r < 0 then -1 else r + 1
  }

  /** PHP's `array_key_exists`. */
  predicate HasKey(a: PhpArray, k: Key) {
    IndexOf(a, k) >= 0
  }

  /** True when the keys are exactly 0, 1, ..., |a|-1 in this order, that is,
      when `$a === array_values($a)`. */
  predicate IsList(a: PhpArray) {
    forall j :: 0 <= j < |a| ==> a[j].key == IntKey(j)
  }

  /** PHP's `array_values`: the same values, renumbered 0, 1, 2, ... */
  function ArrayValues(a: PhpArray): (r: PhpArray)
    ensures |r| == |a| && IsList(r)
    ensures forall j :: 0 <= j < |a| ==> r[j].value == a[j].value
  {
    if a == [] then [] else ArrayValues(a[..|a| - 1]) + [Entry(IntKey(|a| - 1), a[|a| - 1].value)]
  }

  /** The list test is `$a === array_values($a)`: an array is a list exactly
      when renumbering its values gives it back. */
  lemma IsListIffArrayValues(a: PhpArray)
    ensures IsList(a) <==> a == ArrayValues(a)
  {
    var v := ArrayValues(a);
    if IsList(a) {
      assert forall j :: 0 <= j < |a| ==> a[j] == v[j];
    }
  }

  function Digit(d: int): (c: char)
    requires 0 <= d < 10
    ensures '0' <= c <= '9'
  {
    "0123456789"[d]
  }

  function NatText(n: nat): (r: string)
    ensures r != [] && forall j :: 0 <= j < |r| ==> '0' <= r[j] <= '9'
  {
    if n < 10 then [Digit(n)] else NatText(n / 10) + [Digit(n % 10)]
  }

  /** Decimal text of an integer, as PHP's integer-to-string conversion gives it. */
  function IntText(n: int): (r: string)
    ensures r != []
    ensures (r[0] == '-') <==> n < 0
  {
    if n < 0 then "-" + NatText(-n) else NatText(n)
  }

  /** The values that can be converted to text without a warning or an error. */
  predicate Printable(v: Value) {
    v.Str? || v.Int?
  }

  /** PHP's conversion to string, for strings and integers. */
  function AsString(v: Value): string
    requires Printable(v)
  {
    match v
    case Str(s) => s
    case Int(i) => IntText(i)
  }

  /** PHP's `implode($sep, $parts)`. */
  function Implode(sep: string, parts: seq<string>): (r: string)
    ensures parts == [] ==> r == []
    ensures |parts| == 1 ==> r == parts[0]
  {
    if parts == [] then ""
    else if |parts| == 1 then parts[0]
    else Implode(sep, parts[..|parts| - 1]) + sep + parts[|parts| - 1]
  }
}

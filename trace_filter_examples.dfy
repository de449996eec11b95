/** The argument fixture of the trace-filter tests and the summaries the
    model gives for it, level by level. */
module TraceFilterExamples {
  import opened PhpValues
  import opened TraceFilter

  function Repeat(c: char, n: nat): (r: string)
    ensures |r| == n && forall j :: 0 <= j < n ==> r[j] == c
  {
    if n == 0 then [] else Repeat(c, n - 1) + [c]
  }

  function Named(name: string, v: Value): Entry {
    Entry(StrKey(name), v)
  }

  /** A list: the values under the keys 0, 1, 2, ... */
  function Positional(vs: seq<Value>): (r: PhpArray)
    ensures |r| == |vs| && IsList(r)
    ensures forall j :: 0 <= j < |vs| ==> r[j].value == vs[j]
  {
    if vs == [] then [] else Positional(vs[..|vs| - 1]) + [Entry(IntKey(|vs| - 1), vs[|vs| - 1])]
  }

  function ListArg(): PhpArray {
    Positional([Str("foo"), Str("bar")])
  }

  function ListWithHoles(): PhpArray {
    [Entry(IntKey(9), Str("nine")), Entry(IntKey(5), Str("five"))]
  }

  function MixedArray(): PhpArray {
    [Entry(IntKey(0), Str("foo")), Named("name", Str("bar"))]
  }

  function InnerSub(): PhpArray {
    [ Named("list", Arr(ListArg())),
      Named("list_with_holes", Arr(ListWithHoles())),
      Named("mixed_array", Arr(MixedArray())) ]
  }

  /** The 'sub' array of the fixture, around the nested array `sub`. */
  function OuterSub(sub: PhpArray): PhpArray {
    [ Named("a_too_long_string", Str(Repeat('a', 100))),
      Named("null", Null),
      Named("resource", Resource),
      Named("sub", Arr(sub)) ]
  }

  /** The fixture's array of all kinds of arguments, around its 'sub' array. */
  function AllTypesOfArgs(sub: PhpArray): PhpArray {
    [ Named("object", Obj("stdClass", [])),
      Named("bool", Bool(true)),
      Named("string", Str("a string")),
      Named("sub", Arr(sub)),
      Named("extra_param", Str("will not be normalized!")) ]
  }

  /** The arguments of the closure frame of the fixture's trace. */
  function ClosureArgs(allTypesOfArgs: PhpArray): PhpArray {
    Positional([Str("Test exception"), Int(12345), Arr(allTypesOfArgs)])
  }

  /** The whole fixture. */
  function FixtureArgs(): PhpArray {
    ClosureArgs(AllTypesOfArgs(OuterSub(InnerSub())))
  }

  /** `'name' => text`, the form of an item under a string key. */
  function Keyed(name: string, text: string): string {
    "'" + name + "' => " + text
  }

  /** `'s'`, the form of a string argument of at most 64 characters. */
  function Quoted(s: string): string {
    "'" + s + "'"
  }

  /** `[text]`, the form of a nested array. */
  function Bracketed(text: string): string {
    "[" + text + "]"
  }

  lemma KeyedItem(e: Entry, name: string, assoc: bool)
    requires e.key == StrKey(name)
    ensures ItemText(e, assoc) == Keyed(name, ArgumentText(e.value))
  {
  }

  lemma ArrayText(es: PhpArray)
    ensures ArgumentText(Arr(es)) == Bracketed(Summary(es))
  {
  }

  lemma ItemsOfThree(es: PhpArray)
    requires |es| == 3
    ensures Items(es) == [ItemText(es[0], !IsList(es)), ItemText(es[1], !IsList(es)), ItemText(es[2], !IsList(es))]
  {
    ItemsAt(es);
    var items := Items(es);
    assert |items| == 3;
    assert items[0] == ItemText(es[0], !IsList(es));
    assert items[1] == ItemText(es[1], !IsList(es));
    assert items[2] == ItemText(es[2], !IsList(es));
  }

  lemma ItemsOfFour(es: PhpArray)
    requires |es| == 4
    ensures Items(es) ==
      [ItemText(es[0], !IsList(es)), ItemText(es[1], !IsList(es)), ItemText(es[2], !IsList(es)), ItemText(es[3], !IsList(es))]
  {
    ItemsAt(es);
    var items := Items(es);
    assert |items| == 4;
    assert items[0] == ItemText(es[0], !IsList(es));
    assert items[1] == ItemText(es[1], !IsList(es));
    assert items[2] == ItemText(es[2], !IsList(es));
    assert items[3] == ItemText(es[3], !IsList(es));
  }

  lemma ItemsOfMany(es: PhpArray)
    requires |es| >= EllipsisPosition
    ensures Items(es) ==
      [ItemText(es[0], !IsList(es)), ItemText(es[1], !IsList(es)), ItemText(es[2], !IsList(es)), ItemText(es[3], !IsList(es)), "..."]
  {
    var assoc := !IsList(es);
    FirstFourRendered(es, assoc);
    assert Items(es) == Rendered(es, 4, assoc) + ["..."];
  }

  lemma FirstFourRendered(es: PhpArray, assoc: bool)
    requires |es| >= 4
    ensures Rendered(es, 4, assoc) ==
      [ItemText(es[0], assoc), ItemText(es[1], assoc), ItemText(es[2], assoc), ItemText(es[3], assoc)]
  {
    assert Rendered(es, 4, assoc) == Rendered(es, 3, assoc) + [ItemText(es[3], assoc)];
    assert Rendered(es, 3, assoc) == Rendered(es, 2, assoc) + [ItemText(es[2], assoc)];
    assert Rendered(es, 2, assoc) == Rendered(es, 1, assoc) + [ItemText(es[1], assoc)];
    assert Rendered(es, 1, assoc) == [ItemText(es[0], assoc)];
  }

  lemma StartsWithName(es: PhpArray)
    requires |es| > 0 && es[0].key.StrKey?
    ensures !IsList(es)
  {
  }

  lemma ItemsOfTwo(es: PhpArray)
    requires |es| == 2
    ensures Summary(es) == ItemText(es[0], !IsList(es)) + ", " + ItemText(es[1], !IsList(es))
  {
    ItemsAt(es);
    var items := Items(es);
    assert items == [ItemText(es[0], !IsList(es)), ItemText(es[1], !IsList(es))];
  }

  lemma QuotedText(s: string)
    requires |s| <= MaxStringShown
    ensures ArgumentText(Str(s)) == Quoted(s)
  {
  }

  lemma ListArgItems()
    ensures ItemText(ListArg()[0], false) == "'foo'"
    ensures ItemText(ListArg()[1], false) == "'bar'"
  {
    QuotedText("foo");
    QuotedText("bar");
  }

  /** A list shows its values bare. */
  lemma ListArgSummary()
    ensures Summary(ListArg()) == "'foo', 'bar'"
  {
    ItemsOfTwo(ListArg());
    ListArgItems();
  }

  lemma ListWithHolesItems()
    ensures ItemText(ListWithHoles()[0], true) == "9 => 'nine'"
    ensures ItemText(ListWithHoles()[1], true) == "5 => 'five'"
  {
    QuotedText("nine");
    QuotedText("five");
    assert IntText(9) == "9" && IntText(5) == "5";
  }

  /** An array with holes in its integer keys shows them. */
  lemma ListWithHolesSummary()
    ensures Summary(ListWithHoles()) == "9 => 'nine', 5 => 'five'"
  {
    var es := ListWithHoles();
    assert !IsList(es) by { assert es[0].key != IntKey(0); }
    ItemsOfTwo(es);
    ListWithHolesItems();
  }

  lemma MixedArrayItems()
    ensures ItemText(MixedArray()[0], true) == "0 => 'foo'"
    ensures ItemText(MixedArray()[1], true) == "'name' => 'bar'"
  {
    QuotedText("foo");
    QuotedText("bar");
    assert IntText(0) == "0";
  }

  /** An array mixing integer and string keys shows both. */
  lemma MixedArraySummary()
    ensures Summary(MixedArray()) == "0 => 'foo', 'name' => 'bar'"
  {
    var es := MixedArray();
    assert !IsList(es) by { assert es[1].key != IntKey(1); }
    ItemsOfTwo(es);
    MixedArrayItems();
  }

  lemma NatTextStep(n: nat)
    requires n >= 10
    ensures NatText(n) == NatText(n / 10) + [Digit(n % 10)]
  {
  }

  lemma FiveDigits(n: nat)
    requires n == 12345
    ensures IntText(n) == "12345"
  {
    var d1, d2, d3, d4 := n / 10, n / 100, n / 1000, n / 10000;
    assert d1 == 1234 && d2 == 123 && d3 == 12 && d4 == 1;
    assert d1 / 10 == d2 && d2 / 10 == d3 && d3 / 10 == d4;
    NatTextStep(n);
    NatTextStep(d1);
    NatTextStep(d2);
    NatTextStep(d3);
    assert NatText(d4) == "1";
    assert Digit(n % 10) == '5' && Digit(d1 % 10) == '4' && Digit(d2 % 10) == '3' && Digit(d3 % 10) == '2';
  }

  lemma InnerSubSummary()
    ensures Summary(InnerSub()) == Implode(", ", [
      Keyed("list", Bracketed("'foo', 'bar'")),
      Keyed("list_with_holes", Bracketed("9 => 'nine', 5 => 'five'")),
      Keyed("mixed_array", Bracketed("0 => 'foo', 'name' => 'bar'"))])
  {
    var es := InnerSub();
    StartsWithName(es);
    ItemsOfThree(es);
    KeyedItem(es[0], "list", true);
    KeyedItem(es[1], "list_with_holes", true);
    KeyedItem(es[2], "mixed_array", true);
    ArrayText(ListArg());
    ArrayText(ListWithHoles());
    ArrayText(MixedArray());
    ListArgSummary();
    ListWithHolesSummary();
    MixedArraySummary();
  }

  /** A string of 100 characters is cut to its first 64; null and a resource
      show as words. */
  lemma OuterSubSummary(sub: PhpArray)
    ensures Summary(OuterSub(sub)) == Implode(", ", [
      Keyed("a_too_long_string", "'" + Repeat('a', 64) + "...'"),
      Keyed("null", "null"),
      Keyed("resource", "resource"),
      Keyed("sub", Bracketed(Summary(sub)))])
  {
    var es := OuterSub(sub);
    StartsWithName(es);
    ItemsOfFour(es);
    KeyedItem(es[0], "a_too_long_string", true);
    KeyedItem(es[1], "null", true);
    KeyedItem(es[2], "resource", true);
    KeyedItem(es[3], "sub", true);
    StringArgument(Repeat('a', 100));
    assert Repeat('a', 100)[..64] == Repeat('a', 64);
    ArrayText(sub);
  }

  /** An object shows its class name; the fifth entry, 'extra_param', is
      shown as a bare `...`. */
  lemma AllTypesOfArgsSummary(sub: PhpArray)
    ensures Summary(AllTypesOfArgs(sub)) == Implode(", ", [
      Keyed("object", "stdClass"),
      Keyed("bool", "true"),
      Keyed("string", Quoted("a string")),
      Keyed("sub", Bracketed(Summary(sub))),
      "..."])
  {
    var es := AllTypesOfArgs(sub);
    StartsWithName(es);
    ItemsOfMany(es);
    KeyedItem(es[0], "object", true);
    KeyedItem(es[1], "bool", true);
    KeyedItem(es[2], "string", true);
    KeyedItem(es[3], "sub", true);
    ArgumentTexts("stdClass", [], true, [], 0);
    QuotedText("a string");
    ArrayText(sub);
    assert Items(es)[0] == Keyed("object", "stdClass");
    assert Items(es)[1] == Keyed("bool", "true");
    assert Items(es)[2] == Keyed("string", Quoted("a string"));
    assert Items(es)[3] == Keyed("sub", Bracketed(Summary(sub)));
  }

  /** The arguments of the closure frame form a list, so no keys are shown. */
  lemma ClosureArgsSummary(allTypesOfArgs: PhpArray)
    ensures Summary(ClosureArgs(allTypesOfArgs)) == Implode(", ", [
      Quoted("Test exception"),
      "12345",
      Bracketed(Summary(allTypesOfArgs))])
  {
    var es := ClosureArgs(allTypesOfArgs);
    ItemsOfThree(es);
    QuotedText("Test exception");
    assert ItemText(es[0], false) == Quoted("Test exception");
    FiveDigits(12345);
    assert ItemText(es[1], false) == "12345";
    ArrayText(allTypesOfArgs);
  }

  /** The summary of the whole fixture, nested arrays written out. */
  lemma FixtureSummary()
    ensures Summary(FixtureArgs()) == Implode(", ", [
      Quoted("Test exception"),
      "12345",
      Bracketed(Implode(", ", [
        Keyed("object", "stdClass"),
        Keyed("bool", "true"),
        Keyed("string", Quoted("a string")),
        Keyed("sub", Bracketed(Implode(", ", [
          Keyed("a_too_long_string", "'" + Repeat('a', 64) + "...'"),
          Keyed("null", "null"),
          Keyed("resource", "resource"),
          Keyed("sub", Bracketed(Implode(", ", [
            Keyed("list", Bracketed("'foo', 'bar'")),
            Keyed("list_with_holes", Bracketed("9 => 'nine', 5 => 'five'")),
            Keyed("mixed_array", Bracketed("0 => 'foo', 'name' => 'bar'"))])))]))),
        "..."]))])
  {
    InnerSubSummary();
    OuterSubSummary(InnerSub());
    AllTypesOfArgsSummary(OuterSub(InnerSub()));
    ClosureArgsSummary(AllTypesOfArgs(OuterSub(InnerSub())));
  }

  /** Keys past the fifth entry still decide whether the first four show
      their integer keys: a list of five values with one more entry under key
      9 is not a list, so its keys appear. */
  lemma LaterKeyChangesKeyStyle(v0: Value, v1: Value, v2: Value, v3: Value, v4: Value, extra: Value)
    ensures Summary(Positional([v0, v1, v2, v3, v4])) == Implode(", ", [
      ArgumentText(v0), ArgumentText(v1), ArgumentText(v2), ArgumentText(v3), "..."])
    ensures Summary(Positional([v0, v1, v2, v3, v4]) + [Entry(IntKey(9), extra)]) == Implode(", ", [
      "0 => " + ArgumentText(v0), "1 => " + ArgumentText(v1),
      "2 => " + ArgumentText(v2), "3 => " + ArgumentText(v3), "..."])
  {
    var a := Positional([v0, v1, v2, v3, v4]);
    var b := a + [Entry(IntKey(9), extra)];
    assert !IsList(b) by { assert b[5].key != IntKey(5); }
    ItemsOfMany(a);
    ItemsOfMany(b);
    assert IntText(0) + " => " == "0 => ";
    assert IntText(1) + " => " == "1 => ";
    assert IntText(2) + " => " == "2 => ";
    assert IntText(3) + " => " == "3 => ";
  }
}

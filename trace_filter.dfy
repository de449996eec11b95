/** The stack-trace simplifier: keeps the first `maxTraceSize` frames of a
    trace and replaces the argument array of each kept frame by a short,
    bounded summary string. */
module TraceFilter {
  import opened PhpValues

  const ArgsKey: Key := StrKey("args")

  /** At most this many characters of a string argument are shown. */
  const MaxStringShown: nat := 64

  /** The entry at this (1-based) position is shown as `...`; later ones are dropped. */
  const EllipsisPosition: nat := 5

  /** Simplified form of one argument value: the class name of an object,
      `true`/`false`, a quoted and possibly truncated string, a bracketed
      summary of an array, `null`, `resource`; an integer is returned as it is. */
  function SimplifyArgument(v: Value): (r: Value)
    ensures Printable(r)
    ensures v.Int? ==> r == v
    ensures r.Int? ==> r == v
    decreases v, 3
  {
    match v
    case Obj(c, _) => Str(c)
    case Bool(b) => Str(if b then "true" else "false")
    case Str(s) =>
      if |s| > MaxStringShown then Str("'" + s[..MaxStringShown] + "...'")
      else Str("'" + s + "'")
    case Arr(es) => Str("[" + Summary(es) + "]")
    case Null => Str("null")
    case Resource => Str("resource")
    case Int(_) => v
  }

  /** The text of the argument value, as the concatenation and implosion that
      follow `simplifyArgument` turn it into a string. */
  function ArgumentText(v: Value): string
    decreases v, 4
  {
    AsString(SimplifyArgument(v))
  }

  /** One item of a summary: the simplified value, prefixed by `'key' => ` for
      a string key, or by `key => ` for an integer key of an array that is
      not a list. */
  function ItemText(e: Entry, assoc: bool): string
    decreases e.value, 5
  {
    match e.key
    case StrKey(name) => "'" + name + "' => " + ArgumentText(e.value)
    case IntKey(n) => if assoc then IntText(n) + " => " + ArgumentText(e.value) else ArgumentText(e.value)
  }

  /** The items of the first `n` entries of `es`, all shown in full. */
  function Rendered(es: PhpArray, n: nat, assoc: bool): seq<string>
    requires n <= |es|
    decreases Arr(es), 0, n
  {
    if n == 0 then []
    else
      assert es[n - 1] in es;
      Rendered(es, n - 1, assoc) + [ItemText(es[n - 1], assoc)]
  }

  /** The items of a summary: the first four entries shown in full, then
      `...` when there is a fifth entry. */
  function Items(es: PhpArray): seq<string>
    decreases Arr(es), 1
  {
    var assoc := !IsList(es);
    if |es| < EllipsisPosition then Rendered(es, |es|, assoc)
    else Rendered(es, EllipsisPosition - 1, assoc) + ["..."]
  }

  /** The summary string `simplifyArguments` produces for an argument array. */
  function Summary(es: PhpArray): string
    decreases Arr(es), 2
  {
    Implode(", ", Items(es))
  }

  /** The frame has no 'args' entry, or its 'args' entry holds an array (the
      argument type `simplifyArguments` demands). */
  predicate ArgsIsArray(f: Frame) {
    var at := IndexOf(f, ArgsKey);
    at >= 0 ==> f[at].value.Arr?
  }

  /** The frame with its argument array replaced by its summary. */
  function SimplifiedFrame(f: Frame): Frame
    requires ArgsIsArray(f)
  {
    var at := IndexOf(f, ArgsKey);
    if at < 0 then f else f[at := Entry(ArgsKey, Str(Summary(f[at].value.entries)))]
  }

  /** The text values of an array whose values are all printable. */
  function Texts(a: PhpArray): (r: seq<string>)
    requires forall j :: 0 <= j < |a| ==> Printable(a[j].value)
    ensures |r| == |a|
    ensures forall j :: 0 <= j < |a| ==> r[j] == AsString(a[j].value)
  {
    if a == [] then [] else [AsString(a[0].value)] + Texts(a[1..])
  }

  class ErrorTraceFilter {
    /** Maximum number of frames kept. */
    var maxTraceSize: nat

    constructor ()
      ensures maxTraceSize == 10
    {
      maxTraceSize := 10;
    }

    /** Keeps the first `maxTraceSize` frames, each with its arguments summarised. */
    method Filter(trace: seq<Frame>) returns (result: seq<Frame>)
      requires forall j :: 0 <= j < |trace| && j < maxTraceSize ==> ArgsIsArray(trace[j])
      ensures |result| == Min(|trace|, maxTraceSize)
      ensures forall j :: 0 <= j < |result| ==> result[j] == SimplifiedFrame(trace[j])
    {
      var kept := trace[..Min(|trace|, maxTraceSize)];
      result := [];
      for i := 0 to |kept|
        invariant |result| == i
        invariant forall j :: 0 <= j < i ==> result[j] == SimplifiedFrame(kept[j])
      {
        var entry := kept[i];
        var at := IndexOf(entry, ArgsKey);
        if at >= 0 {
          var summary := SimplifyArguments(entry[at].value.entries);
          entry := entry[at := Entry(ArgsKey, Str(summary))];
        }
        result := result + [entry];
      }
    }

    /** Walks the entries with a running count, rewriting the first four in
        place, replacing the fifth by `...` and unsetting the rest, then
        implodes what is left. */
    method SimplifyArguments(args: PhpArray) returns (s: string)
      ensures s == Summary(args)
    {
      var count := 0;
      var isAssoc := !IsList(args);
      // `work` is the working copy of `args`: the entries visited and kept
      // so far are `done`, the entries not yet visited follow unchanged.
      var work := args;
      ghost var done: PhpArray := [];
      var i := 0;
      while i < |args|
        invariant 0 <= i <= |args| && count == i
        invariant work == done + args[i..]
        invariant Visited(args, done, i, isAssoc)
      {
        var key, value := args[i].key, args[i].value;
        assert args[i..][1..] == args[i + 1..];
        count := count + 1;
        if count >= EllipsisPosition {
          if count > EllipsisPosition {
            // unset($args[$key]): the entry sits right after the ellipsis
            DropNext(done, args[i..]);
            work := work[..EllipsisPosition] + work[EllipsisPosition + 1..];
            VisitedDropped(args, done, i, isAssoc);
          } else {
            ReplaceNext(done, args[i..], Entry(key, Str("...")));
            work := work[i := Entry(key, Str("..."))];
            VisitedEllipsis(args, done, i, isAssoc, Entry(key, Str("...")));
            done := done + [Entry(key, Str("..."))];
          }
        } else {
          // the new value of this entry: the simplified argument, then with its key in front
          var item := SimplifyArgument(value);
          match key {
            case StrKey(name) =>
              item := Str("'" + name + "' => " + AsString(item));
            case IntKey(n) =>
              if isAssoc {
                item := Str(IntText(n) + " => " + AsString(item));
              }
          }
          ReplaceNext(done, args[i..], Entry(key, item));
          work := work[i := Entry(key, item)];
          VisitedItem(args, done, i, isAssoc, Entry(key, item));
          done := done + [Entry(key, item)];
        }
        i := i + 1;
      }
      assert work == done;
      VisitedAll(args, done, isAssoc);
      s := Implode(", ", Texts(work));
    }
  }

  /** Rewriting the first entry after `done` in place. */
  lemma ReplaceNext(done: PhpArray, rest: PhpArray, e: Entry)
    requires rest != []
    ensures (done + rest)[|done| := e] == done + [e] + rest[1..]
  {
  }

  /** Unsetting the first entry after `done`. */
  lemma DropNext(done: PhpArray, rest: PhpArray)
    requires rest != []
    ensures (done + rest)[..|done|] + (done + rest)[|done| + 1..] == done + rest[1..]
  {
    assert (done + rest)[..|done|] == done;
    assert (done + rest)[|done| + 1..] == rest[1..];
  }

  /** The first `i` entries of `args` have been visited and `done` is what is
      kept of them: the items of the first four, then the `...` entry. */
  ghost predicate Visited(args: PhpArray, done: PhpArray, i: nat, assoc: bool) {
    i <= |args| && |done| == Min(i, EllipsisPosition) &&
    (forall j :: 0 <= j < Min(i, EllipsisPosition - 1) ==>
      Printable(done[j].value) && AsString(done[j].value) == ItemText(args[j], assoc)) &&
    (i >= EllipsisPosition ==> done[EllipsisPosition - 1].value == Str("..."))
  }

  /** An entry among the first four is kept as its item. */
  lemma VisitedItem(args: PhpArray, done: PhpArray, i: nat, assoc: bool, e: Entry)
    requires Visited(args, done, i, assoc) && i < EllipsisPosition - 1 && i < |args|
    requires Printable(e.value) && AsString(e.value) == ItemText(args[i], assoc)
    ensures Visited(args, done + [e], i + 1, assoc)
  {
  }

  /** The fifth entry is kept as `...`. */
  lemma VisitedEllipsis(args: PhpArray, done: PhpArray, i: nat, assoc: bool, e: Entry)
    requires Visited(args, done, i, assoc) && i == EllipsisPosition - 1 && i < |args|
    requires e.value == Str("...")
    ensures Visited(args, done + [e], i + 1, assoc)
  {
  }

  /** Entries after the fifth are not kept. */
  lemma VisitedDropped(args: PhpArray, done: PhpArray, i: nat, assoc: bool)
    requires Visited(args, done, i, assoc) && i >= EllipsisPosition && i < |args|
    ensures Visited(args, done, i + 1, assoc)
  {
  }

  /** Once every entry has been visited, what is kept holds the summary's items. */
  lemma VisitedAll(args: PhpArray, done: PhpArray, assoc: bool)
    requires Visited(args, done, |args|, assoc) && assoc == !IsList(args)
    ensures forall j :: 0 <= j < |done| ==> Printable(done[j].value)
    ensures Texts(done) == Items(args)
  {
    ItemsAt(args);
    var items := Items(args);
    forall j | 0 <= j < |done|
      ensures Printable(done[j].value) && AsString(done[j].value) == items[j]
    {
      if j < EllipsisPosition - 1 {
        assert items[j] == ItemText(args[j], assoc);
      } else {
        assert j == EllipsisPosition - 1 && items[j] == "...";
      }
    }
    TextsMatch(done, items);
  }

  /** An array whose values print as `texts`, in order, has `texts` as its texts. */
  lemma TextsMatch(a: PhpArray, texts: seq<string>)
    requires |a| == |texts|
    requires forall j :: 0 <= j < |a| ==> Printable(a[j].value) && AsString(a[j].value) == texts[j]
    ensures Texts(a) == texts
  {
  }

  /** Item `j` of the first `n` rendered entries is the full item of entry `j`. */
  lemma {:induction false} RenderedAt(es: PhpArray, n: nat, assoc: bool)
    requires n <= |es|
    ensures |Rendered(es, n, assoc)| == n
    ensures forall j :: 0 <= j < n ==> Rendered(es, n, assoc)[j] == ItemText(es[j], assoc)
  {
    if n > 0 {
      RenderedAt(es, n - 1, assoc);
    }
  }

  /** A summary has min(n, 5) items; the fifth is the bare `...` and the
      others are the entries' items in order. */
  lemma ItemsAt(es: PhpArray)
    ensures es == [] ==> Summary(es) == ""
    ensures |Items(es)| == Min(|es|, EllipsisPosition)
    ensures forall j :: 0 <= j < |Items(es)| ==>
      Items(es)[j] == if j == EllipsisPosition - 1 then "..." else ItemText(es[j], !IsList(es))
  {
    if |es| < EllipsisPosition {
      RenderedAt(es, |es|, !IsList(es));
    } else {
      RenderedAt(es, EllipsisPosition - 1, !IsList(es));
    }
  }

  /** Key formatting of the first four items: `'key' => v` for a string key,
      `k => v` for an integer key of an array that is not a list, and a bare
      `v` for every entry of a list. */
  lemma ItemKeyFormat(es: PhpArray, j: nat)
    requires j < Min(|es|, EllipsisPosition - 1)
    ensures j < |Items(es)|
    ensures es[j].key.StrKey? ==>
      Items(es)[j] == "'" + es[j].key.name + "' => " + ArgumentText(es[j].value)
    ensures es[j].key.IntKey? && !IsList(es) ==>
      Items(es)[j] == IntText(es[j].key.n) + " => " + ArgumentText(es[j].value)
    ensures IsList(es) ==> Items(es)[j] == ArgumentText(es[j].value)
  {
    ItemsAt(es);
  }

  /** The summary depends on the first four entries, on how many entries
      there are up to five, and on whether the array is a list; nothing else
      (not the fifth entry's key or value, not any later entry) shows. */
  lemma SummaryDeterminedByFirstFour(a: PhpArray, b: PhpArray)
    requires Min(|a|, EllipsisPosition) == Min(|b|, EllipsisPosition)
    requires a[..Min(|a|, EllipsisPosition - 1)] == b[..Min(|b|, EllipsisPosition - 1)]
    requires IsList(a) == IsList(b)
    ensures Summary(a) == Summary(b)
  {
    var k := Min(|a|, EllipsisPosition - 1);
    var assoc := !IsList(a);
    forall j | 0 <= j < k
      ensures a[j] == b[j]
    {
      assert a[j] == a[..k][j];
      assert b[j] == b[..k][j];
    }
    RenderedPrefix(a, b, k, assoc);
    assert Items(a) == Items(b);
  }

  /** The first `n` rendered items depend only on the first `n` entries. */
  lemma {:induction false} RenderedPrefix(a: PhpArray, b: PhpArray, n: nat, assoc: bool)
    requires n <= |a| && n <= |b|
    requires forall j :: 0 <= j < n ==> a[j] == b[j]
    ensures Rendered(a, n, assoc) == Rendered(b, n, assoc)
  {
    if n > 0 {
      RenderedPrefix(a, b, n - 1, assoc);
    }
  }

  /** The fifth entry is shown as `...` whatever its value. */
  lemma FifthValueNotShown(es: PhpArray, v: Value)
    requires |es| >= EllipsisPosition
    ensures Summary(es[EllipsisPosition - 1 := Entry(es[EllipsisPosition - 1].key, v)]) == Summary(es)
  {
    var b := es[EllipsisPosition - 1 := Entry(es[EllipsisPosition - 1].key, v)];
    assert es[..EllipsisPosition - 1] == b[..EllipsisPosition - 1];
    assert IsList(es) == IsList(b) by {
      assert forall j :: 0 <= j < |b| ==> b[j].key == es[j].key;
    }
    SummaryDeterminedByFirstFour(es, b);
  }

  /** Entries after the fifth are dropped: appending entries that keep the
      array a list (or keep it a non-list) leaves the summary unchanged. */
  lemma LaterEntriesDropped(es: PhpArray, more: PhpArray)
    requires |es| >= EllipsisPosition
    requires IsList(es + more) == IsList(es)
    ensures Summary(es + more) == Summary(es)
  {
    assert (es + more)[..EllipsisPosition - 1] == es[..EllipsisPosition - 1];
    SummaryDeterminedByFirstFour(es + more, es);
  }

  /** A string of more than 64 characters is cut to its first 64 and marked
      with `...` inside the quotes; a shorter one, including one of exactly
      64 characters, is quoted in full; the text is at most 69 characters. */
  lemma StringArgument(s: string)
    ensures |s| > MaxStringShown ==> ArgumentText(Str(s)) == "'" + s[..MaxStringShown] + "...'"
    ensures |s| <= MaxStringShown ==> ArgumentText(Str(s)) == "'" + s + "'"
    ensures |ArgumentText(Str(s))| == Min(|s|, MaxStringShown) + (if |s| > MaxStringShown then 5 else 2)
    ensures |ArgumentText(Str(s))| <= MaxStringShown + 5
  {
  }

  /** The text of each kind of argument; an object shows its class name and
      never its properties. */
  lemma ArgumentTexts(c: string, props: seq<Entry>, b: bool, es: PhpArray, i: int)
    ensures ArgumentText(Obj(c, props)) == c
    ensures ArgumentText(Bool(b)) == if b then "true" else "false"
    ensures ArgumentText(Arr(es)) == "[" + Summary(es) + "]"
    ensures ArgumentText(Null) == "null"
    ensures ArgumentText(Resource) == "resource"
    ensures ArgumentText(Int(i)) == IntText(i)
  {
  }

  /** Simplifying a frame keeps its keys in order, keeps every entry other
      than 'args' as it is, and turns the argument array into its summary; a
      frame without 'args' is returned unchanged and gains no 'args' entry. */
  lemma SimplifiedFrameShape(f: Frame)
    requires ArgsIsArray(f)
    ensures |SimplifiedFrame(f)| == |f|
    ensures forall j :: 0 <= j < |f| ==> SimplifiedFrame(f)[j].key == f[j].key
    ensures forall j :: 0 <= j < |f| && f[j].key != ArgsKey ==> SimplifiedFrame(f)[j] == f[j]
    ensures HasKey(SimplifiedFrame(f), ArgsKey) <==> HasKey(f, ArgsKey)
    ensures HasKey(f, ArgsKey) ==>
      SimplifiedFrame(f)[IndexOf(f, ArgsKey)].value == Str(Summary(f[IndexOf(f, ArgsKey)].value.entries))
    ensures !HasKey(f, ArgsKey) <==> SimplifiedFrame(f) == f
  {
    var g := SimplifiedFrame(f);
    var at := IndexOf(f, ArgsKey);
    if at >= 0 {
      assert g[at].key == ArgsKey;
      assert forall j :: 0 <= j < at ==> g[j].key == f[j].key;
      assert IndexOf(g, ArgsKey) == at by {
        IndexOfSameKeys(f, g, ArgsKey);
      }
      assert g[at] != f[at];
    }
  }

  /** Two arrays with the same keys in the same order find a key at the same position. */
  lemma {:induction false} IndexOfSameKeys(a: PhpArray, b: PhpArray, k: Key)
    requires |a| == |b| && forall j :: 0 <= j < |a| ==> a[j].key == b[j].key
    ensures IndexOf(a, k) == IndexOf(b, k)
  {
    if a != [] && a[0].key != k {
      IndexOfSameKeys(a[1..], b[1..], k);
    }
  }

  /** With `maxTraceSize` set to 1, a trace whose first frame has arguments
      filters to exactly one frame, whose 'args' is a string. */
  method RestrictedTraceShowsArguments(trace: seq<Frame>) returns (filtered: seq<Frame>)
    requires |trace| >= 1 && ArgsIsArray(trace[0]) && HasKey(trace[0], ArgsKey)
    ensures |filtered| == 1
    ensures HasKey(filtered[0], ArgsKey) && filtered[0][IndexOf(filtered[0], ArgsKey)].value.Str?
  {
    var traceFilter := new ErrorTraceFilter();
    traceFilter.maxTraceSize := 1;
    filtered := traceFilter.Filter(trace);
    SimplifiedFrameShape(trace[0]);
  }
}

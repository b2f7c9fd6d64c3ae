/** Alternative names in bulk data reports: a full path is reduced to the alternative name of the expression
    it expands, followed by the indices that the expression leaves open and by what comes behind it. */
module AltNames {
  import opened InstanceNumbers

  // ---------------------------------------------------------------------------------------
  // The reduction, one character of the path at a time.

  function UntilBracket(s: string): (n: nat)
    ensures n <= |s|
  {
    if s == "" || s[0] == ']' then 0 else 1 + UntilBracket(s[1..])
  }

  predicate AtIndex(s: string) {
    s != "" && (s[0] == '*' || s[0] == '[')
  }

  /** Behind the wildcard or the search expression that `s` begins with. */
  function BehindIndex(s: string): string
    requires AtIndex(s)
  {
    if s[0] == '*' || UntilBracket(s) == |s| then s[1..] else s[UntilBracket(s) + 1..]
  }

  predicate EndsInDot(s: string) {
    s != "" && s[|s| - 1] == '.'
  }

  function Reduce(s: string, p: string, o: string): string
    decreases |p|
  {
    if p == "" then o
    else if s != "" && p[0] == s[0] then Reduce(s[1..], p[1..], o)
    else if AtIndex(s) then
      if |p| > 1 && p[1] == '.' then Reduce(BehindIndex(s), p[1..], (o + [p[0]]) + ".")
      else Reduce(s, p[1..], o + [p[0]])
    else if EndsInDot(o) && p[0] == '.' then Reduce(s, p[1..], o)
    else Reduce(s, p[1..], o + [p[0]])
  }

  function WithoutLastDot(s: string): string {
    if EndsInDot(s) then s[..|s| - 1] else s
  }

  function AltNameOf(spec: string, path: string, alt: string): string {
    if alt == "" then path else WithoutLastDot(Reduce(spec, path, alt + "."))
  }

  // ---------------------------------------------------------------------------------------
  // Path expressions.

  datatype Item = Literal(name: string) | Wildcard | Search(keys: string)

  predicate GoodItem(i: Item) {
    i.Search? ==> forall k :: 0 <= k < |i.keys| ==> i.keys[k] != ']'
  }

  predicate GoodItems(items: seq<Item>) {
    forall k :: 0 <= k < |items| ==> GoodItem(items[k])
  }

  function Open(items: seq<Item>): nat {
    if items == [] then 0 else (if items[0].Literal? then 0 else 1) + Open(items[1..])
  }

  function ItemText(i: Item): string {
    match i
    case Literal(name) => name
    case Wildcard => "*"
    case Search(keys) => "[" + (keys + "]")
  }

  /** The text of an expression behind its root. */
  function SpecText(items: seq<Item>): string {
    if items == [] then "" else "." + (ItemText(items[0]) + SpecText(items[1..]))
  }

  /** The text of an expansion: numbers where the expression is open. */
  function PathText(items: seq<Item>, numbers: seq<nat>): string
    requires |numbers| == Open(items)
    decreases |items|
  {
    if items == [] then ""
    else if items[0].Literal? then "." + (items[0].name + PathText(items[1..], numbers))
    else "." + (NumberText(numbers[0]) + PathText(items[1..], numbers[1..]))
  }

  function IndexText(numbers: seq<nat>): string {
    if numbers == [] then "" else "." + (NumberText(numbers[0]) + IndexText(numbers[1..]))
  }

  /** What may follow an expansion: text without doubled dots, or a dot at either end. */
  predicate Clean(r: string) {
    && r != "" && r[0] != '.' && r[|r| - 1] != '.'
    && forall k :: 0 <= k < |r| - 1 ==> !(r[k] == '.' && r[k + 1] == '.')
  }

  function Suffix(r: string): string {
    if r == "" then "" else "." + r
  }

  // ---------------------------------------------------------------------------------------
  // The reduction of an expansion.

  lemma {:induction false} SkipsLiteral(a: string, s: string, p: string, o: string)
    ensures Reduce(a + s, a + p, o) == Reduce(s, p, o)
    decreases |a|
  {
    if a == "" {
      assert a + s == s && a + p == p;
    } else {
      assert (a + s)[1..] == a[1..] + s && (a + p)[1..] == a[1..] + p;
      SkipsLiteral(a[1..], s, p, o);
    }
  }

  lemma {:induction false} BracketBehind(keys: string, s: string)
    requires forall k :: 0 <= k < |keys| ==> keys[k] != ']'
    ensures UntilBracket(keys + ("]" + s)) == |keys|
  {
    if keys == "" {
      assert keys + ("]" + s) == "]" + s;
    } else {
      assert (keys + ("]" + s))[1..] == keys[1..] + ("]" + s);
      BracketBehind(keys[1..], s);
    }
  }

  lemma {:induction false} OpenItem(i: Item, s: string)
    requires GoodItem(i) && !i.Literal?
    ensures AtIndex(ItemText(i) + s) && !IsDigit((ItemText(i) + s)[0]) && BehindIndex(ItemText(i) + s) == s
  {
    if i.Search? {
      var w := ItemText(i) + s;
      assert w == "[" + (i.keys + ("]" + s)) && w[1..] == i.keys + ("]" + s);
      BracketBehind(i.keys, s);
      assert w[|i.keys| + 2..] == s;
    } else {
      assert ("*" + s)[1..] == s;
    }
  }

  /** The digits of an index are copied; a dot follows them if the path goes on. */
  lemma {:induction false} CopiesIndex(w: string, ds: string, p: string, o: string)
    requires AtIndex(w) && !IsDigit(w[0]) && ds != "" && AllDigits(ds) && (p == "" || p[0] == '.')
    ensures Reduce(w, ds + p, o) == if p == "" then o + ds else Reduce(BehindIndex(w), p, (o + ds) + ".")
    decreases |ds|
  {
    var all := ds + p;
    assert all[0] == ds[0] && IsDigit(ds[0]);
    assert all[1..] == ds[1..] + p;
    if |ds| == 1 {
      assert ds == [ds[0]] && all[1..] == p;
    } else {
      assert all[1] == ds[1] && IsDigit(ds[1]);
      CopiesIndex(w, ds[1..], p, o + [ds[0]]);
      assert (o + [ds[0]]) + ds[1..] == o + ds;
    }
  }

  lemma {:induction false} CopiesRest(r: string, o: string)
    requires r != "" ==> !(EndsInDot(o) && r[0] == '.')
    requires forall k :: 0 <= k < |r| - 1 ==> !(r[k] == '.' && r[k + 1] == '.')
    ensures Reduce("", r, o) == o + r
    decreases |r|
  {
    if r == "" {
      assert o + r == o;
    } else {
      var rest := r[1..];
      assert forall k :: 0 <= k < |rest| ==> rest[k] == r[k + 1];
      if |r| > 1 {
        assert !(r[0] == '.' && r[0 + 1] == '.');
      }
      CopiesRest(r[1..], o + [r[0]]);
      assert (o + [r[0]]) + r[1..] == o + r;
    }
  }

  /** Behind the expression, which may end in a dot of its own. */
  lemma {:induction false} CopiesSuffix(end: string, r: string, o: string)
    requires (end == "" || end == ".") && EndsInDot(o) && (r == "" || Clean(r))
    ensures WithoutLastDot(Reduce(end, Suffix(r), o)) == o[..|o| - 1] + Suffix(r)
  {
    if r == "" {
      assert o[..|o| - 1] + "" == o[..|o| - 1];
    } else {
      assert ("." + r)[1..] == r;
      assert Reduce(end, "." + r, o) == Reduce("", r, o);
      CopiesRest(r, o);
      assert o + r == o[..|o| - 1] + ("." + r);
      assert (o + r)[|o + r| - 1] == r[|r| - 1];
    }
  }

  lemma {:induction false} Shift(o: string, ds: string, rest: string)
    requires EndsInDot(o)
    ensures ((o + ds) + ".")[..|(o + ds) + "."| - 1] == o[..|o| - 1] + ("." + ds)
    ensures (o[..|o| - 1] + ("." + ds)) + rest == o[..|o| - 1] + ("." + (ds + rest))
  {
  }

  /** One open item: its index is copied, and the rest is reduced from there. */
  lemma {:induction false} ReducesOpen(i: Item, n: nat, s: string, p: string, o: string)
    requires GoodItem(i) && !i.Literal? && EndsInDot(o) && (p == "" || p[0] == '.')
    ensures var r := Reduce("." + (ItemText(i) + s), "." + (NumberText(n) + p), o);
            if p == "" then WithoutLastDot(r) == o[..|o| - 1] + ("." + NumberText(n))
            else r == Reduce(s, p, (o + NumberText(n)) + ".")
  {
    var w, ds := ItemText(i) + s, NumberText(n);
    SkipsLiteral(".", w, ds + p, o);
    OpenItem(i, s);
    NumberBack(n);
    CopiesIndex(w, ds, p, o);
    if p == "" {
      assert (o + ds)[|o + ds| - 1] == ds[|ds| - 1] && IsDigit(ds[|ds| - 1]);
      assert o + ds == o[..|o| - 1] + ("." + ds);
    }
  }

  lemma {:induction false} TextStart(items: seq<Item>, numbers: seq<nat>, r: string)
    requires |numbers| == Open(items)
    ensures var p := PathText(items, numbers) + Suffix(r);
            (p == "" || p[0] == '.') && (p == "" ==> numbers == [] && Suffix(r) == "")
  {
  }

  lemma {:induction false} ReducesText(items: seq<Item>, numbers: seq<nat>, end: string, r: string, o: string)
    requires GoodItems(items) && |numbers| == Open(items)
    requires (end == "" || end == ".") && EndsInDot(o) && (r == "" || Clean(r))
    ensures WithoutLastDot(Reduce(SpecText(items) + end, PathText(items, numbers) + Suffix(r), o)) ==
            o[..|o| - 1] + (IndexText(numbers) + Suffix(r))
    decreases |items|
  {
    if items == [] {
      assert "" + end == end && "" + Suffix(r) == Suffix(r);
      CopiesSuffix(end, r, o);
    } else if items[0].Literal? {
      var name, s, p := items[0].name, SpecText(items[1..]) + end, PathText(items[1..], numbers) + Suffix(r);
      Front(name, SpecText(items[1..]), end);
      Front(name, PathText(items[1..], numbers), Suffix(r));
      SkipsLiteral("." + name, s, p, o);
      ReducesText(items[1..], numbers, end, r, o);
    } else {
      ReducesTextOpen(items, numbers, end, r, o);
    }
  }

  lemma {:induction false} Front(name: string, text: string, end: string)
    ensures ("." + (name + text)) + end == "." + (name + (text + end))
    ensures ("." + (name + text)) + end == ("." + name) + (text + end)
  {
  }

  lemma {:induction false} ReducesTextOpen(items: seq<Item>, numbers: seq<nat>, end: string, r: string, o: string)
    requires GoodItems(items) && |numbers| == Open(items) && items != [] && !items[0].Literal?
    requires (end == "" || end == ".") && EndsInDot(o) && (r == "" || Clean(r))
    ensures WithoutLastDot(Reduce(SpecText(items) + end, PathText(items, numbers) + Suffix(r), o)) ==
            o[..|o| - 1] + (IndexText(numbers) + Suffix(r))
    decreases |items|, 0
  {
    var ds, later := NumberText(numbers[0]), numbers[1..];
    var s, p := SpecText(items[1..]) + end, PathText(items[1..], later) + Suffix(r);
    Front(ItemText(items[0]), SpecText(items[1..]), end);
    Front(ds, PathText(items[1..], later), Suffix(r));
    Front(ds, IndexText(later), Suffix(r));
    TextStart(items[1..], later, r);
    ReducesOpen(items[0], numbers[0], s, p, o);
    if p == "" {
      assert IndexText(later) + Suffix(r) == "" && ds + "" == ds;
    } else {
      ReducesText(items[1..], later, end, r, (o + ds) + ".");
      Shift(o, ds, IndexText(later) + Suffix(r));
    }
  }

  /** For every expression, every expansion of it and everything that may come behind: the result is the
      alternative name, the indices in their order, and what comes behind, separated by single dots. Without an
      alternative name it is the full path. */
  lemma {:induction false} AltNameIsReduced(root: string, items: seq<Item>, numbers: seq<nat>, partial: bool, r: string, alt: string)
    requires GoodItems(items) && |numbers| == Open(items) && (r == "" || Clean(r))
    ensures AltNameOf(root + (SpecText(items) + (if partial then "." else "")),
                      root + (PathText(items, numbers) + Suffix(r)), alt) ==
            if alt == "" then root + (PathText(items, numbers) + Suffix(r)) else alt + (IndexText(numbers) + Suffix(r))
  {
    var end := if partial then "." else "";
    SkipsLiteral(root, SpecText(items) + end, PathText(items, numbers) + Suffix(r), alt + ".");
    ReducesText(items, numbers, end, r, alt + ".");
    assert (alt + ".")[..|alt + "."| - 1] == alt;
  }

  // ---------------------------------------------------------------------------------------
  // The loop over the two texts and the output buffer.

  /** Moves behind the wildcard or the search expression at position i. */
  method MoveBehind(spec: string, i: nat) returns (j: nat)
    requires i < |spec| && AtIndex(spec[i..])
    ensures i < j <= |spec| && spec[j..] == BehindIndex(spec[i..])
  {
    j := i;
    if spec[i] == '[' {
      while j < |spec| && spec[j] != ']'
        invariant i <= j <= |spec| && UntilBracket(spec[i..]) == (j - i) + UntilBracket(spec[j..])
      {
        assert spec[j..][1..] == spec[j + 1..];
        j := j + 1;
      }
      if j == |spec| {
        j := i;
      }
    }
    assert spec[i..][j - i + 1..] == spec[j + 1..];
    j := j + 1;
  }

  /** Copies one character, unless it would double a dot in the output. */
  method CopyBehind(c: char, buf: array<char>, o: nat) returns (n: nat)
    requires 0 < o < buf.Length
    modifies buf
    ensures o <= n <= o + 1 && n <= buf.Length
    ensures buf[..n] == if EndsInDot(old(buf[..o])) && c == '.' then old(buf[..o]) else old(buf[..o]) + [c]
  {
    if buf[o - 1] == '.' && c == '.' {
      return o;
    }
    buf[o] := c;
    return o + 1;
  }

  /** Copies one character of an index, and a dot after the last one. */
  method CopyIndex(c: char, last: bool, buf: array<char>, o: nat) returns (n: nat)
    requires o + 2 <= buf.Length
    modifies buf
    ensures n == (if last then o + 2 else o + 1)
    ensures buf[..n] == if last then (old(buf[..o]) + [c]) + "." else old(buf[..o]) + [c]
  {
    buf[o] := c;
    n := o + 1;
    if last {
      buf[n] := '.';
      n := n + 1;
    }
  }

  /** Writes the reduced name into a buffer that is large enough. */
  method ReduceToAltName(spec: string, path: string, alt: string, buf: array<char>) returns (n: nat)
    requires buf.Length >= |alt| + 1 + 2 * |path|
    modifies buf
    ensures n <= buf.Length && buf[..n] == AltNameOf(spec, path, alt)
  {
    if alt == "" {
      n := CopyText(path, buf);
      return;
    }
    n := CopyText(alt, buf);
    buf[n] := '.';
    n := n + 1;
    assert buf[..n] == alt + ".";
    var s, p := 0, 0;
    assert spec[0..] == spec && path[0..] == path;
    while p < |path|
      invariant s <= |spec| && p <= |path| && 0 < n <= |alt| + 1 + 2 * p
      invariant Reduce(spec[s..], path[p..], buf[..n]) == Reduce(spec, path, alt + ".")
    {
      assert path[p..][1..] == path[p + 1..];
      if s < |spec| && path[p] == spec[s] {
        assert spec[s..][1..] == spec[s + 1..];
        s, p := s + 1, p + 1;
      } else if s < |spec| && (spec[s] == '*' || spec[s] == '[') {
        var last := p + 1 < |path| && path[p + 1] == '.';
        n := CopyIndex(path[p], last, buf, n);
        if last {
          s := MoveBehind(spec, s);
        }
        p := p + 1;
      } else {
        n := CopyBehind(path[p], buf, n);
        p := p + 1;
      }
    }
    if buf[n - 1] == '.' {
      assert buf[..n][..n - 1] == buf[..n - 1];
      n := n - 1;
    }
  }

  method CopyText(text: string, buf: array<char>) returns (n: nat)
    requires |text| <= buf.Length
    modifies buf
    ensures n == |text| && buf[..n] == text
  {
    n := 0;
    while n < |text|
      invariant n <= |text| && buf[..n] == text[..n]
    {
      buf[n] := text[n];
      n := n + 1;
    }
  }
}

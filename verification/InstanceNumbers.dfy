/** Instance numbers as text: single numbers inside a path, and the dotted string of all the numbers of a
    path that, with the hash of its schema path, is the key of a database row. */
module InstanceNumbers {
  import opened Options
  import Decimal

  predicate IsDigit(c: char) {
    '0' <= c <= '9'
  }

  predicate AllDigits(s: string) {
    forall i :: 0 <= i < |s| ==> IsDigit(s[i])
  }

  function ToDigit(c: char): Decimal.digit
    requires IsDigit(c)
  {
    c as int - '0' as int
  }

  function ToChar(d: Decimal.digit): char {
    ('0' as int + d) as char
  }

  function NumberText(n: nat): string {
    var ds := Decimal.Digits(n);
    seq(|ds|, i requires 0 <= i < |ds| => ToChar(ds[i]))
  }

  function DigitsOf(s: string): seq<Decimal.digit>
    requires AllDigits(s)
  {
    seq(|s|, i requires 0 <= i < |s| => ToDigit(s[i]))
  }

  function NumberOf(s: string): nat
    requires AllDigits(s)
  {
    Decimal.Value(DigitsOf(s))
  }

  lemma {:induction false} NumberBack(n: nat)
    ensures NumberText(n) != "" && AllDigits(NumberText(n)) && NumberOf(NumberText(n)) == n
  {
    var s := NumberText(n);
    assert DigitsOf(s) == Decimal.Digits(n);
    Decimal.ValueOfDigits(n);
  }

  /** Reading one more digit. */
  lemma {:induction false} NumberGrows(s: string, c: char)
    requires AllDigits(s) && IsDigit(c)
    ensures AllDigits(s + [c]) && NumberOf(s + [c]) == NumberOf(s) * 10 + ToDigit(c)
  {
    var ds := DigitsOf(s + [c]);
    assert ds[..|ds| - 1] == DigitsOf(s);
    assert ds != [] && ds[|ds| - 1] == ToDigit(c);
  }

  // ---------------------------------------------------------------------------------------
  // The instance string.

  function InstanceText(numbers: seq<nat>): string {
    if numbers == [] then ""
    else if |numbers| == 1 then NumberText(numbers[0])
    else NumberText(numbers[0]) + ("." + InstanceText(numbers[1..]))
  }

  /** Length of the text before the first dot. */
  function UntilDot(s: string): (n: nat)
    ensures n <= |s| && (n < |s| ==> s[n] == '.')
  {
    if s == "" || s[0] == '.' then 0 else 1 + UntilDot(s[1..])
  }

  function AfterDot(s: string): string {
    if UntilDot(s) == |s| then "" else s[UntilDot(s) + 1..]
  }

  function ParseInstances(s: string): Option<seq<nat>>
    decreases |s|
  {
    if s == "" then Some([])
    else if !AllDigits(s[..UntilDot(s)]) then None
    else
      match ParseInstances(AfterDot(s))
      case None => None
      case Some(rest) => Some([NumberOf(s[..UntilDot(s)])] + rest)
  }

  lemma {:induction false} UntilDotOf(ds: string, rest: string)
    requires AllDigits(ds) && (rest == "" || rest[0] == '.')
    ensures UntilDot(ds + rest) == |ds|
  {
    if ds == "" {
      assert ds + rest == rest;
    } else {
      assert (ds + rest)[1..] == ds[1..] + rest;
      UntilDotOf(ds[1..], rest);
    }
  }

  /** A number and what follows it, which is nothing or a dot and the other numbers. */
  lemma {:induction false} ParsesFirst(n: nat, rest: string, others: seq<nat>)
    requires rest == "" || rest[0] == '.'
    requires ParseInstances(if rest == "" then "" else rest[1..]) == Some(others)
    ensures ParseInstances(NumberText(n) + rest) == Some([n] + others)
  {
    var first := NumberText(n);
    var s := first + rest;
    NumberBack(n);
    UntilDotOf(first, rest);
    assert s[..|first|] == first;
    assert AfterDot(s) == (if rest == "" then "" else rest[1..]);
  }

  /** A string is malformed exactly if it holds anything but digits and dots. */
  lemma {:induction false} MalformedExactly(s: string)
    ensures ParseInstances(s).Some? <==> forall i :: 0 <= i < |s| ==> IsDigit(s[i]) || s[i] == '.'
    decreases |s|
  {
    if s != "" {
      var first, rest := s[..UntilDot(s)], AfterDot(s);
      MalformedExactly(rest);
      NoDotBefore(s);
      if ParseInstances(s).Some? {
        forall i | 0 <= i < |s| ensures IsDigit(s[i]) || s[i] == '.' {
          if i < |first| {
            assert s[i] == first[i];
          } else if i > |first| {
            assert s[i] == rest[i - |first| - 1];
          }
        }
      }
    }
  }

  lemma {:induction false} NoDotBefore(s: string)
    ensures forall i :: 0 <= i < UntilDot(s) ==> s[i] != '.'
  {
    if s != "" && s[0] != '.' {
      NoDotBefore(s[1..]);
      assert forall i :: 0 < i < |s| ==> s[i] == s[1..][i - 1];
    }
  }

  /** Parsing a formed instance string gives back the numbers. */
  lemma {:induction false} InstancesRoundTrip(numbers: seq<nat>)
    ensures ParseInstances(InstanceText(numbers)) == Some(numbers)
  {
    if |numbers| == 1 {
      assert NumberText(numbers[0]) + "" == NumberText(numbers[0]);
      ParsesFirst(numbers[0], "", []);
      assert [numbers[0]] + [] == numbers;
    } else if |numbers| > 1 {
      var rest := "." + InstanceText(numbers[1..]);
      InstancesRoundTrip(numbers[1..]);
      assert rest[1..] == InstanceText(numbers[1..]);
      ParsesFirst(numbers[0], rest, numbers[1..]);
      assert [numbers[0]] + numbers[1..] == numbers;
    }
  }

  /** So different lists of numbers have different keys. */
  lemma {:induction false} InstanceTextInjective(a: seq<nat>, b: seq<nat>)
    ensures InstanceText(a) == InstanceText(b) <==> a == b
  {
    InstancesRoundTrip(a);
    InstancesRoundTrip(b);
  }

  lemma {:induction false} AppendNumber(numbers: seq<nat>, n: nat)
    ensures InstanceText(numbers + [n]) ==
              InstanceText(numbers) + (if numbers == [] then "" else ".") + NumberText(n)
  {
    if |numbers| > 1 {
      AppendNumber(numbers[1..], n);
      assert (numbers + [n])[1..] == numbers[1..] + [n];
    } else if |numbers| == 1 {
      assert (numbers + [n])[1..] == [n];
    }
  }

  /** Appends the numbers one by one. */
  method FormInstanceString(numbers: seq<nat>) returns (s: string)
    ensures s == InstanceText(numbers)
  {
    s := "";
    var i := 0;
    while i < |numbers|
      invariant i <= |numbers| && s == InstanceText(numbers[..i])
    {
      AppendNumber(numbers[..i], numbers[i]);
      assert numbers[..i + 1] == numbers[..i] + [numbers[i]];
      s := if i == 0 then s + NumberText(numbers[i]) else s + "." + NumberText(numbers[i]);
      i := i + 1;
    }
    assert numbers[..i] == numbers;
  }

  lemma {:induction false} DigitsUpTo(s: string, p: nat, i: nat)
    requires p <= i <= |s| && AllDigits(s[p..i]) && (i == |s| || !IsDigit(s[i]))
    ensures UntilDot(s[p..]) >= i - p
    ensures i == |s| || s[i] == '.' ==> UntilDot(s[p..]) == i - p
    ensures i < |s| && s[i] != '.' ==> !AllDigits(s[p..][..UntilDot(s[p..])])
    decreases i - p
  {
    if p < i {
      assert s[p..][1..] == s[p + 1..] && IsDigit(s[p..i][0]);
      assert s[p + 1..i] == s[p..i][1..];
      DigitsUpTo(s, p + 1, i);
      if i < |s| && s[i] != '.' {
        assert s[p..][i - p] == s[i];
      }
    }
  }

  /** Parses the number at position p and moves behind the dot after it. */
  method ParseInstanceInteger(s: string, p: nat) returns (value: nat, next: Option<nat>)
    requires p < |s|
    ensures if AllDigits(s[p..][..UntilDot(s[p..])])
            then next.Some? && p < next.value <= |s| && value == NumberOf(s[p..][..UntilDot(s[p..])])
                 && s[next.value..] == AfterDot(s[p..])
            else next.None?
  {
    value := 0;
    var i := p;
    assert s[p..i] == "";
    while i < |s| && s[i] != '.'
      invariant p <= i <= |s| && AllDigits(s[p..i]) && value == NumberOf(s[p..i])
    {
      if !IsDigit(s[i]) {
        DigitsUpTo(s, p, i);
        return value, None;
      }
      NumberGrows(s[p..i], s[i]);
      assert s[p..i + 1] == s[p..i] + [s[i]];
      value := value * 10 + (s[i] as int - '0' as int);
      i := i + 1;
    }
    DigitsUpTo(s, p, i);
    assert s[p..][..i - p] == s[p..i];
    if i < |s| {
      i := i + 1;
    }
    return value, Some(i);
  }

  function Behind(found: seq<nat>, rest: Option<seq<nat>>): Option<seq<nat>> {
    if rest.None? then None else Some(found + rest.value)
  }

  lemma {:induction false} BehindOneMore(found: seq<nat>, s: string)
    requires s != "" && AllDigits(s[..UntilDot(s)])
    ensures Behind(found, ParseInstances(s)) ==
              Behind(found + [NumberOf(s[..UntilDot(s)])], ParseInstances(AfterDot(s)))
  {
    if ParseInstances(AfterDot(s)).Some? {
      var n, rest := NumberOf(s[..UntilDot(s)]), ParseInstances(AfterDot(s)).value;
      assert found + ([n] + rest) == (found + [n]) + rest;
    }
  }

  /** Parses all the numbers of an instance string. */
  method ParseInstanceString(s: string) returns (numbers: Option<seq<nat>>)
    ensures numbers == ParseInstances(s)
  {
    var found: seq<nat> := [];
    var p := 0;
    assert s[0..] == s;
    assert ParseInstances(s).Some? ==> [] + ParseInstances(s).value == ParseInstances(s).value;
    while p < |s|
      invariant p <= |s|
      invariant ParseInstances(s) == Behind(found, ParseInstances(s[p..]))
    {
      var value, next := ParseInstanceInteger(s, p);
      if next.None? {
        return None;
      }
      BehindOneMore(found, s[p..]);
      p, found := next.value, found + [value];
    }
    assert s[p..] == "" && found + [] == found;
    return Some(found);
  }
}

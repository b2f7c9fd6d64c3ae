/** Data model paths: schema paths with '{i}' for instance numbers, instantiated paths with numbers, and
    the scan that leads from an instantiated path back to its schema path and its numbers. */
module SchemaPaths {
  import opened Options
  import opened InstanceNumbers

  const MAX_ORDER: nat := 6
  const MARKER: string := "{i}"
  const DOT_MARKER: string := ".{i}"

  // ---------------------------------------------------------------------------------------
  // Hashes.

  const OFFSET_BASIS: nat := 0x811C9DC5
  const FNV_PRIME: nat := 0x1000193

  function Xor(a: nat, b: nat): nat
    decreases a + b
  {
    if a == 0 then b
    else if b == 0 then a
    else 2 * Xor(a / 2, b / 2) + (if a % 2 != b % 2 then 1 else 0)
  }

  function AddToHash(c: char, hash: nat): nat {
    Xor(hash * FNV_PRIME % 0x1_0000_0000, c as nat)
  }

  function HashFrom(hash: nat, s: string): nat
    decreases |s|
  {
    if s == "" then hash else HashFrom(AddToHash(s[0], hash), s[1..])
  }

  function CalcHash(s: string): nat {
    HashFrom(OFFSET_BASIS, s)
  }

  lemma {:induction false} HashAppend(hash: nat, a: string, b: string)
    ensures HashFrom(hash, a + b) == HashFrom(HashFrom(hash, a), b)
    decreases |a|
  {
    if a == "" {
      assert a + b == b;
    } else {
      assert (a + b)[1..] == a[1..] + b;
      HashAppend(AddToHash(a[0], hash), a[1..], b);
    }
  }

  // ---------------------------------------------------------------------------------------
  // The scan over an instantiated path.

  /** The characters that enter the hash, and the instance numbers. */
  datatype Scan = Scanned(schema: string, numbers: seq<nat>) | TooMany

  function Before(schema: string, numbers: seq<nat>, rest: Scan): Scan {
    match rest
    case TooMany => TooMany
    case Scanned(s, ns) => Scanned(schema + s, numbers + ns)
  }

  function SkipDots(s: string): (r: string)
    ensures |r| <= |s| && (r == "" || r[0] != '.')
  {
    if s == "" || s[0] != '.' then s else SkipDots(s[1..])
  }

  function DigitRun(s: string): (n: nat)
    ensures n <= |s| && AllDigits(s[..n]) && (n < |s| ==> !IsDigit(s[n]))
  {
    if s == "" || !IsDigit(s[0]) then 0 else 1 + DigitRun(s[1..])
  }

  /** The segment that `s` begins with is an instance number. */
  predicate StartsWithNumber(s: string) {
    DigitRun(s) > 0 && (DigitRun(s) == |s| || s[DigitRun(s)] == '.')
  }

  function ScanFrom(s: string, order: nat): Scan
    decreases |s|, 0
  {
    if s == "" then Scanned("", [])
    else if s[0] == '.' then ScanSegment(SkipDots(s[1..]), order)
    else if s[0] == '*' then Before(MARKER, [], ScanFrom(s[1..], order))
    else Before([s[0]], [], ScanFrom(s[1..], order))
  }

  /** Behind one or more dots. */
  function ScanSegment(s: string, order: nat): Scan
    decreases |s|, 1
  {
    if s == "" then Scanned("", [])
    else if StartsWithNumber(s) then
      if order == MAX_ORDER then TooMany
      else Before(DOT_MARKER, [NumberOf(s[..DigitRun(s)])], ScanFrom(s[DigitRun(s)..], order + 1))
    else Before(".", [], ScanFrom(s, order))
  }

  // ---------------------------------------------------------------------------------------
  // Schema paths as lists of segments.

  datatype Segment = Segment(name: string, table: bool)

  /** What stands for the instance of a table in a path. */
  datatype Filler = Number(n: nat) | Star | Marker

  predicate GoodName(name: string) {
    && name != "" && !IsDigit(name[0])
    && forall i :: 0 <= i < |name| ==> name[i] != '.' && name[i] != '*' && name[i] != '{'
  }

  predicate GoodNames(segs: seq<Segment>) {
    forall i :: 0 <= i < |segs| ==> GoodName(segs[i].name)
  }

  function Tables(segs: seq<Segment>): nat {
    if segs == [] then 0 else (if segs[0].table then 1 else 0) + Tables(segs[1..])
  }

  function FillerText(f: Filler): string {
    match f
    case Number(n) => NumberText(n)
    case Star => "*"
    case Marker => MARKER
  }

  /** The text of segments behind the root. */
  function Text(segs: seq<Segment>, fill: seq<Filler>): string
    requires |fill| == Tables(segs)
    decreases |segs|
  {
    if segs == [] then ""
    else if segs[0].table then "." + (segs[0].name + ("." + (FillerText(fill[0]) + Text(segs[1..], fill[1..]))))
    else "." + (segs[0].name + Text(segs[1..], fill))
  }

  function Markers(n: nat): seq<Filler> {
    seq(n, _ => Marker)
  }

  function Numbers(fill: seq<Filler>): seq<nat> {
    if fill == [] then []
    else (if fill[0].Number? then [fill[0].n] else []) + Numbers(fill[1..])
  }

  function Numbered(numbers: seq<nat>): seq<Filler> {
    seq(|numbers|, i requires 0 <= i < |numbers| => Number(numbers[i]))
  }

  /** The schema path of segments below a root. */
  function SchemaText(segs: seq<Segment>): string {
    Text(segs, Markers(Tables(segs)))
  }

  lemma {:induction false} SchemaTextStep(segs: seq<Segment>)
    requires segs != []
    ensures SchemaText(segs) ==
              "." + (segs[0].name + ((if segs[0].table then DOT_MARKER else "") + SchemaText(segs[1..])))
  {
    if segs[0].table {
      assert Markers(Tables(segs))[1..] == Markers(Tables(segs[1..]));
      assert "." + (MARKER + SchemaText(segs[1..])) == DOT_MARKER + SchemaText(segs[1..]);
    } else {
      assert "" + SchemaText(segs[1..]) == SchemaText(segs[1..]);
    }
  }

  lemma {:induction false} NumbersOf(numbers: seq<nat>)
    ensures Numbers(Numbered(numbers)) == numbers
  {
    if numbers != [] {
      assert Numbered(numbers)[1..] == Numbered(numbers[1..]);
      NumbersOf(numbers[1..]);
      assert [numbers[0]] + numbers[1..] == numbers;
    }
  }

  // ---------------------------------------------------------------------------------------
  // Scanning the text of segments.

  predicate Plain(s: string) {
    forall i :: 0 <= i < |s| ==> s[i] != '.' && s[i] != '*'
  }

  lemma {:induction false} ScanPlain(a: string, b: string, order: nat)
    requires Plain(a)
    ensures ScanFrom(a + b, order) == Before(a, [], ScanFrom(b, order))
    decreases |a|
  {
    var rest := ScanFrom(b, order);
    if a == "" {
      assert a + b == b;
      if rest.Scanned? {
        assert "" + rest.schema == rest.schema && [] + rest.numbers == rest.numbers;
      }
    } else {
      assert (a + b)[1..] == a[1..] + b;
      ScanPlain(a[1..], b, order);
      if rest.Scanned? {
        assert [a[0]] + (a[1..] + rest.schema) == a + rest.schema;
      }
    }
  }

  lemma {:induction false} DigitRunOf(ds: string, rest: string)
    requires AllDigits(ds) && (rest == "" || !IsDigit(rest[0]))
    ensures DigitRun(ds + rest) == |ds|
  {
    if ds == "" {
      assert ds + rest == rest;
    } else {
      assert (ds + rest)[1..] == ds[1..] + rest;
      DigitRunOf(ds[1..], rest);
    }
  }

  /** A number behind a dot. */
  lemma {:induction false} ScanNumber(n: nat, rest: string, order: nat)
    requires order <= MAX_ORDER && (rest == "" || rest[0] == '.')
    ensures ScanFrom("." + (NumberText(n) + rest), order) ==
              if order == MAX_ORDER then TooMany else Before(DOT_MARKER, [n], ScanFrom(rest, order + 1))
  {
    var s := NumberText(n) + rest;
    NumberBack(n);
    DigitRunOf(NumberText(n), rest);
    assert ("." + s)[1..] == s && IsDigit(s[0]);
    assert s[..|NumberText(n)|] == NumberText(n) && s[|NumberText(n)|..] == rest;
  }

  /** A name behind a dot. */
  lemma {:induction false} ScanName(name: string, rest: string, order: nat)
    requires GoodName(name)
    ensures ScanFrom("." + (name + rest), order) == Before("." + name, [], ScanFrom(rest, order))
  {
    var s := name + rest;
    assert ("." + s)[1..] == s && s[0] == name[0];
    assert SkipDots(s) == s && DigitRun(s) == 0;
    ScanPlain(name, rest, order);
  }

  lemma {:induction false} Joined(rest: Scan)
    ensures Before(".", [], Before(MARKER, [], rest)) == Before(DOT_MARKER, [], rest)
  {
    if rest.Scanned? {
      assert "." + (MARKER + rest.schema) == DOT_MARKER + rest.schema;
      assert [] + ([] + rest.numbers) == [] + rest.numbers;
    }
  }

  lemma {:induction false} ScanStar(rest: string, order: nat)
    ensures ScanFrom("." + ("*" + rest), order) == Before(DOT_MARKER, [], ScanFrom(rest, order))
  {
    var s := "*" + rest;
    Joined(ScanFrom(rest, order));
    assert ("." + s)[1..] == s && s[0] == '*' && s[1..] == rest;
    assert SkipDots(s) == s && DigitRun(s) == 0;
    assert ScanFrom(s, order) == Before(MARKER, [], ScanFrom(rest, order));
  }

  lemma {:induction false} ScanMarker(rest: string, order: nat)
    ensures ScanFrom("." + (MARKER + rest), order) == Before(DOT_MARKER, [], ScanFrom(rest, order))
  {
    var s := MARKER + rest;
    Joined(ScanFrom(rest, order));
    assert ("." + s)[1..] == s && s[0] == '{';
    assert SkipDots(s) == s && DigitRun(s) == 0;
    ScanPlain(MARKER, rest, order);
  }

  lemma {:induction false} ScanFiller(f: Filler, rest: string, order: nat)
    requires order <= MAX_ORDER && (rest == "" || rest[0] == '.')
    ensures ScanFrom("." + (FillerText(f) + rest), order) ==
              if f.Number? && order == MAX_ORDER then TooMany
              else Before(DOT_MARKER, if f.Number? then [f.n] else [], ScanFrom(rest, if f.Number? then order + 1 else order))
  {
    match f
    case Number(n) => ScanNumber(n, rest, order);
    case Star => ScanStar(rest, order);
    case Marker => ScanMarker(rest, order);
  }

  lemma {:induction false} TextStart(segs: seq<Segment>, fill: seq<Filler>)
    requires |fill| == Tables(segs)
    ensures Text(segs, fill) == "" || Text(segs, fill)[0] == '.'
  {
  }

  /** Whatever stands for the instances, the scan finds the schema path, and the numbers in their order, unless there
      are more numbers than it can take. */
  lemma {:induction false} ScanText(segs: seq<Segment>, fill: seq<Filler>, order: nat)
    requires GoodNames(segs) && |fill| == Tables(segs) && order <= MAX_ORDER
    ensures ScanFrom(Text(segs, fill), order) ==
              if order + |Numbers(fill)| <= MAX_ORDER then Scanned(SchemaText(segs), Numbers(fill)) else TooMany
    decreases |segs|
  {
    if segs == [] {
    } else if segs[0].table {
      var rest := Text(segs[1..], fill[1..]);
      TextStart(segs[1..], fill[1..]);
      ScanName(segs[0].name, "." + (FillerText(fill[0]) + rest), order);
      ScanFiller(fill[0], rest, order);
      if !(fill[0].Number? && order == MAX_ORDER) {
        ScanText(segs[1..], fill[1..], if fill[0].Number? then order + 1 else order);
      }
      SchemaTextStep(segs);
      Regrouped(segs[0].name, DOT_MARKER, SchemaText(segs[1..]));
      var x := if fill[0].Number? then [fill[0].n] else [];
      assert [] + (x + Numbers(fill[1..])) == Numbers(fill);
    } else {
      ScanName(segs[0].name, Text(segs[1..], fill), order);
      ScanText(segs[1..], fill, order);
      SchemaTextStep(segs);
      Regrouped(segs[0].name, "", SchemaText(segs[1..]));
      assert [] + Numbers(fill) == Numbers(fill);
    }
  }

  lemma {:induction false} Regrouped(name: string, marker: string, rest: string)
    ensures ("." + name) + (marker + rest) == "." + (name + (marker + rest))
    ensures marker == "" ==> marker + rest == rest
  {
  }

  // ---------------------------------------------------------------------------------------
  // Dots.

  lemma {:induction false} SkipDotsAppend(a: string, x: string)
    ensures SkipDots(a + x) == if SkipDots(a) == "" then SkipDots(x) else SkipDots(a) + x
    decreases |a|
  {
    if a == "" {
      assert a + x == x;
    } else if a[0] == '.' {
      assert (a + x)[1..] == a[1..] + x;
      SkipDotsAppend(a[1..], x);
    }
  }

  lemma {:induction false} DigitRunAppend(b: string, x: string)
    requires x == "" || x[0] == '.'
    ensures DigitRun(b + x) == DigitRun(b)
    decreases |b|
  {
    if b == "" {
      assert b + x == x;
    } else if IsDigit(b[0]) {
      assert (b + x)[1..] == b[1..] + x;
      DigitRunAppend(b[1..], x);
    }
  }

  /** The end of a path, or the dots in front of its next segment. */
  predicate AtDots(x: string) {
    x == "" || x[0] == '.'
  }

  lemma {:induction false} ScanSegmentAppend(b: string, x: string, order: nat)
    requires b != "" && b[0] != '.' && AtDots(x)
    ensures var n := DigitRun(b);
            ScanSegment(b + x, order) ==
              if StartsWithNumber(b) then
                if order == MAX_ORDER then TooMany
                else Before(DOT_MARKER, [NumberOf(b[..n])], ScanFrom(b[n..] + x, order + 1))
              else Before(".", [], ScanFrom(b + x, order))
  {
    var n := DigitRun(b);
    DigitRunAppend(b, x);
    assert (b + x)[..n] == b[..n] && (b + x)[n..] == b[n..] + x;
  }

  lemma {:induction false} ScanDots(x: string, order: nat)
    requires AtDots(x)
    ensures ScanFrom(x, order) == ScanSegment(SkipDots(x), order)
  {
  }

  lemma {:induction false} ScanDot(a: string, x: string, order: nat)
    requires a != "" && a[0] == '.' && AtDots(x)
    ensures var b := SkipDots(a[1..]);
            ScanFrom(a + x, order) == ScanSegment(if b == "" then SkipDots(x) else b + x, order)
  {
    assert (a + x)[1..] == a[1..] + x;
    SkipDotsAppend(a[1..], x);
  }

  lemma {:induction false} SegmentsAlike(b: string, x: string, y: string, order: nat)
    requires b != "" && b[0] != '.' && AtDots(x) && AtDots(y)
    requires if StartsWithNumber(b)
             then order != MAX_ORDER ==> ScanFrom(b[DigitRun(b)..] + x, order + 1) == ScanFrom(b[DigitRun(b)..] + y, order + 1)
             else ScanFrom(b + x, order) == ScanFrom(b + y, order)
    ensures ScanSegment(b + x, order) == ScanSegment(b + y, order)
  {
    ScanSegmentAppend(b, x, order);
    ScanSegmentAppend(b, y, order);
  }

  /** How many dots separate two segments, or end a path, makes no difference. */
  lemma {:induction false} DotsAreOne(a: string, x: string, y: string, order: nat)
    requires AtDots(x) && AtDots(y) && SkipDots(x) == SkipDots(y)
    ensures ScanFrom(a + x, order) == ScanFrom(a + y, order)
    decreases |a|, 1
  {
    if a == "" {
      assert a + x == x && a + y == y;
      ScanDots(x, order);
      ScanDots(y, order);
    } else if a[0] == '.' {
      var b := SkipDots(a[1..]);
      if b != "" {
        if !StartsWithNumber(b) {
          DotsAreOne(b, x, y, order);
        } else if order != MAX_ORDER {
          DotsAreOne(b[DigitRun(b)..], x, y, order + 1);
        }
        SegmentsAlike(b, x, y, order);
      }
      ScanDot(a, x, order);
      ScanDot(a, y, order);
    } else {
      assert (a + x)[1..] == a[1..] + x && (a + y)[1..] == a[1..] + y && (a + x)[0] == a[0] == (a + y)[0];
      DotsAreOne(a[1..], x, y, order);
    }
  }

  /** In particular a doubled dot, and a dot at the end. */
  lemma {:induction false} ExtraDots(a: string, b: string, order: nat)
    ensures ScanFrom(a + (".." + b), order) == ScanFrom(a + ("." + b), order)
    ensures ScanFrom(a + ".", order) == ScanFrom(a, order)
  {
    assert (".." + b)[1..] == "." + b && ("." + b)[1..] == b;
    DotsAreOne(a, ".." + b, "." + b, order);
    assert "."[1..] == "" && a + "" == a;
    DotsAreOne(a, ".", "", order);
  }

  // ---------------------------------------------------------------------------------------
  // Forming an instantiated path.

  /** Replaces every marker by the next number; the numbers have to be used up. */
  function Instantiate(s: string, numbers: seq<nat>): Option<string>
    decreases |s|
  {
    if s == "" then if numbers == [] then Some("") else None
    else if MARKER <= s then
      if numbers == [] then None else Prefixed(NumberText(numbers[0]), Instantiate(s[3..], numbers[1..]))
    else Prefixed([s[0]], Instantiate(s[1..], numbers))
  }

  function Prefixed(a: string, s: Option<string>): Option<string> {
    if s.None? then None else Some(a + s.value)
  }

  function CountMarkers(s: string): nat
    decreases |s|
  {
    if s == "" then 0 else if MARKER <= s then 1 + CountMarkers(s[3..]) else CountMarkers(s[1..])
  }

  /** It succeeds exactly if there are as many numbers as markers. */
  lemma {:induction false} InstantiateNeeds(s: string, numbers: seq<nat>)
    ensures Instantiate(s, numbers).Some? <==> |numbers| == CountMarkers(s)
    decreases |s|
  {
    if s == "" {
    } else if MARKER <= s {
      if numbers != [] {
        InstantiateNeeds(s[3..], numbers[1..]);
      }
    } else {
      InstantiateNeeds(s[1..], numbers);
    }
  }

  lemma {:induction false} InstantiatePlain(a: string, b: string, numbers: seq<nat>)
    requires forall i :: 0 <= i < |a| ==> a[i] != '{'
    ensures Instantiate(a + b, numbers) == Prefixed(a, Instantiate(b, numbers))
    decreases |a|
  {
    if a == "" {
      assert a + b == b;
      if Instantiate(b, numbers).Some? {
        assert "" + Instantiate(b, numbers).value == Instantiate(b, numbers).value;
      }
    } else {
      assert (a + b)[1..] == a[1..] + b && (a + b)[0] == a[0];
      InstantiatePlain(a[1..], b, numbers);
      if Instantiate(b, numbers).Some? {
        assert [a[0]] + (a[1..] + Instantiate(b, numbers).value) == a + Instantiate(b, numbers).value;
      }
    }
  }

  lemma {:induction false} InstantiateMarker(b: string, numbers: seq<nat>)
    requires numbers != []
    ensures Instantiate(MARKER + b, numbers) == Prefixed(NumberText(numbers[0]), Instantiate(b, numbers[1..]))
  {
    assert (MARKER + b)[3..] == b && MARKER <= MARKER + b;
  }

  lemma {:induction false} InstantiateName(name: string, rest: string, numbers: seq<nat>, t: string)
    requires GoodName(name) && Instantiate(rest, numbers) == Some(t)
    ensures Instantiate("." + (name + rest), numbers) == Some("." + (name + t))
  {
    assert "." + (name + rest) == ("." + name) + rest && "." + (name + t) == ("." + name) + t;
    InstantiatePlain("." + name, rest, numbers);
  }

  lemma {:induction false} InstantiateTable(rest: string, numbers: seq<nat>, t: string)
    requires numbers != [] && Instantiate(rest, numbers[1..]) == Some(t)
    ensures Instantiate(DOT_MARKER + rest, numbers) == Some("." + (NumberText(numbers[0]) + t))
  {
    assert DOT_MARKER + rest == "." + (MARKER + rest);
    InstantiateMarker(rest, numbers);
    InstantiatePlain(".", MARKER + rest, numbers);
  }

  /** Instantiating a schema path puts the numbers where its tables are. */
  lemma {:induction false} InstantiateSchema(segs: seq<Segment>, numbers: seq<nat>)
    requires GoodNames(segs) && |numbers| == Tables(segs)
    ensures Instantiate(SchemaText(segs), numbers) == Some(Text(segs, Numbered(numbers)))
    decreases |segs|
  {
    if segs != [] {
      var rest := SchemaText(segs[1..]);
      SchemaTextStep(segs);
      if segs[0].table {
        assert Numbered(numbers)[1..] == Numbered(numbers[1..]);
        var t := Text(segs[1..], Numbered(numbers[1..]));
        InstantiateSchema(segs[1..], numbers[1..]);
        InstantiateTable(rest, numbers, t);
        InstantiateName(segs[0].name, DOT_MARKER + rest, numbers, "." + (NumberText(numbers[0]) + t));
      } else {
        assert "" + rest == rest;
        InstantiateSchema(segs[1..], numbers);
        InstantiateName(segs[0].name, rest, numbers, Text(segs[1..], Numbered(numbers)));
      }
    }
  }

  /** Scanning an instantiated path gives back the schema path and the numbers it was made from, or fails if there are
      more than six. */
  lemma {:induction false} InstantiateThenScan(root: string, segs: seq<Segment>, numbers: seq<nat>)
    requires GoodName(root) && GoodNames(segs) && |numbers| == Tables(segs)
    ensures var path := Instantiate(root + SchemaText(segs), numbers);
            && path.Some?
            && ScanFrom(path.value, 0) == if |numbers| <= MAX_ORDER then Scanned(root + SchemaText(segs), numbers) else TooMany
  {
    InstantiateSchema(segs, numbers);
    InstantiatePlain(root, SchemaText(segs), numbers);
    ScanBelowRoot(root, segs, Numbered(numbers));
    NumbersOf(numbers);
  }

  lemma {:induction false} ScanBelowRoot(root: string, segs: seq<Segment>, fill: seq<Filler>)
    requires GoodName(root) && GoodNames(segs) && |fill| == Tables(segs)
    ensures ScanFrom(root + Text(segs, fill), 0) ==
              if |Numbers(fill)| <= MAX_ORDER then Scanned(root + SchemaText(segs), Numbers(fill)) else TooMany
  {
    ScanText(segs, fill, 0);
    ScanPlain(root, Text(segs, fill), 0);
    assert [] + Numbers(fill) == Numbers(fill);
  }

  // ---------------------------------------------------------------------------------------
  // The loops over the characters of a path.

  method AddMarker(hash: nat) returns (h: nat)
    ensures h == HashFrom(hash, MARKER)
  {
    h := AddToHash('{', hash);
    h := AddToHash('i', h);
    h := AddToHash('}', h);
    assert MARKER[1..] == "i}" && "i}"[1..] == "}" && "}"[1..] == "";
    assert HashFrom(hash, MARKER) == HashFrom(AddToHash('{', hash), "i}");
    assert HashFrom(AddToHash('{', hash), "i}") == HashFrom(AddToHash('i', AddToHash('{', hash)), "}");
  }

  lemma {:induction false} HashOne(done: string, c: char)
    ensures CalcHash(done + [c]) == AddToHash(c, CalcHash(done))
  {
    HashAppend(OFFSET_BASIS, done, [c]);
    assert [c][1..] == "";
  }

  /** Moves over consecutive dots. */
  method SkipDotsAt(path: string, p: nat) returns (q: nat)
    requires p <= |path|
    ensures p <= q <= |path| && path[q..] == SkipDots(path[p..])
  {
    q := p;
    while q < |path| && path[q] == '.'
      invariant p <= q <= |path| && SkipDots(path[q..]) == SkipDots(path[p..])
    {
      assert path[q..][1..] == path[q + 1..];
      q := q + 1;
    }
  }

  /** Reads the digits at p. */
  method ReadNumber(path: string, p: nat) returns (number: nat, q: nat)
    requires p <= |path|
    ensures p <= q <= |path| && q - p == DigitRun(path[p..]) && number == NumberOf(path[p..][..q - p])
  {
    number, q := 0, p;
    assert path[p..q] == "";
    while q < |path| && IsDigit(path[q])
      invariant p <= q <= |path| && AllDigits(path[p..q]) && number == NumberOf(path[p..q])
    {
      NumberGrows(path[p..q], path[q]);
      assert path[p..q + 1] == path[p..q] + [path[q]];
      number := 10 * number + (path[q] as int - '0' as int);
      q := q + 1;
    }
    assert path[p..] == path[p..q] + path[q..] && path[p..][..q - p] == path[p..q];
    DigitRunOf(path[p..q], path[q..]);
  }

  datatype Hashed = Hashed(hash: nat, numbers: seq<nat>)

  /** What is left to do after `done` and `numbers`. */
  function Then(done: string, numbers: seq<nat>, rest: string): Scan {
    Before(done, numbers, ScanFrom(rest, |numbers|))
  }

  lemma {:induction false} ThenEnd(done: string, numbers: seq<nat>, rest: string)
    requires rest == "" || (rest[0] == '.' && SkipDots(rest[1..]) == "")
    ensures Then(done, numbers, rest) == Scanned(done, numbers)
  {
    ScanDots(rest, |numbers|);
    assert ScanSegment("", |numbers|) == Scanned("", []);
    assert done + "" == done && numbers + [] == numbers;
  }

  lemma {:induction false} ThenChars(done: string, numbers: seq<nat>, s: string, r: Scan)
    ensures Before(done, numbers, Before(s, [], r)) == Before(done + s, numbers, r)
  {
    if r.Scanned? {
      assert done + (s + r.schema) == (done + s) + r.schema && [] + r.numbers == r.numbers;
    }
  }

  lemma {:induction false} ThenDot(done: string, numbers: seq<nat>, rest: string, next: string)
    requires rest != "" && rest[0] == '.' && next == SkipDots(rest[1..]) && next != "" && !StartsWithNumber(next)
    ensures Then(done, numbers, rest) == Then(done + ".", numbers, next)
  {
    ScanDots(rest, |numbers|);
    assert ScanSegment(next, |numbers|) == Before(".", [], ScanFrom(next, |numbers|));
    ThenChars(done, numbers, ".", ScanFrom(next, |numbers|));
  }

  lemma {:induction false} ThenNumber(done: string, numbers: seq<nat>, rest: string, next: string)
    requires rest != "" && rest[0] == '.' && next == SkipDots(rest[1..]) && next != "" && StartsWithNumber(next)
    ensures var n := DigitRun(next);
            Then(done, numbers, rest) ==
              if |numbers| == MAX_ORDER then TooMany
              else Then((done + ".") + MARKER, numbers + [NumberOf(next[..n])], next[n..])
  {
    var n, number := DigitRun(next), NumberOf(next[..DigitRun(next)]);
    var r := ScanFrom(next[n..], |numbers| + 1);
    ScanDots(rest, |numbers|);
    assert ScanSegment(next, |numbers|) == if |numbers| == MAX_ORDER then TooMany else Before(DOT_MARKER, [number], r);
    assert |numbers + [number]| == |numbers| + 1;
    if r.Scanned? {
      assert done + (DOT_MARKER + r.schema) == ((done + ".") + MARKER) + r.schema;
      assert numbers + ([number] + r.numbers) == (numbers + [number]) + r.numbers;
    }
  }

  lemma {:induction false} ThenOther(done: string, numbers: seq<nat>, rest: string)
    requires rest != "" && rest[0] != '.'
    ensures Then(done, numbers, rest) == Then(done + (if rest[0] == '*' then MARKER else [rest[0]]), numbers, rest[1..])
  {
    ThenChars(done, numbers, if rest[0] == '*' then MARKER else [rest[0]], ScanFrom(rest[1..], |numbers|));
  }

  /** The hash of the schema path of an instantiated path, and its instance numbers. */
  method CalcHashFromPath(path: string) returns (r: Option<Hashed>)
    ensures match ScanFrom(path, 0)
            case TooMany => r == None
            case Scanned(schema, numbers) => r == Some(Hashed(CalcHash(schema), numbers))
  {
    var hash, numbers, p := OFFSET_BASIS, [], 0;
    ghost var done := "";
    assert path[0..] == path;
    ThenNothing(path);
    while p < |path|
      invariant p <= |path| && hash == CalcHash(done)
      invariant ScanFrom(path, 0) == Then(done, numbers, path[p..])
    {
      ghost var rest := path[p..];
      assert rest[1..] == path[p + 1..];
      if path[p] == '.' {
        var next := SkipDotsAt(path, p + 1);
        if next == |path| {
          break;
        }
        var number, q := ReadNumber(path, next);
        HashOne(done, '.');
        hash := AddToHash('.', hash);
        if q > next && (q == |path| || path[q] == '.') {
          ThenNumber(done, numbers, rest, path[next..]);
          if |numbers| == MAX_ORDER {
            return None;
          }
          HashAppend(OFFSET_BASIS, done + ".", MARKER);
          hash := AddMarker(hash);
          assert path[next..][q - next..] == path[q..];
          numbers, p, done := numbers + [number], q, (done + ".") + MARKER;
          continue;
        }
        ThenDot(done, numbers, rest, path[next..]);
        p, done := next, done + ".";
      } else {
        ThenOther(done, numbers, rest);
        if path[p] == '*' {
          HashAppend(OFFSET_BASIS, done, MARKER);
          hash := AddMarker(hash);
          done := done + MARKER;
        } else {
          HashOne(done, path[p]);
          hash := AddToHash(path[p], hash);
          done := done + [path[p]];
        }
        p := p + 1;
      }
    }
    ThenEnd(done, numbers, path[p..]);
    return Some(Hashed(hash, numbers));
  }

  lemma {:induction false} ThenNothing(path: string)
    ensures ScanFrom(path, 0) == Then("", [], path)
  {
    var r := ScanFrom(path, 0);
    if r.Scanned? {
      assert "" + r.schema == r.schema && [] + r.numbers == r.numbers;
    }
  }

  lemma {:induction false} PrefixedTwice(a: string, b: string, s: Option<string>)
    ensures Prefixed(a, Prefixed(b, s)) == Prefixed(a + b, s)
  {
    if s.Some? {
      assert a + (b + s.value) == (a + b) + s.value;
    }
  }

  /** The characters that instantiating a path has written by the time it ends, whether it succeeds or not. */
  function Room(s: string, numbers: seq<nat>): nat
    decreases |s|
  {
    if s == "" then 0
    else if MARKER <= s then
      if numbers == [] then 0 else |NumberText(numbers[0])| + Room(s[3..], numbers[1..])
    else 1 + Room(s[1..], numbers)
  }

  lemma {:induction false} RoomOfPath(s: string, numbers: seq<nat>)
    requires Instantiate(s, numbers).Some?
    ensures Room(s, numbers) == |Instantiate(s, numbers).value|
    decreases |s|
  {
    if s != "" {
      if MARKER <= s {
        RoomOfPath(s[3..], numbers[1..]);
      } else {
        RoomOfPath(s[1..], numbers);
      }
    }
  }

  /** What is reported as written of a text of this length: it is cut off if the buffer is smaller. */
  function Written(length: nat, size: nat): (n: nat)
    ensures n <= length && n <= size
  {
    if length <= size then length else size
  }

  /** The loop comes to a character for which its buffer, with `left` bytes to go, has no room: it neither copies
      the character nor moves on. */
  predicate Stalls(s: string, numbers: seq<nat>, left: nat)
    decreases |s|
  {
    if s == "" then false
    else if MARKER <= s then
      numbers != [] && Stalls(s[3..], numbers[1..], left - Written(|NumberText(numbers[0])|, left))
    else left <= 1 || Stalls(s[1..], numbers, left - 1)
  }

  /** What the loop writes up to the last character it copies from the path itself, 0 if there is none: it ends
      at a marker for which no number is left. Numbers behind that character need no room to let the loop go on. */
  function NameRoom(s: string, numbers: seq<nat>): nat
    decreases |s|
  {
    if s == "" then 0
    else if MARKER <= s then
      if numbers == [] then 0
      else
        var r := NameRoom(s[3..], numbers[1..]);
        if r == 0 then 0 else |NumberText(numbers[0])| + r
    else 1 + NameRoom(s[1..], numbers)
  }

  /** For every path, every list of numbers and every buffer: the loop stalls exactly if it has a character to copy
      and the buffer no room for everything up to the last of these and the terminator. */
  lemma {:induction false} StallsWithoutRoom(s: string, numbers: seq<nat>, left: nat)
    ensures Stalls(s, numbers, left) <==> 0 < NameRoom(s, numbers) && left <= NameRoom(s, numbers)
    decreases |s|
  {
    if s != "" {
      if MARKER <= s {
        if numbers != [] {
          StallsWithoutRoom(s[3..], numbers[1..], left - Written(|NumberText(numbers[0])|, left));
        }
      } else if left > 1 {
        StallsWithoutRoom(s[1..], numbers, left - 1);
      }
    }
  }

  lemma {:induction false} NameRoomWithin(s: string, numbers: seq<nat>)
    ensures NameRoom(s, numbers) <= Room(s, numbers)
    decreases |s|
  {
    if s != "" {
      if MARKER <= s {
        if numbers != [] {
          NameRoomWithin(s[3..], numbers[1..]);
        }
      } else {
        NameRoomWithin(s[1..], numbers);
      }
    }
  }

  /** So a buffer with room for all that is written never stalls the loop. */
  lemma {:induction false} RoomNeverStalls(s: string, numbers: seq<nat>, left: nat)
    requires Room(s, numbers) < left
    ensures !Stalls(s, numbers, left)
  {
    StallsWithoutRoom(s, numbers, left);
    NameRoomWithin(s, numbers);
  }

  lemma {:induction false} CopiesMarker(out: string, rest: string, numbers: seq<nat>)
    requires MARKER <= rest && numbers != []
    ensures Prefixed(out + NumberText(numbers[0]), Instantiate(rest[3..], numbers[1..])) == Prefixed(out, Instantiate(rest, numbers))
    ensures Room(rest, numbers) == |NumberText(numbers[0])| + Room(rest[3..], numbers[1..])
  {
    PrefixedTwice(out, NumberText(numbers[0]), Instantiate(rest[3..], numbers[1..]));
  }

  lemma {:induction false} CopiesCharacter(out: string, rest: string, numbers: seq<nat>)
    requires rest != "" && !(MARKER <= rest)
    ensures Prefixed(out + [rest[0]], Instantiate(rest[1..], numbers)) == Prefixed(out, Instantiate(rest, numbers))
    ensures Room(rest, numbers) == 1 + Room(rest[1..], numbers)
  {
    PrefixedTwice(out, [rest[0]], Instantiate(rest[1..], numbers));
  }

  predicate MarkerAt(s: string, p: nat) {
    p + 3 <= |s| && s[p..p + 3] == MARKER
  }

  lemma {:induction false} MarkerAhead(s: string, p: nat)
    requires p < |s|
    ensures MarkerAt(s, p) <==> MARKER <= s[p..]
    ensures MarkerAt(s, p) ==> s[p..][3..] == s[p + 3..]
    ensures s[p..][0] == s[p] && s[p..][1..] == s[p + 1..]
  {
    if |s[p..]| >= 3 {
      assert s[p..][..3] == s[p..p + 3];
    }
  }

  /** What has been copied, and what is left of path, numbers and buffer. */
  datatype Copy = Copy(out: string, rest: string, numbers: seq<nat>, left: int)

  ghost predicate Copying(c: Copy, goal: Option<string>, len: nat) {
    && Room(c.rest, c.numbers) < c.left == len - |c.out|
    && Prefixed(c.out, Instantiate(c.rest, c.numbers)) == goal
  }

  lemma {:induction false} CopyBegins(schema: string, numbers: seq<nat>, len: nat)
    requires Room(schema, numbers) < len
    ensures schema[0..] == schema && numbers[0..] == numbers
    ensures Copying(Copy("", schema, numbers, len), Instantiate(schema, numbers), len)
  {
    assert Instantiate(schema, numbers).Some? ==> "" + Instantiate(schema, numbers).value == Instantiate(schema, numbers).value;
  }

  lemma {:induction false} CopyGoesOn(c: Copy, c': Copy, goal: Option<string>, len: nat)
    requires Copying(c, goal, len) && c.rest != ""
    requires MARKER <= c.rest ==> c.numbers != []
    requires c' == if MARKER <= c.rest
                   then Copy(c.out + NumberText(c.numbers[0]), c.rest[3..], c.numbers[1..], c.left - |NumberText(c.numbers[0])|)
                   else Copy(c.out + [c.rest[0]], c.rest[1..], c.numbers, c.left - 1)
    ensures Copying(c', goal, len) && (!(MARKER <= c.rest) ==> c.left > 1)
  {
    if MARKER <= c.rest {
      CopiesMarker(c.out, c.rest, c.numbers);
    } else {
      CopiesCharacter(c.out, c.rest, c.numbers);
    }
  }

  lemma {:induction false} CopyEnds(c: Copy, goal: Option<string>, len: nat)
    requires Copying(c, goal, len) && (c.rest == "" || (MARKER <= c.rest && c.numbers == []))
    ensures goal == (if c.rest == "" && c.numbers == [] then Some(c.out) else None)
    ensures goal.Some? ==> |goal.value| < len
  {
    assert c.out + "" == c.out;
  }

  /** Replaces the markers of a schema path by the numbers, one after the other. `len` is the size of the
      buffer: a character is copied only if there is room for it and the terminator, and the loop waits for
      room that never comes if there is none. */
  method FormInstantiatedPath(schema: string, numbers: seq<nat>, len: nat) returns (r: Option<string>)
    requires Room(schema, numbers) < len
    ensures r == Instantiate(schema, numbers)
    ensures r.Some? ==> |r.value| < len
  {
    var out, p, i, left := "", 0, 0, len;
    ghost var goal := Instantiate(schema, numbers);
    CopyBegins(schema, numbers, len);
    while p < |schema|
      invariant p <= |schema| && i <= |numbers|
      invariant Copying(Copy(out, schema[p..], numbers[i..], left), goal, len)
    {
      ghost var before := Copy(out, schema[p..], numbers[i..], left);
      MarkerAhead(schema, p);
      if MarkerAt(schema, p) {
        if i == |numbers| {
          CopyEnds(before, goal, len);
          return None;
        }
        var text := NumberText(numbers[i]);
        out, left := out + text, left - |text|;
        p, i := p + 3, i + 1;
        assert numbers[i - 1..][1..] == numbers[i..] && numbers[i - 1..][0] == numbers[i - 1];
        CopyGoesOn(before, Copy(out, schema[p..], numbers[i..], left), goal, len);
      } else {
        CopyGoesOn(before, Copy(out + [schema[p]], schema[p + 1..], numbers[i..], left - 1), goal, len);
        if left > 1 {
          out, left := out + [schema[p]], left - 1;
          p := p + 1;
        }
      }
    }
    CopyEnds(Copy(out, schema[p..], numbers[i..], left), goal, len);
    return if i != |numbers| then None else Some(out);
  }
}

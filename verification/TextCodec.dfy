/** The text encodings the history queries use: decimal text, zero-padded markers that a
    textual MAX can compare, and comma-separated lists built by `string_agg`. */
module TextCodec {
  import opened Wrappers
  import opened Ordering

  // ---------------------------------------------------------------- text order

  predicate TextLess(a: string, b: string) {
    if b == "" then false
    else if a == "" then true
    else a[0] < b[0] || (a[0] == b[0] && TextLess(a[1..], b[1..]))
  }

  predicate TextMore(a: string, b: string) { TextLess(b, a) }

  lemma {:induction false} TextLessIsStrict(a: string, b: string, c: string)
    ensures !TextLess(a, a)
    ensures TextLess(a, b) && TextLess(b, c) ==> TextLess(a, c)
    ensures a != b ==> TextLess(a, b) || TextLess(b, a)
    decreases |a| + |b| + |c|
  {
    if a != "" { TextLessIsStrict(a[1..], if b == "" then b else b[1..], if c == "" then c else c[1..]); }
    if a != "" && b != "" { assert a == [a[0]] + a[1..] && b == [b[0]] + b[1..]; }
  }

  lemma TextOrders()
    ensures StrictTotalOrder(TextLess) && StrictTotalOrder(TextMore)
  {
    forall a, b, c
      ensures !TextLess(a, a)
      ensures TextLess(a, b) && TextLess(b, c) ==> TextLess(a, c)
      ensures a != b ==> TextLess(a, b) || TextLess(b, a)
    {
      TextLessIsStrict(a, b, c);
    }
  }

  /** Text of equal length is compared before anything appended to it. */
  lemma {:induction false} EqualLengthPrefix(p: string, q: string, a: string, b: string)
    requires |p| == |q|
    ensures p != q ==> (TextLess(p + a, q + b) <==> TextLess(p, q))
    ensures p == q ==> (TextLess(p + a, q + b) <==> TextLess(a, b))
    decreases |p|
  {
    if p == "" {
      assert p + a == a && q + b == b;
    } else {
      EqualLengthPrefix(p[1..], q[1..], a, b);
      assert (p + a)[1..] == p[1..] + a && (q + b)[1..] == q[1..] + b;
      assert p == [p[0]] + p[1..] && q == [q[0]] + q[1..];
    }
  }

  // ------------------------------------------------------------- decimal text

  function Pow10(w: nat): (p: nat)
    ensures p >= 1
  {
    if w == 0 then 1 else 10 * Pow10(w - 1)
  }

  function DigitChar(d: nat): char
    requires d < 10
  {
    (48 + d) as char
  }

  predicate IsDigit(c: char) { '0' <= c <= '9' }

  predicate AllDigits(s: string) { forall c | c in s :: IsDigit(c) }

  /** Python's `int` on decimal text. */
  function ParseNat(s: string): nat {
    if s == "" then 0
    else
      var c := s[|s| - 1];
      10 * ParseNat(s[..|s| - 1]) + (if IsDigit(c) then c as nat - 48 else 0)
  }

  lemma ParseAppend(s: string, d: nat)
    requires d < 10
    ensures ParseNat(s + [DigitChar(d)]) == 10 * ParseNat(s) + d
  {
    assert (s + [DigitChar(d)])[..|s|] == s;
  }

  /** `CAST(n AS VARCHAR)`. */
  function Digits(n: nat): (s: string)
    ensures s != "" && AllDigits(s) && ParseNat(s) == n
  {
    if n < 10 then
      ParseAppend("", n);
      assert "" + [DigitChar(n)] == [DigitChar(n)];
      [DigitChar(n)]
    else
      ParseAppend(Digits(n / 10), n % 10);
      Digits(n / 10) + [DigitChar(n % 10)]
  }

  /** `n` in exactly `w` digits. */
  function Fixed(n: nat, w: nat): (s: string)
    requires n < Pow10(w)
    ensures |s| == w && AllDigits(s) && ParseNat(s) == n
  {
    if w == 0 then ""
    else
      ParseAppend(Fixed(n / 10, w - 1), n % 10);
      Fixed(n / 10, w - 1) + [DigitChar(n % 10)]
  }

  lemma DigitOrder(n: nat, m: nat)
    ensures n < m <==> n / 10 < m / 10 || (n / 10 == m / 10 && n % 10 < m % 10)
  {
  }

  lemma OneDigitOrder(c: nat, d: nat)
    requires c < 10 && d < 10
    ensures TextLess([DigitChar(c)], [DigitChar(d)]) <==> c < d
    ensures [DigitChar(c)] == [DigitChar(d)] <==> c == d
  {
  }

  lemma {:induction false} FixedOrder(n: nat, m: nat, w: nat)
    requires n < Pow10(w) && m < Pow10(w)
    ensures TextLess(Fixed(n, w), Fixed(m, w)) <==> n < m
  {
    hide AllDigits, ParseNat, DigitChar;
    if w > 0 {
      var a, b := Fixed(n / 10, w - 1), Fixed(m / 10, w - 1);
      var c, d := [DigitChar(n % 10)], [DigitChar(m % 10)];
      FixedOrder(n / 10, m / 10, w - 1);
      EqualLengthPrefix(a, b, c, d);
      OneDigitOrder(n % 10, m % 10);
      DigitOrder(n, m);
    }
  }

  function Zeros(k: nat): (s: string)
    ensures |s| == k
  {
    if k == 0 then "" else Zeros(k - 1) + "0"
  }

  /** `lpad(s, w, '0')`, which also truncates. */
  function LPad(s: string, w: nat): string {
    if |s| >= w then s[..w] else Zeros(w - |s|) + s
  }

  lemma NeedsTwoDigits(n: nat, w: nat)
    requires 10 <= n < Pow10(w)
    ensures w > 1
  {
    assert Pow10(1) == 10 * Pow10(0) == 10;
  }

  lemma {:induction false} DigitsFit(n: nat, w: nat)
    requires n < Pow10(w) && w > 0
    ensures |Digits(n)| <= w
  {
    if n >= 10 {
      NeedsTwoDigits(n, w);
      DigitsFit(n / 10, w - 1);
    }
  }

  lemma {:induction false} ZeroFixed(w: nat)
    ensures 0 < Pow10(w) && Fixed(0, w) == Zeros(w)
  {
    if w > 0 { ZeroFixed(w - 1); }
  }

  lemma PadAppend(d: string, c: char, w: nat)
    requires |d| < w
    ensures LPad(d + [c], w) == LPad(d, w - 1) + [c]
  {
    if |d| == w - 1 {
      assert d[..w - 1] == d && (d + [c])[..w] == d + [c];
    } else {
      assert Zeros(w - 1 - |d|) + (d + [c]) == Zeros(w - 1 - |d|) + d + [c];
    }
  }

  lemma PadDigit(n: nat, w: nat)
    requires n < 10 && n < Pow10(w) && w > 0
    ensures LPad(Digits(n), w) == Fixed(n, w)
  {
    hide ParseNat, AllDigits, Zeros;
    var d, z := [DigitChar(n)], Zeros(w - 1);
    ZeroFixed(w - 1);
    assert n / 10 == 0 && n % 10 == n;
    assert Digits(n) == d && Fixed(n, w) == z + d;
    if w == 1 { assert d[..1] == d == z + d; }
  }

  /** Padding loses nothing: it is the fixed-width numeral. */
  lemma {:induction false} PadIsFixed(n: nat, w: nat)
    requires n < Pow10(w) && w > 0
    ensures LPad(Digits(n), w) == Fixed(n, w)
  {
    DigitsFit(n, w);
    if n < 10 {
      PadDigit(n, w);
    } else {
      NeedsTwoDigits(n, w);
      PadIsFixed(n / 10, w - 1);
      DigitsFit(n / 10, w - 1);
      PadAppend(Digits(n / 10), DigitChar(n % 10), w);
    }
  }

  // ------------------------------------------------------------------ splitting

  function Grow(x: char, c: char, rest: seq<string>): (parts: seq<string>)
    requires |rest| >= 1
    ensures |parts| >= 1
  {
    if x == c then [""] + rest else [[x] + rest[0]] + rest[1..]
  }

  /** Python's `s.split(c)`. */
  function SplitOn(s: string, c: char): (parts: seq<string>)
    ensures |parts| >= 1
  {
    if s == "" then [""] else Grow(s[0], c, SplitOn(s[1..], c))
  }

  lemma GrowConcat(x: char, c: char, a: seq<string>, b: seq<string>)
    requires |a| >= 1
    ensures Grow(x, c, a + b) == Grow(x, c, a) + b
  {
    assert (a + b)[1..] == a[1..] + b;
  }

  lemma {:induction false} SplitConcat(x: string, c: char, y: string)
    ensures SplitOn(x + [c] + y, c) == SplitOn(x, c) + SplitOn(y, c)
  {
    var s := x + [c] + y;
    if x == "" {
      assert s[1..] == y;
      assert SplitOn(s, c) == Grow(c, c, SplitOn(y, c));
    } else {
      assert s[1..] == x[1..] + [c] + y;
      assert SplitOn(s, c) == Grow(x[0], c, SplitOn(x[1..] + [c] + y, c));
      SplitConcat(x[1..], c, y);
      GrowConcat(x[0], c, SplitOn(x[1..], c), SplitOn(y, c));
    }
  }

  lemma {:induction false} SplitPlain(x: string, c: char)
    requires c !in x
    ensures SplitOn(x, c) == [x]
  {
    if x != "" {
      SplitPlain(x[1..], c);
      assert x == [x[0]] + x[1..];
    }
  }

  /** Text is determined by its parts. */
  lemma {:induction false} SplitInjective(a: string, b: string, c: char)
    requires SplitOn(a, c) == SplitOn(b, c)
    ensures a == b
  {
    if a != "" && b != "" {
      var xs, ys := SplitOn(a[1..], c), SplitOn(b[1..], c);
      GrowParts(a[0], c, xs);
      GrowParts(b[0], c, ys);
      SplitInjective(a[1..], b[1..], c);
      assert a == [a[0]] + a[1..] && b == [b[0]] + b[1..];
    } else if a != "" {
      GrowParts(a[0], c, SplitOn(a[1..], c));
    } else if b != "" {
      GrowParts(b[0], c, SplitOn(b[1..], c));
    }
  }

  /** The character in front and the parts behind it can be read off the grown parts. */
  lemma GrowParts(x: char, c: char, parts: seq<string>)
    requires parts != []
    ensures var g := Grow(x, c, parts);
      && g != [""] && (x == c <==> g[0] == "")
      && (x == c ==> g[1..] == parts) && (x != c ==> g[0][0] == x && [g[0][1..]] + g[1..] == parts)
  {
  }

  /** Python's `s.split(c, 1)[1]`; `s` itself when `c` does not occur. */
  function AfterFirst(s: string, c: char): string {
    if s == "" then "" else if s[0] == c then s[1..] else AfterFirst(s[1..], c)
  }

  lemma {:induction false} AfterFirstAt(x: string, c: char, y: string)
    requires c !in x
    ensures AfterFirst(x + [c] + y, c) == y
  {
    if x == "" {
      assert x + [c] + y == [c] + y;
    } else {
      AfterFirstAt(x[1..], c, y);
      assert (x + [c] + y)[1..] == x[1..] + [c] + y;
    }
  }

  /** The two halves of Python's `s.rsplit(c, 1)`. */
  function RSplitOnce(s: string, c: char): (string, string) {
    if s == "" then ("", "")
    else
      var last := |s| - 1;
      if s[last] == c then (s[..last], "")
      else
        var (head, tail) := RSplitOnce(s[..last], c);
        (head, tail + [s[last]])
  }

  lemma {:induction false} RSplitAt(x: string, c: char, y: string)
    requires c !in y
    ensures RSplitOnce(x + [c] + y, c) == (x, y)
  {
    var s := x + [c] + y;
    if y == "" {
      assert s[..|s| - 1] == x;
    } else {
      var front := y[..|y| - 1];
      RSplitAt(x, c, front);
      assert s[..|s| - 1] == x + [c] + front;
      assert y == front + [y[|y| - 1]];
    }
  }

  // -------------------------------------------------------------- string_agg

  const COMMA: char := ','

  function Join(parts: seq<string>): string {
    if parts == [] then ""
    else if |parts| == 1 then parts[0]
    else parts[0] + [COMMA] + Join(parts[1..])
  }

  lemma {:induction false} SplitJoin(parts: seq<string>)
    requires parts != []
    ensures forall x :: x in SplitOn(Join(parts), COMMA) <==> exists i | 0 <= i < |parts| :: x in SplitOn(parts[i], COMMA)
  {
    if |parts| > 1 {
      SplitJoin(parts[1..]);
      SplitConcat(parts[0], COMMA, Join(parts[1..]));
      forall x
        ensures (exists i | 0 <= i < |parts| :: x in SplitOn(parts[i], COMMA))
           <==> x in SplitOn(parts[0], COMMA) || x in SplitOn(Join(parts[1..]), COMMA)
      {
        if i :| 0 <= i < |parts| && x in SplitOn(parts[i], COMMA) {
          if i > 0 { assert parts[1..][i - 1] == parts[i]; }
        }
        if i :| 0 <= i < |parts[1..]| && x in SplitOn(parts[1..][i], COMMA) {
          assert parts[1 + i] == parts[1..][i];
        }
      }
    }
  }

  lemma {:induction false} JoinNonEmpty(parts: seq<string>)
    requires parts != [] && forall p | p in parts :: p != ""
    ensures Join(parts) != ""
  {
    assert parts[0] in parts;
  }

  /** `string_agg(DISTINCT v, ',')`: NULL over no rows. */
  function StringAgg(values: set<string>): (r: Option<string>)
    ensures r.None? <==> values == {}
  {
    TextOrders();
    if values == {} then None else Some(Join(Ordered(values, TextLess)))
  }

  /** `set(value.split(",")) if value else set()`. */
  function CsvStrSet(value: Option<string>): set<string> {
    if value.None? || value.value == "" then {}
    else set x | x in SplitOn(value.value, COMMA)
  }

  /** `{int(item) for item in value.split(",")} if value else set()`. */
  function CsvIntSet(value: Option<string>): set<nat> {
    set x | x in CsvStrSet(value) :: ParseNat(x)
  }

  ghost predicate PlainItems(values: set<string>) {
    forall v | v in values :: v != "" && COMMA !in v
  }

  /** Reading back an aggregated list of lists yields the union of the lists. */
  lemma AggUnion(csvs: set<string>)
    requires forall c | c in csvs :: c != ""
    ensures forall x :: x in CsvStrSet(StringAgg(csvs)) <==> exists c | c in csvs :: x in CsvStrSet(Some(c))
  {
    hide TextLess, SplitOn;
    TextOrders();
    if csvs != {} {
      var parts := Ordered(csvs, TextLess);
      JoinNonEmpty(parts);
      forall x ensures x in CsvStrSet(StringAgg(csvs)) <==> exists c | c in csvs :: x in CsvStrSet(Some(c)) {
        JoinedMember(parts, csvs, x);
      }
    }
  }

  lemma JoinedMember(parts: seq<string>, csvs: set<string>, x: string)
    requires parts != [] && (forall c :: c in parts <==> c in csvs) && forall c | c in csvs :: c != ""
    ensures x in SplitOn(Join(parts), COMMA) <==> exists c | c in csvs :: x in CsvStrSet(Some(c))
  {
    hide SplitOn, Join;
    SplitJoin(parts);
    if c :| c in csvs && x in CsvStrSet(Some(c)) {
      var i :| 0 <= i < |parts| && parts[i] == c;
      assert x in SplitOn(parts[i], COMMA);
    }
    if i :| 0 <= i < |parts| && x in SplitOn(parts[i], COMMA) {
      assert parts[i] in csvs;
    }
  }

  /** Aggregating a set of plain items and splitting again is the identity. */
  lemma AggRoundTrip(values: set<string>)
    requires PlainItems(values)
    ensures CsvStrSet(StringAgg(values)) == values
    ensures values != {} ==> StringAgg(values).value != ""
  {
    AggUnion(values);
    forall v | v in values ensures CsvStrSet(Some(v)) == {v} { SplitPlain(v, COMMA); }
    forall x ensures x in CsvStrSet(StringAgg(values)) <==> x in values {}
    if values != {} { TextOrders(); JoinNonEmpty(Ordered(values, TextLess)); }
  }

  /** `string_agg(DISTINCT CAST(n AS VARCHAR), ',')`. */
  function IntAgg(ns: set<nat>): (r: Option<string>)
    ensures r.None? <==> ns == {}
  {
    if ns == {} then None
    else
      var n :| n in ns;
      var texts := set m | m in ns :: Digits(m);
      assert Digits(n) in texts;
      StringAgg(texts)
  }

  lemma IntAggRoundTrip(ns: set<nat>)
    ensures CsvIntSet(IntAgg(ns)) == ns
    ensures ns != {} ==> IntAgg(ns).value != ""
  {
    var texts := set m | m in ns :: Digits(m);
    AggRoundTrip(texts);
    forall n ensures n in CsvIntSet(IntAgg(ns)) <==> n in ns {
      if n in ns { assert Digits(n) in texts && ParseNat(Digits(n)) == n; }
    }
    if ns != {} { var n :| n in ns; assert Digits(n) in texts; }
  }

  /** The same two facts for a column that is never NULL. */
  lemma FilledColumns(values: set<string>, ns: set<nat>)
    requires PlainItems(values) && values != {} && ns != {}
    ensures StringAgg(values).Some? && IntAgg(ns).Some?
    ensures var v := StringAgg(values).value; v != "" && CsvStrSet(Some(v)) == values
    ensures var v := IntAgg(ns).value; v != "" && CsvIntSet(Some(v)) == ns
  {
    AggRoundTrip(values);
    IntAggRoundTrip(ns);
  }

  /** Reading back an aggregated list of integer lists yields their union. */
  lemma IntAggUnion(csvs: set<string>)
    requires forall c | c in csvs :: c != ""
    ensures forall n :: n in CsvIntSet(StringAgg(csvs)) <==> exists c | c in csvs :: n in CsvIntSet(Some(c))
  {
    AggUnion(csvs);
  }

  // ------------------------------------------------------------------- markers

  /** Position of an observation in time: (epoch micros, scan, sample record). */
  datatype Marker = Marker(started: nat, scan: nat, sample: nat)

  predicate MarkerLess(a: Marker, b: Marker) {
    || a.started < b.started
    || (a.started == b.started && a.scan < b.scan)
    || (a.started == b.started && a.scan == b.scan && a.sample < b.sample)
  }

  lemma MarkerOrder()
    ensures StrictTotalOrder(MarkerLess)
  {
  }

  const BAR: char := '|'
  const UNIT_SEPARATOR: char := 31 as char

  /** `lpad(CAST(n AS VARCHAR), w, '0')`. */
  function Padded(n: nat, w: nat): string { LPad(Digits(n), w) }

  lemma PaddedPart(n: nat, w: nat)
    requires n < Pow10(w) && w > 0
    ensures |Padded(n, w)| == w && ParseNat(Padded(n, w)) == n
    ensures BAR !in Padded(n, w) && UNIT_SEPARATOR !in Padded(n, w)
  {
    PadIsFixed(n, w);
    assert !IsDigit(BAR) && !IsDigit(UNIT_SEPARATOR);
  }

  lemma PaddedOrder(n: nat, m: nat, w: nat)
    requires n < Pow10(w) && m < Pow10(w) && w > 0
    ensures TextLess(Padded(n, w), Padded(m, w)) <==> n < m
    ensures Padded(n, w) == Padded(m, w) ==> n == m
  {
    PadIsFixed(n, w);
    PadIsFixed(m, w);
    FixedOrder(n, m, w);
    PaddedPart(n, w);
    PaddedPart(m, w);
  }

  /** Three parts separated by bars: what the marker column looks like. */
  function Barred(a: string, b: string, c: string): string { a + [BAR] + b + [BAR] + c }

  /** Bars between parts of fixed width do not disturb the lexicographic order of the parts. */
  lemma BarredOrder(a: string, b: string, c: string, x: string, d: string, e: string, f: string, y: string)
    requires |a| == |d| && |b| == |e| && |c| == |f|
    ensures TextLess(Barred(a, b, c) + x, Barred(d, e, f) + y)
       <==> TextLess(a, d) || (a == d && (TextLess(b, e) || (b == e && (TextLess(c, f) || (c == f && TextLess(x, y))))))
  {
    BarredShape(a, b, c, x);
    BarredShape(d, e, f, y);
    EqualLengthLess(c, f, x, y);
    EqualLengthLess(b, e, [BAR] + (c + x), [BAR] + (f + y));
    EqualLengthLess([BAR], [BAR], c + x, f + y);
    EqualLengthLess(a, d, [BAR] + (b + ([BAR] + (c + x))), [BAR] + (e + ([BAR] + (f + y))));
    EqualLengthLess([BAR], [BAR], b + ([BAR] + (c + x)), e + ([BAR] + (f + y)));
  }

  lemma BarredShape(a: string, b: string, c: string, x: string)
    ensures Barred(a, b, c) + x == a + ([BAR] + (b + ([BAR] + (c + x))))
  {
  }

  lemma EqualLengthLess(a: string, d: string, u: string, v: string)
    requires |a| == |d|
    ensures TextLess(a + u, d + v) <==> TextLess(a, d) || (a == d && TextLess(u, v))
  {
    EqualLengthPrefix(a, d, u, v);
    TextLessIsStrict(a, a, a);
  }

  predicate FitsWidth(m: Marker, w: nat) {
    w > 0 && m.started < Pow10(w) && m.scan < Pow10(w) && m.sample < Pow10(w)
  }

  function PaddedMarker(m: Marker, w: nat): string {
    Barred(Padded(m.started, w), Padded(m.scan, w), Padded(m.sample, w))
  }

  /** Text order of padded markers is the numeric order of their parts, whatever follows them. */
  lemma PaddedMarkerOrder(m: Marker, n: Marker, w: nat, x: string, y: string)
    requires FitsWidth(m, w) && FitsWidth(n, w)
    ensures TextLess(PaddedMarker(m, w) + x, PaddedMarker(n, w) + y) <==> MarkerLess(m, n) || (m == n && TextLess(x, y))
  {
    PaddedPart(m.started, w); PaddedPart(m.scan, w); PaddedPart(m.sample, w);
    PaddedPart(n.started, w); PaddedPart(n.scan, w); PaddedPart(n.sample, w);
    PaddedOrder(m.started, n.started, w);
    PaddedOrder(m.scan, n.scan, w);
    PaddedOrder(m.sample, n.sample, w);
    BarredOrder(Padded(m.started, w), Padded(m.scan, w), Padded(m.sample, w), x,
                Padded(n.started, w), Padded(n.scan, w), Padded(n.sample, w), y);
  }

  /** `(int(part) for part in text.rsplit("|", 2))`. */
  function ParseMarker(text: string): Marker {
    var (head, sample) := RSplitOnce(text, BAR);
    var (started, scan) := RSplitOnce(head, BAR);
    Marker(ParseNat(started), ParseNat(scan), ParseNat(sample))
  }

  lemma ParsePaddedMarker(m: Marker, w: nat)
    requires FitsWidth(m, w)
    ensures ParseMarker(PaddedMarker(m, w)) == m
    ensures UNIT_SEPARATOR !in PaddedMarker(m, w)
  {
    var a, b, c := Padded(m.started, w), Padded(m.scan, w), Padded(m.sample, w);
    PaddedPart(m.started, w); PaddedPart(m.scan, w); PaddedPart(m.sample, w);
    RSplitAt(a + [BAR] + b, BAR, c);
    RSplitAt(a, BAR, b);
    BarredText(a, b, c);
  }

  lemma BarredText(a: string, b: string, c: string)
    requires UNIT_SEPARATOR !in a && UNIT_SEPARATOR !in b && UNIT_SEPARATOR !in c
    ensures UNIT_SEPARATOR !in Barred(a, b, c)
  {
  }

  /** The queries pad to 20 digits, which leaves room for every value below 10^20. */
  const MARKER_WIDTH: nat := 20
  const MARKER_BOUND: nat := 100_000_000_000_000_000_000

  predicate FitsMarker(m: Marker) {
    m.started < MARKER_BOUND && m.scan < MARKER_BOUND && m.sample < MARKER_BOUND
  }

  lemma {:induction false} Pow10Sum(a: nat, b: nat)
    ensures Pow10(a + b) == Pow10(a) * Pow10(b)
  {
    if a > 0 { Pow10Sum(a - 1, b); }
  }

  lemma FitsMarkerWidth(m: Marker)
    requires FitsMarker(m)
    ensures FitsWidth(m, MARKER_WIDTH)
  {
    assert Pow10(5) == 100_000;
    Pow10Sum(5, 5);
    Pow10Sum(10, 10);
  }

  function MarkerText(m: Marker): string { PaddedMarker(m, MARKER_WIDTH) }

  function PayloadText(m: Marker, hostname: string): string {
    MarkerText(m) + ([UNIT_SEPARATOR] + hostname)
  }

  lemma MarkerTextOrder(m: Marker, n: Marker)
    requires FitsMarker(m) && FitsMarker(n)
    ensures TextLess(MarkerText(m), MarkerText(n)) <==> MarkerLess(m, n)
  {
    FitsMarkerWidth(m);
    FitsMarkerWidth(n);
    PaddedMarkerOrder(m, n, MARKER_WIDTH, "", "");
    assert MarkerText(m) + "" == MarkerText(m) && MarkerText(n) + "" == MarkerText(n);
  }

  lemma PayloadOrder(m: Marker, h: string, n: Marker, i: string)
    requires FitsMarker(m) && FitsMarker(n) && m != n
    ensures TextLess(PayloadText(m, h), PayloadText(n, i)) <==> MarkerLess(m, n)
  {
    FitsMarkerWidth(m);
    FitsMarkerWidth(n);
    PaddedMarkerOrder(m, n, MARKER_WIDTH, [UNIT_SEPARATOR] + h, [UNIT_SEPARATOR] + i);
  }

  lemma ParseMarkerText(m: Marker)
    requires FitsMarker(m)
    ensures ParseMarker(MarkerText(m)) == m
  {
    FitsMarkerWidth(m);
    ParsePaddedMarker(m, MARKER_WIDTH);
  }

  lemma PayloadHostname(m: Marker, hostname: string)
    requires FitsMarker(m)
    ensures AfterFirst(PayloadText(m, hostname), UNIT_SEPARATOR) == hostname
  {
    FitsMarkerWidth(m);
    ParsePaddedMarker(m, MARKER_WIDTH);
    AfterFirstAt(MarkerText(m), UNIT_SEPARATOR, hostname);
    assert PayloadText(m, hostname) == MarkerText(m) + [UNIT_SEPARATOR] + hostname;
  }
}

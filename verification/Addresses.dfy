/** Address normalisation. The standard IP-address parser is a parameter known only through
    the laws in `Lawful`; everything else follows the code. */
module Addresses {
  import opened Wrappers
  import opened TextCodec

  /** A parsed address: an IPv4 address is its dotted quad; an IPv6 address is its printed
      form, its embedded IPv4 address when it is IPv4-mapped, and its loopback flag. */
  datatype IpAddress =
    | V4(quad: string)
    | V6(text: string, mapped: Option<string>, loopback: bool)

  datatype IpLibrary = IpLibrary(parse: string -> Option<IpAddress>)

  datatype Family = IPv4 | IPv6

  const MAPPED_PREFIX := "::ffff:"

  predicate CanonicalOctet(part: string) {
    part != "" && AllDigits(part) && |part| <= 3 && (|part| > 1 ==> part[0] != '0') && ParseNat(part) <= 255
  }

  predicate CanonicalIpv4(candidate: string) {
    var parts := SplitOn(candidate, '.');
    |parts| == 4 && forall p | p in parts :: CanonicalOctet(p)
  }

  function BeforePercent(address: string): string { SplitOn(address, '%')[0] }

  /** Scoped IPv6 text, with a zone after `%`, may parse and print its zone; the code parses such
      text with its zone cut off, or finds that the rest does not parse either. */
  ghost predicate Lawful(lib: IpLibrary) {
    forall s :: LawfulAt(lib, s)
  }

  ghost predicate LawfulAt(lib: IpLibrary, s: string) {
    var parsed := lib.parse(s);
    && (CanonicalIpv4(s) ==> parsed == Some(V4(s)) && LawfulMapped(lib, s))
    && (parsed.Some? ==> lib.parse(BeforePercent(s)).Some?)
    && match parsed
       case None => true
       case Some(V4(quad)) => CanonicalIpv4(quad)
       case Some(V6(text, mapped, _)) =>
         && ('%' !in s ==> lib.parse(text) == parsed && '%' !in text) && ':' in text
         && (mapped.Some? ==> CanonicalIpv4(mapped.value))
  }

  ghost predicate LawfulMapped(lib: IpLibrary, quad: string) {
    match lib.parse(MAPPED_PREFIX + quad)
    case Some(V6(_, mapped, _)) => mapped == Some(quad)
    case _ => false
  }

  function Print(a: IpAddress): string {
    match a
    case V4(quad) => quad
    case V6(text, mapped, _) => if mapped.Some? then mapped.value else text
  }

  function Normalize(lib: IpLibrary, address: string): string {
    var candidate := BeforePercent(address);
    if CanonicalIpv4(candidate) then candidate
    else
      match lib.parse(candidate)
      case None => address
      case Some(a) => Print(a)
  }

  predicate IsLoopback(lib: IpLibrary, address: string) {
    var normalized := Normalize(lib, address);
    if CanonicalIpv4(normalized) then SplitOn(normalized, '.')[0] == "127"
    else if ':' !in normalized then false
    else
      match lib.parse(normalized)
      case None => false
      case Some(V4(quad)) => SplitOn(quad, '.')[0] == "127"
      case Some(V6(_, _, loopback)) => loopback
  }

  function AddressFamily(lib: IpLibrary, address: string): Family {
    var normalized := Normalize(lib, address);
    match lib.parse(normalized)
    case Some(V6(_, _, _)) => IPv6
    case Some(V4(_)) => IPv4
    case None => ColonFamily(normalized)
  }

  function ColonFamily(text: string): Family { if ':' in text then IPv6 else IPv4 }

  // ------------------------------------------------------------------- laws

  lemma {:induction false} SplitCovers(s: string, c: char, x: char)
    requires x in s && x != c
    ensures exists p | p in SplitOn(s, c) :: x in p
  {
    var rest := SplitOn(s[1..], c);
    var parts := SplitOn(s, c);
    if s[0] == x {
      assert x in parts[0];
    } else {
      SplitCovers(s[1..], c, x);
      var p :| p in rest && x in p;
      var i :| 0 <= i < |rest| && rest[i] == p;
      if s[0] == c { assert parts[i + 1] == p; }
      else if i > 0 { assert parts[i] == p; }
      else { assert x in parts[0]; }
    }
  }

  /** What precedes a separator does not contain it. */
  lemma {:induction false} HeadPlain(s: string, c: char)
    ensures c !in SplitOn(s, c)[0]
  {
    if s != "" { HeadPlain(s[1..], c); }
  }

  lemma LeadingDigit(s: string)
    requires s != "" && AllDigits(s) && s[0] != '0'
    ensures ParseNat(s) > 0
    decreases |s|
  {
    assert s[0] in s;
    if |s| > 1 {
      var front := s[..|s| - 1];
      assert forall c | c in front :: c in s;
      LeadingDigit(front);
    }
  }

  lemma LastDigit(s: string)
    requires s != "" && AllDigits(s)
    ensures var front, d := s[..|s| - 1], s[|s| - 1] as int - 48;
      0 <= d < 10 && DigitChar(d) == s[|s| - 1] && AllDigits(front) && ParseNat(s) == 10 * ParseNat(front) + d
  {
    assert s[|s| - 1] in s;
    forall c | c in s[..|s| - 1] ensures c in s {}
  }

  lemma TenTimes(k: nat, d: nat)
    requires d < 10
    ensures (10 * k + d) / 10 == k && (10 * k + d) % 10 == d
  {
  }

  lemma DigitsMore(n: nat)
    requires n >= 10
    ensures Digits(n) == Digits(n / 10) + [DigitChar(n % 10)]
  {
  }

  lemma DigitsOne(n: nat)
    requires n < 10
    ensures Digits(n) == [DigitChar(n)]
  {
  }

  /** Decimal text without a leading zero is what printing its number gives. */
  lemma {:induction false} PrintedBack(s: string)
    requires s != "" && AllDigits(s) && (|s| > 1 ==> s[0] != '0')
    ensures Digits(ParseNat(s)) == s
    decreases |s|
  {
    hide Digits, DigitChar, AllDigits;
    LastDigit(s);
    var front, d := s[..|s| - 1], s[|s| - 1] as nat - 48;
    if |s| == 1 {
      assert s == [s[0]];
      DigitsOne(d);
    } else {
      hide ParseNat;
      LeadingDigit(front);
      PrintedBack(front);
      TenTimes(ParseNat(front), d);
      DigitsMore(10 * ParseNat(front) + d);
      assert s == front + [s[|s| - 1]];
    }
  }

  lemma {:induction false} NoLeadingZero(n: nat)
    ensures n > 0 ==> Digits(n)[0] != '0'
    ensures n == 0 ==> Digits(n) == "0"
  {
    if n >= 10 { NoLeadingZero(n / 10); }
  }

  /** An octet is the printed form of a number up to 255 … */
  lemma OctetNumber(part: string) returns (n: nat)
    requires CanonicalOctet(part)
    ensures n <= 255 && part == Digits(n)
  {
    hide Digits;
    PrintedBack(part);
    n := ParseNat(part);
  }

  /** … and every such form is an octet. */
  lemma NumberIsOctet(n: nat)
    requires n <= 255
    ensures CanonicalOctet(Digits(n))
  {
    NoLeadingZero(n);
    assert Pow10(3) == 1000 by { assert Pow10(2) == 100 && Pow10(1) == 10; }
    DigitsFit(n, 3);
  }

  /** Four texts with dots between. */
  function Dotted(a: string, b: string, c: string, d: string): string { a + "." + b + "." + c + "." + d }

  lemma SplitDotted(a: string, b: string, c: string, d: string)
    requires '.' !in a && '.' !in b && '.' !in c && '.' !in d
    ensures SplitOn(Dotted(a, b, c, d), '.') == [a, b, c, d]
  {
    hide SplitOn;
    SplitPlain(a, '.');
    SplitPlain(b, '.');
    SplitPlain(c, '.');
    SplitPlain(d, '.');
    SplitConcat(a, '.', b + "." + c + "." + d);
    SplitConcat(b, '.', c + "." + d);
    SplitConcat(c, '.', d);
    assert Dotted(a, b, c, d) == a + ['.'] + (b + "." + c + "." + d);
    assert b + "." + c + "." + d == b + ['.'] + (c + "." + d);
    assert c + "." + d == c + ['.'] + d;
  }

  lemma DigitsHaveNoDot(n: nat)
    ensures '.' !in Digits(n)
  {
    assert AllDigits(Digits(n));
  }

  /** `s` prints four numbers up to 255 with dots between. */
  ghost predicate PrintsQuad(s: string, a: nat, b: nat, c: nat, d: nat) {
    a <= 255 && b <= 255 && c <= 255 && d <= 255 && s == Dotted(Digits(a), Digits(b), Digits(c), Digits(d))
  }

  lemma QuadNumbers(s: string) returns (a: nat, b: nat, c: nat, d: nat)
    requires CanonicalIpv4(s)
    ensures PrintsQuad(s, a, b, c, d)
  {
    hide Digits, SplitOn, CanonicalOctet, Dotted;
    var parts := SplitOn(s, '.');
    assert parts[0] in parts && parts[1] in parts && parts[2] in parts && parts[3] in parts;
    a := OctetNumber(parts[0]);
    b := OctetNumber(parts[1]);
    c := OctetNumber(parts[2]);
    d := OctetNumber(parts[3]);
    QuadParts(a, b, c, d);
    assert parts == [Digits(a), Digits(b), Digits(c), Digits(d)];
    SplitInjective(s, Dotted(Digits(a), Digits(b), Digits(c), Digits(d)), '.');
  }

  lemma NumbersAreQuad(s: string, a: nat, b: nat, c: nat, d: nat)
    requires PrintsQuad(s, a, b, c, d)
    ensures CanonicalIpv4(s)
  {
    hide Digits, SplitOn, CanonicalOctet, Dotted;
    QuadParts(a, b, c, d);
    NumberIsOctet(a);
    NumberIsOctet(b);
    NumberIsOctet(c);
    NumberIsOctet(d);
  }

  /** A dotted quad is four numbers up to 255, printed with dots between, and nothing else is. */
  lemma QuadExactly(s: string)
    ensures CanonicalIpv4(s) <==> exists a, b, c, d :: PrintsQuad(s, a, b, c, d)
  {
    hide CanonicalIpv4, PrintsQuad;
    if CanonicalIpv4(s) { var a, b, c, d := QuadNumbers(s); }
    if a: nat, b: nat, c: nat, d: nat :| PrintsQuad(s, a, b, c, d) { NumbersAreQuad(s, a, b, c, d); }
  }

  lemma QuadParts(a: nat, b: nat, c: nat, d: nat)
    ensures SplitOn(Dotted(Digits(a), Digits(b), Digits(c), Digits(d)), '.') == [Digits(a), Digits(b), Digits(c), Digits(d)]
  {
    hide Digits, SplitOn, Dotted;
    DigitsHaveNoDot(a);
    DigitsHaveNoDot(b);
    DigitsHaveNoDot(c);
    DigitsHaveNoDot(d);
    SplitDotted(Digits(a), Digits(b), Digits(c), Digits(d));
  }

  lemma CanonicalChars(s: string)
    requires CanonicalIpv4(s)
    ensures ':' !in s && '%' !in s && BeforePercent(s) == s
  {
    forall x | x in s ensures x == '.' || IsDigit(x) {
      if x != '.' { SplitCovers(s, '.', x); }
    }
    SplitPlain(s, '%');
  }

  lemma MappedIsNotCanonical(quad: string)
    ensures !CanonicalIpv4(MAPPED_PREFIX + quad)
  {
    var s := MAPPED_PREFIX + quad;
    assert s[0] == ':';
    assert ':' in s;
    if CanonicalIpv4(s) { CanonicalChars(s); }
  }

  lemma PrintedIsNormal(lib: IpLibrary, s: string)
    requires Lawful(lib) && lib.parse(s).Some? && '%' !in s
    ensures Normalize(lib, Print(lib.parse(s).value)) == Print(lib.parse(s).value)
  {
    var a := lib.parse(s).value;
    var text := Print(a);
    assert LawfulAt(lib, s) && LawfulAt(lib, text);
    if a.V4? || a.mapped.Some? {
      CanonicalChars(text);
    } else {
      SplitPlain(text, '%');
    }
  }

  lemma NormalizeIdempotent(lib: IpLibrary, address: string)
    requires Lawful(lib)
    ensures Normalize(lib, Normalize(lib, address)) == Normalize(lib, address)
  {
    var candidate := BeforePercent(address);
    HeadPlain(address, '%');
    if CanonicalIpv4(candidate) {
      CanonicalChars(candidate);
    } else if lib.parse(candidate).Some? {
      PrintedIsNormal(lib, candidate);
    }
  }

  /** The IPv4 shortcut changes nothing: the parser alone gives the same text. */
  lemma FastPathAgrees(lib: IpLibrary, address: string)
    requires Lawful(lib)
    ensures var parsed := lib.parse(BeforePercent(address));
      Normalize(lib, address) == if parsed.None? then address else Print(parsed.value)
  {
    assert LawfulAt(lib, BeforePercent(address));
  }

  lemma MappedSpelling(lib: IpLibrary, quad: string)
    requires Lawful(lib) && CanonicalIpv4(quad)
    ensures Normalize(lib, MAPPED_PREFIX + quad) == quad
    ensures Normalize(lib, quad) == quad
  {
    CanonicalChars(quad);
    var s := MAPPED_PREFIX + quad;
    assert LawfulAt(lib, quad);
    assert '%' !in s;
    SplitPlain(s, '%');
    MappedIsNotCanonical(quad);
  }

  lemma LoopbackOfNormal(lib: IpLibrary, address: string)
    requires Lawful(lib)
    ensures IsLoopback(lib, Normalize(lib, address)) == IsLoopback(lib, address)
  {
    NormalizeIdempotent(lib, address);
  }

  /** What counts as loopback, by what the parser makes of the text before a zone: an IPv4 address, or
      the one an IPv6 address maps, in 127.0.0.0/8, or an IPv6 address that the parser calls loopback. */
  lemma LoopbackExactly(lib: IpLibrary, address: string)
    requires Lawful(lib)
    ensures IsLoopback(lib, address) <==>
      match lib.parse(BeforePercent(address))
      case Some(V4(quad)) => InLoopbackNet(quad)
      case Some(V6(_, Some(quad), _)) => InLoopbackNet(quad)
      case Some(V6(_, None, loopback)) => loopback
      case None => false
  {
    hide CanonicalIpv4, InLoopbackNet, BeforePercent;
    var candidate, n := BeforePercent(address), Normalize(lib, address);
    PlainCandidate(address);
    assert LawfulAt(lib, candidate) && LawfulAt(lib, n) && LawfulAt(lib, address);
    FastPathAgrees(lib, address);
    if CanonicalIpv4(n) {
      FirstOctet(n);
      CanonicalChars(n);
    }
  }

  lemma PlainCandidate(address: string)
    ensures '%' !in BeforePercent(address)
  {
    HeadPlain(address, '%');
  }

  ghost predicate InLoopbackNet(quad: string) { |quad| >= 4 && quad[..4] == "127." }

  lemma FirstOctet(quad: string)
    requires CanonicalIpv4(quad)
    ensures SplitOn(quad, '.')[0] == "127" <==> InLoopbackNet(quad)
  {
    hide Digits, CanonicalIpv4, SplitOn;
    var a, b, c, d := QuadNumbers(quad);
    QuadParts(a, b, c, d);
    DigitsHaveNoDot(a);
    var rest := "." + Digits(b) + "." + Digits(c) + "." + Digits(d);
    FrontOfDotted(Digits(a), rest);
    Regroup(Digits(a), Digits(b), Digits(c), Digits(d));
  }

  lemma Regroup(a: string, b: string, c: string, d: string)
    ensures Dotted(a, b, c, d) == a + ("." + b + "." + c + "." + d)
  {
  }

  lemma FrontOfDotted(a: string, rest: string)
    requires '.' !in a && rest != "" && rest[0] == '.'
    ensures a == "127" <==> InLoopbackNet(a + rest)
  {
    var s := a + rest;
    assert s[|a|] == '.' && forall i | 0 <= i < |a| :: s[i] == a[i] && a[i] in a;
    if a == "127" {
      assert s[..4] == "127.";
    }
    if InLoopbackNet(s) {
      assert s[0] == s[..4][0] && s[1] == s[..4][1] && s[2] == s[..4][2] && s[3] == s[..4][3];
      assert |a| == 3 && a == [a[0], a[1], a[2]];
    }
  }

  /** The two ways the code classifies a local address agree. */
  lemma FamilyOfNormal(lib: IpLibrary, address: string)
    requires Lawful(lib)
    ensures AddressFamily(lib, Normalize(lib, address)) == ColonFamily(Normalize(lib, address))
    ensures AddressFamily(lib, address) == ColonFamily(Normalize(lib, address))
  {
    var n := Normalize(lib, address);
    var candidate := BeforePercent(address);
    HeadPlain(address, '%');
    NormalizeIdempotent(lib, address);
    assert LawfulAt(lib, candidate) && LawfulAt(lib, n) && LawfulAt(lib, address);
    if CanonicalIpv4(n) { CanonicalChars(n); }
  }

  /** The least a parser must know: dotted quads and their mapped spellings. */
  function MinimalParse(s: string): Option<IpAddress> {
    if CanonicalIpv4(s) then Some(V4(s))
    else if |s| >= 7 && s[..7] == MAPPED_PREFIX && CanonicalIpv4(s[7..]) then Some(V6(s, Some(s[7..]), false))
    else None
  }

  lemma MinimalParseKnows(q: string)
    requires CanonicalIpv4(q)
    ensures MinimalParse(q) == Some(V4(q)) && BeforePercent(q) == q
    ensures var s := MAPPED_PREFIX + q;
      MinimalParse(s) == Some(V6(s, Some(q), false)) && BeforePercent(s) == s && ':' in s && '%' !in s
  {
    CanonicalChars(q);
    MappedIsNotCanonical(q);
    var s := MAPPED_PREFIX + q;
    assert s[..7] == MAPPED_PREFIX && s[7..] == q && s[0] == ':';
    assert '%' !in s;
    SplitPlain(s, '%');
  }

  lemma MinimalParseRange(s: string)
    requires MinimalParse(s).Some?
    ensures CanonicalIpv4(s) || (|s| >= 7 && CanonicalIpv4(s[7..]) && s == MAPPED_PREFIX + s[7..])
  {
  }

  /** The laws are consistent. */
  lemma LawfulLibraryExists()
    ensures exists lib :: Lawful(lib)
  {
    var lib := IpLibrary(MinimalParse);
    forall s ensures LawfulAt(lib, s) {
      if CanonicalIpv4(s) { MinimalParseKnows(s); }
      else if MinimalParse(s).Some? { MinimalParseRange(s); MinimalParseKnows(s[7..]); }
    }
    assert Lawful(lib);
  }

  /** The operations the aggregation code calls, as one bundle. */
  datatype AddressRules = AddressRules(
    normalize: string -> string,
    loopback: string -> bool,
    family: string -> Family)

  function RulesOf(lib: IpLibrary): AddressRules {
    AddressRules(s => Normalize(lib, s), s => IsLoopback(lib, s), s => AddressFamily(lib, s))
  }

  /** All the aggregation proofs need to know about addresses. */
  ghost predicate Coherent(rules: AddressRules) {
    forall s :: CoherentAt(rules, s)
  }

  ghost predicate CoherentAt(rules: AddressRules, s: string) {
    && rules.normalize(rules.normalize(s)) == rules.normalize(s)
    && rules.loopback(rules.normalize(s)) == rules.loopback(s)
    && rules.family(rules.normalize(s)) == ColonFamily(rules.normalize(s))
  }

  lemma RulesAreCoherent(lib: IpLibrary)
    requires Lawful(lib)
    ensures Coherent(RulesOf(lib))
  {
    forall s ensures CoherentAt(RulesOf(lib), s) {
      NormalizeIdempotent(lib, s);
      LoopbackOfNormal(lib, s);
      FamilyOfNormal(lib, s);
    }
  }

  /** Stored spellings of an address: its normal form, or the IPv4-mapped form of that. */
  predicate KnownSpelling(rules: AddressRules, address: string) {
    var normal := rules.normalize(address);
    address == normal || (address == MAPPED_PREFIX + normal && ':' !in normal)
  }

  // ------------------------------------------------------------- memo table

  /** `normalize_ip_address` with its process-wide memo table. */
  class AddressNormalizer {
    const lib: IpLibrary
    var cache: map<string, string>

    ghost predicate Valid()
      reads this
    {
      forall s | s in cache :: cache[s] == Normalize(lib, s)
    }

    constructor (lib: IpLibrary)
      ensures Valid() && this.lib == lib && cache == map[]
    {
      this.lib := lib;
      cache := map[];
    }

    /** Whatever was asked before, the answer is the uncached one. */
    method NormalizeCached(address: Option<string>) returns (r: Option<string>)
      requires Valid()
      modifies this
      ensures Valid()
      ensures r == if address.None? then None else Some(Normalize(lib, address.value))
      ensures cache == if address.None? then old(cache) else old(cache)[address.value := Normalize(lib, address.value)]
    {
      if address.None? { return None; }
      if address.value in cache {
        r := Some(cache[address.value]);
        assert cache == cache[address.value := cache[address.value]];
        return;
      }
      var result := Normalize(lib, address.value);
      cache := cache[address.value := result];
      r := Some(result);
    }
  }
}

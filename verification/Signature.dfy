/** The webhook signature header: building it and verifying it. The keyed digest is a parameter;
    all that is assumed of it is that it yields a nonempty string of hexadecimal digits. */
module Signature {
  import opened Options

  type Bytes = string                      // one character per byte
  type Mac = (string, Bytes) -> string     // key, message

  predicate IsHex(s: string) {
    s != "" && forall c | c in s :: '0' <= c <= '9' || 'a' <= c <= 'f'
  }

  // ----- Python string functions -----

  /** `str.isspace` for one character. */
  predicate IsSpace(c: char) {
    || '\t' <= c <= '\r' || '\U{1c}' <= c <= ' ' || c == '\U{85}' || c == '\U{a0}' || c == '\U{1680}'
    || '\U{2000}' <= c <= '\U{200a}' || c == '\U{2028}' || c == '\U{2029}' || c == '\U{202f}'
    || c == '\U{205f}' || c == '\U{3000}'
  }

  /** The whitespace that `int` skips: four control characters count as space for `str` only. */
  predicate IsNumberSpace(c: char) {
    IsSpace(c) && !('\U{1c}' <= c <= '\U{1f}')
  }

  /** A string without leading and trailing characters of a kind. */
  function Trim(drop: char -> bool, s: string): string {
    if s == "" then ""
    else if drop(s[0]) then Trim(drop, s[1..])
    else if drop(s[|s| - 1]) then Trim(drop, s[..|s| - 1])
    else s
  }

  function Strip(s: string): string {
    Trim(IsSpace, s)
  }

  function Split(s: string): (parts: seq<string>)
    ensures parts != []
  {
    if s == "" then [""]
    else if s[0] == ',' then [""] + Split(s[1..])
    else
      var rest := Split(s[1..]);
      [[s[0]] + rest[0]] + rest[1..]
  }

  function Join(parts: seq<string>): string {
    if parts == [] then ""
    else if |parts| == 1 then parts[0]
    else parts[0] + "," + Join(parts[1..])
  }

  /** `str.partition("=")`: key and value, or `None` without a separator. */
  function Partition(s: string): Option<(string, string)> {
    if s == "" then None
    else if s[0] == '=' then Some(("", s[1..]))
    else
      match Partition(s[1..])
      case None => None
      case Some((key, value)) => Some(([s[0]] + key, value))
  }

  function DigitChar(d: int): char
    requires 0 <= d <= 9
  {
    ('0' as int + d) as char
  }

  function ShowNat(n: nat): string {
    if n < 10 then [DigitChar(n)] else ShowNat(n / 10) + [DigitChar(n % 10)]
  }

  /** `str` of an integer. */
  function Show(n: int): string {
    if n < 0 then "-" + ShowNat(-n) else ShowNat(n)
  }

  /** Decimal values of the characters beyond ASCII, which differ between versions of Unicode. */
  type Decimals = char -> Option<int>

  /** The decimal value of a character. */
  function DigitOf(u: Decimals, c: char): (d: Option<int>)
    ensures d.Some? ==> 0 <= d.value <= 9
    ensures '0' <= c <= '9' ==> d == Some(c as int - '0' as int)
  {
    if '0' <= c <= '9' then Some(c as int - '0' as int)
    else if c < '\U{80}' || u(c).None? || !(0 <= u(c).value <= 9) then None
    else u(c)
  }

  /** Decimal digits with single underscores between them. */
  function ParseNat(u: Decimals, s: string): Option<nat> {
    if s == "" then None
    else
      var digit := DigitOf(u, s[|s| - 1]);
      if digit.None? then None
      else if |s| == 1 then Some(digit.value)
      else
        var cut := if s[|s| - 2] == '_' then |s| - 2 else |s| - 1;
        match ParseNat(u, s[..cut])
        case None => None
        case Some(high) => Some(10 * high + digit.value)
  }

  function DigitCount(s: string): (n: nat)
    ensures n <= |s|
  {
    if s == "" then 0 else DigitCount(s[..|s| - 1]) + if s[|s| - 1] == '_' then 0 else 1
  }

  /** The interpreter refuses to convert longer numerals. */
  const MAX_DIGITS := 4300

  /** `int` of a string; `None` where it raises. */
  function ParseInt(u: Decimals, s: string): Option<int> {
    var t := Trim(IsNumberSpace, s);
    var signed := t != "" && (t[0] == '-' || t[0] == '+');
    var body := if signed then t[1..] else t;
    var digits := ParseNat(u, body);
    if digits.None? || DigitCount(body) > MAX_DIGITS then None
    else
      var n: int := digits.value;
      Some(if signed && t[0] == '-' then -n else n)
  }

  function Power(base: nat, n: nat): nat {
    if n == 0 then 1 else base * Power(base, n - 1)
  }

  /** Subtracting an integer from a clock reading raises OverflowError if the integer rounds to
      nothing that a double can hold. */
  predicate Representable(n: int) {
    -FloatLimit() < n < FloatLimit()
  }

  function FloatLimit(): int {
    Power(2, 1024) - Power(2, 970)
  }

  // ----- Building and verifying -----

  function Expected(mac: Mac, secret: string, timestamp: int, payload: Bytes): string {
    mac(secret, Show(timestamp) + "." + payload)
  }

  function Field(key: string, value: string): string {
    key + "=" + value
  }

  /** t=<timestamp>,v1=<digest> */
  function Build(mac: Mac, payload: Bytes, secret: string, timestamp: int): string {
    Field("t", Show(timestamp)) + "," + Field("v1", Expected(mac, secret, timestamp, payload))
  }

  /** The value a header part contributes under a key, if any. */
  function Contribution(part: string, key: string): seq<string> {
    match Partition(Strip(part))
    case None => []
    case Some((k, value)) => if k == key && value != "" then [value] else []
  }

  function Values(parts: seq<string>, key: string): seq<string> {
    if parts == [] then [] else Values(parts[..|parts| - 1], key) + Contribution(parts[|parts| - 1], key)
  }

  datatype Outcome = Accepted | Rejected | Crashed

  predicate Ascii(s: string) {
    forall c | c in s :: c < '\U{80}'
  }

  /** `any(compare_digest(...))`: comparing with a non-ASCII string raises TypeError. */
  function Compare(expected: string, signatures: seq<string>): Outcome {
    if signatures == [] then Rejected
    else if !Ascii(signatures[0]) then Crashed
    else if signatures[0] == expected then Accepted
    else Compare(expected, signatures[1..])
  }

  predicate Near(now: real, timestamp: int, tolerance: int) {
    -(tolerance as real) <= now - timestamp as real <= tolerance as real
  }

  function Judge(mac: Mac, u: Decimals, payload: Bytes, secret: string, times: seq<string>, signatures: seq<string>,
                 now: real, tolerance: int): Outcome
  {
    if times == [] || ParseInt(u, times[0]).None? then Rejected
    else
      var timestamp := ParseInt(u, times[0]).value;
      if tolerance < 0 then Rejected
      else if !Representable(timestamp) then Crashed
      else if !Near(now, timestamp, tolerance) then Rejected
      else Compare(Expected(mac, secret, timestamp, payload), signatures)
  }

  function Verdict(mac: Mac, u: Decimals, payload: Bytes, header: string, secret: string, now: real,
      tolerance: int): Outcome {
    if header == "" then Rejected
    else Judge(mac, u, payload, secret, Values(Split(header), "t"), Values(Split(header), "v1"), now, tolerance)
  }

  predicate Represents(values: map<string, seq<string>>, parts: seq<string>, key: string) {
    if key in values then values[key] != [] && values[key] == Values(parts, key) else Values(parts, key) == []
  }

  /** The loop over the header parts: a dictionary from keys to the values seen, in order. */
  method Collect(parts: seq<string>) returns (values: map<string, seq<string>>)
    ensures forall key :: Represents(values, parts, key)
  {
    values := map[];
    var i := 0;
    while i < |parts|
      invariant i <= |parts|
      invariant forall key :: Represents(values, parts[..i], key)
    {
      hide Partition, Strip;
      ghost var before, read := values, parts[..i + 1];
      assert read[..i] == parts[..i];
      match Partition(Strip(parts[i])) {
        case None =>
        case Some((key, value)) =>
          if value != "" {
            values := values[key := (if key in values then values[key] else []) + [value]];
          }
      }
      forall key ensures Represents(values, read, key) {
        assert Represents(before, parts[..i], key);
      }
      i := i + 1;
    }
    assert parts[..i] == parts;
  }

  method CompareAll(expected: string, signatures: seq<string>) returns (outcome: Outcome)
    ensures outcome == Compare(expected, signatures)
  {
    var k := 0;
    while k < |signatures|
      invariant k <= |signatures|
      invariant Compare(expected, signatures) == Compare(expected, signatures[k..])
    {
      if !Ascii(signatures[k]) {
        return Crashed;
      }
      if signatures[k] == expected {
        return Accepted;
      }
      k := k + 1;
    }
    return Rejected;
  }

  /** `verify_webhook_signature`; a missing header is rejected like an empty one. */
  method Verify(mac: Mac, u: Decimals, payload: Bytes, header: Option<string>, secret: string, now: real,
      tolerance: int)
    returns (outcome: Outcome)
    ensures outcome == if header.Some? then Verdict(mac, u, payload, header.value, secret, now, tolerance) else Rejected
  {
    hide Split, Values, ParseInt, Compare, Near, Expected, Representable;
    if header.None? || header.value == "" {
      return Rejected;
    }
    var parts := Split(header.value);
    var values := Collect(parts);
    assert Represents(values, parts, "t") && Represents(values, parts, "v1");
    if "t" !in values || ParseInt(u, values["t"][0]).None? || tolerance < 0 {
      return Rejected;
    }
    var timestamp := ParseInt(u, values["t"][0]).value;
    if !Representable(timestamp) {
      return Crashed;
    }
    if !Near(now, timestamp, tolerance) {
      return Rejected;
    }
    outcome := CompareAll(Expected(mac, secret, timestamp, payload), if "v1" in values then values["v1"] else []);
  }

  // ----- Numbers and separators survive the trip -----

  lemma {:induction false} ShowParse(u: Decimals, n: nat)
    ensures ShowNat(n) != "" && ParseNat(u, ShowNat(n)) == Some(n)
    ensures forall c | c in ShowNat(n) :: '0' <= c <= '9'
  {
    if n >= 10 {
      ShowParse(u, n / 10);
      var high := ShowNat(n / 10);
      assert ShowNat(n)[..|high|] == high;
      assert ShowNat(n)[|high| - 1] in high;
    }
  }

  lemma {:induction false} ShowLength(n: nat, k: nat)
    requires k >= 1 && n < Power(10, k)
    ensures |ShowNat(n)| <= k
  {
    if k > 1 && n >= 10 {
      ShowLength(n / 10, k - 1);
    }
  }

  lemma {:induction false} PowerOrder(k: nat)
    ensures 1 <= Power(2, k) <= Power(10, k)
  {
    if k > 0 {
      PowerOrder(k - 1);
    }
  }

  lemma RepresentableIsShort(n: nat)
    requires Representable(n)
    ensures |ShowNat(n)| <= 1024
  {
    hide Power, ShowNat;
    PowerOrder(1024);
    PowerOrder(970);
    ShowLength(n, 1024);
  }

  // ----- What the string functions mean -----

  /** The characters with the Unicode property White_Space, one by one; `strip` also takes off the four
      information separators. */
  lemma SpacesAre(c: char)
    ensures IsNumberSpace(c) <==>
      c in ['\t', '\n', '\U{b}', '\U{c}', '\r', ' ', '\U{85}', '\U{a0}', '\U{1680}', '\U{2000}', '\U{2001}', '\U{2002}',
            '\U{2003}', '\U{2004}', '\U{2005}', '\U{2006}', '\U{2007}', '\U{2008}', '\U{2009}', '\U{200a}', '\U{2028}',
            '\U{2029}', '\U{202f}', '\U{205f}', '\U{3000}']
    ensures IsSpace(c) <==> IsNumberSpace(c) || c in ['\U{1c}', '\U{1d}', '\U{1e}', '\U{1f}']
  {
  }

  lemma {:induction false} TrimFront(drop: char -> bool, before: string, s: string)
    requires forall c | c in before :: drop(c)
    ensures Trim(drop, before + s) == Trim(drop, s)
    decreases |before|
  {
    if before == "" {
      assert before + s == s;
    } else {
      assert (before + s)[1..] == before[1..] + s;
      TrimFront(drop, before[1..], s);
    }
  }

  lemma {:induction false} TrimBack(drop: char -> bool, s: string, after: string)
    requires forall c | c in after :: drop(c)
    requires s != "" && !drop(s[0]) && !drop(s[|s| - 1])
    ensures Trim(drop, s + after) == s
    decreases |after|
  {
    if after == "" {
      assert s + after == s;
    } else {
      assert (s + after)[..|s + after| - 1] == s + after[..|after| - 1];
      TrimBack(drop, s, after[..|after| - 1]);
    }
  }

  /** `strip` takes off exactly the characters of the kind at both ends. */
  lemma TrimMeans(drop: char -> bool, before: string, s: string, after: string)
    requires (forall c | c in before :: drop(c)) && (forall c | c in after :: drop(c))
    requires s != "" ==> !drop(s[0]) && !drop(s[|s| - 1])
    ensures Trim(drop, before + s + after) == s
  {
    if s == "" {
      assert before + s + after == (before + after) + "";
      TrimFront(drop, before + after, "");
    } else {
      assert before + s + after == before + (s + after);
      TrimFront(drop, before, s + after);
      TrimBack(drop, s, after);
    }
  }

  lemma {:induction false} PartitionMeans(s: string)
    ensures match Partition(s)
      case None => '=' !in s
      case Some((key, value)) => s == key + "=" + value && '=' !in key
  {
    if s != "" && s[0] != '=' {
      PartitionMeans(s[1..]);
      assert s == [s[0]] + s[1..];
    }
  }

  /** A part has a value under a key if and only if, stripped, it is that key, an equals sign and a
      nonempty value. */
  lemma ContributionMeans(part: string, key: string, value: string)
    requires '=' !in key
    ensures Contribution(part, key) == [value] <==> value != "" && Strip(part) == key + "=" + value
  {
    hide Strip;
    PartitionMeans(Strip(part));
    PartitionField(key, value);
  }

  /** Digits, with single underscores between them. */
  predicate Numeral(u: Decimals, s: string) {
    && s != "" && s[0] != '_' && s[|s| - 1] != '_'
    && (forall i | 0 <= i < |s| :: s[i] == '_' || DigitOf(u, s[i]).Some?)
    && forall i | 0 < i < |s| :: s[i] != '_' || s[i - 1] != '_'
  }

  /** Where the last digit is cut off. */
  function Cut(s: string): (n: nat)
    requires |s| >= 2
    ensures n < |s|
  {
    if s[|s| - 2] == '_' then |s| - 2 else |s| - 1
  }

  lemma NumeralCut(u: Decimals, s: string)
    requires |s| >= 2
    ensures Numeral(u, s) <==> DigitOf(u, s[|s| - 1]).Some? && Numeral(u, s[..Cut(s)])
  {
    assert DigitOf(u, '_').None?;
    hide DigitOf;
    var init := s[..Cut(s)];
    if DigitOf(u, s[|s| - 1]).Some? && Numeral(u, init) {
      forall i | 0 <= i < |s| ensures s[i] == '_' || DigitOf(u, s[i]).Some? {
        assert i < |init| ==> s[i] == init[i];
      }
      forall i | 0 < i < |s| ensures s[i] != '_' || s[i - 1] != '_' {
        assert i < |init| ==> s[i] == init[i] && s[i - 1] == init[i - 1];
      }
    }
  }

  lemma {:induction false} NumeralIff(u: Decimals, s: string)
    ensures ParseNat(u, s).Some? <==> Numeral(u, s)
    decreases |s|
  {
    if |s| >= 2 {
      hide DigitOf, Numeral;
      NumeralCut(u, s);
      NumeralIff(u, s[..Cut(s)]);
    }
  }

  /** The value is positional, and an underscore before the last digit does not change it. */
  lemma NumeralValue(u: Decimals, high: string, s: string)
    requires s != "" && DigitOf(u, s[|s| - 1]).Some?
    requires if high == "" then |s| == 1 else high[|high| - 1] != '_' && ParseNat(u, high).Some?
    requires s[..|s| - 1] == high || s[..|s| - 1] == high + "_"
    ensures ParseNat(u, s) ==
      Some((if high == "" then 0 else 10 * ParseNat(u, high).value) + DigitOf(u, s[|s| - 1]).value)
  {
    hide DigitOf;
    var init := s[..|s| - 1];
    if high != "" {
      assert s[|s| - 2] == init[|init| - 1];
      if s[|s| - 2] == '_' {
        assert s[..|s| - 2] == init[..|init| - 1] == high;
      }
    }
  }

  lemma {:induction false} DigitCountMeans(s: string)
    ensures DigitCount(s) == |s| - multiset(s)['_']
  {
    if s != "" {
      assert s == s[..|s| - 1] + [s[|s| - 1]];
      DigitCountMeans(s[..|s| - 1]);
    }
  }

  lemma ParseTrimmed(u: Decimals, whole: string, sign: string, s: string)
    requires Trim(IsNumberSpace, whole) == sign + s
    requires sign == "" || sign == "+" || sign == "-"
    requires sign == "" && s != "" ==> s[0] != '+' && s[0] != '-'
    ensures ParseInt(u, whole) ==
      if ParseNat(u, s).None? || DigitCount(s) > MAX_DIGITS then None
      else
        var n: int := ParseNat(u, s).value;
        Some(if sign == "-" then -n else n)
  {
    hide ParseNat, DigitCount, Trim, IsNumberSpace;
    var t := sign + s;
    if sign == "" {
      assert t == s;
    } else {
      assert t[1..] == s && t[0] == sign[0];
    }
  }

  lemma SignedEnds(sign: string, s: string)
    requires sign == "" || sign == "+" || sign == "-"
    requires sign == "" && s != "" ==> !IsNumberSpace(s[0])
    requires s != "" ==> !IsNumberSpace(s[|s| - 1])
    ensures var t := sign + s; t != "" ==> !IsNumberSpace(t[0]) && !IsNumberSpace(t[|t| - 1])
  {
    assert !IsNumberSpace('+') && !IsNumberSpace('-');
    hide IsNumberSpace;
    var t := sign + s;
    assert s != "" ==> t[|t| - 1] == s[|s| - 1];
    assert sign != "" ==> t[0] == sign[0];
    assert sign == "" ==> t == s;
    assert s == "" ==> t == sign;
  }

  /** `int` reads an optional sign and a numeral of at most 4300 digits, between whitespace,
      and raises on everything else. Every string is of this form for one choice of its parts. */
  lemma ParseIntMeans(u: Decimals, before: string, sign: string, s: string, after: string)
    requires (forall c | c in before :: IsNumberSpace(c)) && (forall c | c in after :: IsNumberSpace(c))
    requires sign == "" || sign == "+" || sign == "-"
    requires sign == "" && s != "" ==> !IsNumberSpace(s[0]) && s[0] != '+' && s[0] != '-'
    requires s != "" ==> !IsNumberSpace(s[|s| - 1])
    ensures ParseInt(u, before + (sign + s) + after) ==
      if ParseNat(u, s).None? || |s| - multiset(s)['_'] > 4300 then None
      else
        var n: int := ParseNat(u, s).value;
        Some(if sign == "-" then -n else n)
  {
    hide IsNumberSpace, ParseInt, ParseNat, DigitCount, Trim;
    SignedEnds(sign, s);
    TrimMeans(IsNumberSpace, before, sign + s, after);
    ParseTrimmed(u, before + (sign + s) + after, sign, s);
    DigitCountMeans(s);
  }

  predicate Clean(s: string) {
    s != "" && forall c | c in s :: c != ',' && !IsSpace(c)
  }

  lemma StripClean(s: string)
    requires Clean(s)
    ensures Strip(s) == s && Trim(IsNumberSpace, s) == s
  {
    assert s[0] in s && s[|s| - 1] in s;
  }

  lemma ShowClean(u: Decimals, n: int)
    ensures Clean(Show(n)) && Trim(IsNumberSpace, Show(n)) == Show(n)
  {
    var digits := ShowNat(if n < 0 then -n else n);
    ShowParse(u, if n < 0 then -n else n);
    assert forall c | c in Show(n) :: c in digits || c == '-';
    StripClean(Show(n));
  }

  /** A printed number reads back as itself, unless it has too many digits to be read. */
  lemma ShowInt(u: Decimals, n: int)
    ensures Clean(Show(n))
    ensures ParseInt(u, Show(n)).Some? ==> ParseInt(u, Show(n)) == Some(n)
    ensures Representable(n) ==> ParseInt(u, Show(n)) == Some(n)
  {
    hide FloatLimit, Power, ParseInt, ParseNat, ShowNat, Trim, IsNumberSpace, IsSpace, DigitCount, Clean;
    var m := if n < 0 then -n else n;
    ShowParse(u, m);
    ShowClean(u, n);
    if Representable(n) {
      RepresentableIsShort(m);
    }
    assert ShowNat(m)[0] in ShowNat(m);
    assert n >= 0 ==> "" + ShowNat(m) == Show(n);
    ParseTrimmed(u, Show(n), if n < 0 then "-" else "", ShowNat(m));
  }

  lemma {:induction false} SplitCons(part: string, rest: string)
    requires ',' !in part
    ensures Split(part) == [part]
    ensures Split(part + "," + rest) == [part] + Split(rest)
  {
    if part == "" {
      assert part + "," + rest == "," + rest;
    } else {
      SplitCons(part[1..], rest);
      assert (part + "," + rest)[1..] == part[1..] + "," + rest;
      assert part == [part[0]] + part[1..];
    }
  }

  lemma {:induction false} SplitJoin(parts: seq<string>)
    requires parts != [] && forall p | p in parts :: ',' !in p
    ensures Split(Join(parts)) == parts
  {
    if |parts| == 1 {
      SplitCons(parts[0], "");
    } else {
      SplitJoin(parts[1..]);
      SplitCons(parts[0], Join(parts[1..]));
    }
  }

  lemma PartitionField(key: string, value: string)
    requires '=' !in key
    ensures Partition(key + "=" + value) == Some((key, value))
    decreases |key|
  {
    var s := key + "=" + value;
    if key == "" {
      assert s[1..] == value;
    } else {
      assert s[1..] == key[1..] + "=" + value;
      PartitionField(key[1..], value);
      assert [key[0]] + key[1..] == key;
    }
  }

  lemma FieldValue(key: string, value: string, other: string)
    requires Clean(key) && '=' !in key && Clean(value)
    ensures Clean(Field(key, value))
    ensures Contribution(Field(key, value), other) == if other == key then [value] else []
  {
    StripClean(Field(key, value));
    PartitionField(key, value);
  }

  lemma {:induction false} ValuesConcat(a: seq<string>, b: seq<string>, key: string)
    ensures Values(a + b, key) == Values(a, key) + Values(b, key)
  {
    if b == [] {
      assert a + b == a;
    } else {
      assert (a + b)[..|a + b| - 1] == a + b[..|b| - 1];
      ValuesConcat(a, b[..|b| - 1], key);
    }
  }

  lemma ValuesOfOne(a: string, key: string)
    ensures Values([a], key) == Contribution(a, key)
  {
    assert [a][..0] == [];
  }

  lemma ValuesOfTwo(a: string, b: string, key: string)
    ensures Values([a, b], key) == Contribution(a, key) + Contribution(b, key)
  {
    ValuesConcat([a], [b], key);
    ValuesOfOne(a, key);
    ValuesOfOne(b, key);
  }

  /** An extra signature among the compared ones is harmless exactly when it is ASCII or comes
      after the match. */
  lemma {:induction false} CompareInsert(expected: string, before: seq<string>, x: string, rest: seq<string>)
    requires Compare(expected, before + rest) == Accepted
    ensures Compare(expected, before + [x] + rest) == (if Ascii(x) || expected in before then Accepted else Crashed)
    decreases |before|
  {
    if before == [] {
      assert before + rest == rest && (before + [x] + rest)[1..] == rest;
    } else {
      assert (before + rest)[1..] == before[1..] + rest;
      assert (before + [x] + rest)[1..] == before[1..] + [x] + rest;
      if before[0] != expected {
        CompareInsert(expected, before[1..], x, rest);
      }
    }
  }

  // ----- Main results -----

  /** The fields of a built header, as verification reads them. */
  lemma BuiltFields(number: string, digest: string)
    requires Clean(number) && Clean(digest)
    ensures var parts := [Field("t", number), Field("v1", digest)];
      && Split(Field("t", number) + "," + Field("v1", digest)) == parts
      && (forall p | p in parts :: ',' !in p)
      && Values(parts, "t") == [number]
      && Values(parts, "v1") == [digest]
  {
    hide Contribution, Values, Field;
    var time, sign := Field("t", number), Field("v1", digest);
    FieldValue("t", number, "t");
    FieldValue("t", number, "v1");
    FieldValue("v1", digest, "t");
    FieldValue("v1", digest, "v1");
    SplitCons(time, sign);
    SplitCons(sign, "");
    ValuesOfTwo(time, sign, "t");
    ValuesOfTwo(time, sign, "v1");
  }

  /** A built header, character by character. */
  lemma BuiltHeader(mac: Mac, payload: Bytes, secret: string, timestamp: int)
    ensures Build(mac, payload, secret, timestamp)
         == "t=" + Show(timestamp) + ",v1=" + mac(secret, Show(timestamp) + "." + payload)
  {
    hide Show;
    var number, digest := Show(timestamp), mac(secret, Show(timestamp) + "." + payload);
    calc {
      Build(mac, payload, secret, timestamp);
      ("t" + "=" + number) + "," + ("v1" + "=" + digest);
      { assert "t" + "=" == "t=" && "v1" + "=" == "v1="; }
      ("t=" + number) + "," + ("v1=" + digest);
      { assert "," + "v1=" == ",v1="; }
      "t=" + number + ",v1=" + digest;
    }
  }

  /** Verifying a header one has built succeeds exactly when a clock reading can be compared with its
      timestamp and is at most the tolerance after it and at most the tolerance before it. */
  lemma BuiltHeaderVerifies(mac: Mac, u: Decimals, payload: Bytes, secret: string, timestamp: int, now: real,
      tolerance: int)
    requires forall key, message :: IsHex(mac(key, message))
    requires tolerance >= 0
    ensures var header := "t=" + Show(timestamp) + ",v1=" + mac(secret, Show(timestamp) + "." + payload);
      && Build(mac, payload, secret, timestamp) == header
      && (Verdict(mac, u, payload, header, secret, now, tolerance) == Accepted <==>
            && Representable(timestamp)
            && now - timestamp as real <= tolerance as real && timestamp as real - now <= tolerance as real)
  {
    hide Split, Values, ParseInt, Show, Field, Representable;
    var digest := Expected(mac, secret, timestamp, payload);
    BuiltHeader(mac, payload, secret, timestamp);
    ShowInt(u, timestamp);
    assert IsHex(digest);
    assert Clean(digest) && Ascii(digest);
    BuiltFields(Show(timestamp), digest);
  }

  /** The other timestamps are real: with a tolerance that covers it, the first one that a double
      cannot hold is within the tolerance of time zero, and verifying its header raises. */
  lemma HugeTimestampRaises(mac: Mac, u: Decimals, payload: Bytes, secret: string, tolerance: int)
    requires forall key, message :: IsHex(mac(key, message))
    requires tolerance >= FloatLimit()
    ensures FloatLimit() > 0 && FloatLimit() as real - 0.0 <= tolerance as real
    ensures Verdict(mac, u, payload, Build(mac, payload, secret, FloatLimit()), secret, 0.0, tolerance) == Crashed
  {
    LimitIsShort();
    hide FloatLimit, Power;
    var timestamp := FloatLimit();
    var digest := Expected(mac, secret, timestamp, payload);
    ShowInt(u, timestamp);
    ShowShort(u, timestamp);
    assert IsHex(digest);
    assert Clean(digest);
    hide Split, Values, ParseInt, Show, Field, ShowNat;
    BuiltFields(Show(timestamp), digest);
  }

  lemma {:induction false} PowerSum(k: nat, more: nat)
    ensures Power(2, k + more) == Power(2, k) * Power(2, more)
  {
    if k > 0 {
      PowerSum(k - 1, more);
      hide Power;
      var x: int, y: int := Power(2, k - 1), Power(2, more);
      assert (2 * x) * y == 2 * (x * y);
    }
  }

  lemma Halfway(k: nat, more: nat)
    ensures 2 * (Power(2, k + (more + 1)) - Power(2, more))
         == (Power(2, k) - 1) * Power(2, more + 1) + Power(2, k + (more + 1))
  {
    PowerSum(k, more + 1);
    assert Power(2, more + 1) == 2 * Power(2, more);
    hide Power;
    var a: int, b: int := Power(2, k), Power(2, more + 1);
    assert (a - 1) * b == a * b - b;
  }

  /** The limit lies halfway between the largest double and the power of two after it. */
  lemma LimitIsMidpoint()
    ensures 2 * FloatLimit() == (Power(2, 53) - 1) * Power(2, 971) + Power(2, 1024)
  {
    hide Power;
    Halfway(53, 970);
  }

  lemma LimitIsShort()
    ensures 0 < FloatLimit() && |ShowNat(FloatLimit())| <= 1024
  {
    hide Power, ShowNat;
    PowerOrder(1024);
    PowerOrder(970);
    PowerGrows(2, 970, 54);
    ShowLength(FloatLimit(), 1024);
  }

  lemma {:induction false} PowerGrows(base: nat, k: nat, more: nat)
    requires base >= 2 && more >= 1
    ensures Power(base, k) < Power(base, k + more)
    decreases more
  {
    PowerPositive(base, k + more - 1);
    if more > 1 {
      PowerGrows(base, k, more - 1);
    }
  }

  lemma {:induction false} PowerPositive(base: nat, k: nat)
    requires base >= 2
    ensures Power(base, k) >= 1
  {
    if k > 0 {
      PowerPositive(base, k - 1);
    }
  }

  lemma ShowShort(u: Decimals, n: nat)
    requires |ShowNat(n)| <= MAX_DIGITS
    ensures ParseInt(u, Show(n)) == Some(n)
  {
    ShowParse(u, n);
    ShowInt(u, n);
    StripClean(Show(n));
    assert Show(n)[0] in ShowNat(n);
  }

  /** Inserting a part under an unknown key, or an extra v1 part, into an accepted header. It is
      still accepted if and only if every v1 value the part adds is ASCII or comes after a matching
      one; otherwise verification raises. It is never rejected. */
  lemma ExtraPart(mac: Mac, u: Decimals, payload: Bytes, secret: string, now: real, tolerance: int,
                  before: seq<string>, x: string, rest: seq<string>)
    requires before + rest != [] && ',' !in x && forall p | p in before + rest :: ',' !in p
    requires Contribution(x, "t") == []
    requires Verdict(mac, u, payload, Join(before + rest), secret, now, tolerance) == Accepted
    ensures var times := Values(before + rest, "t");
      && times != [] && ParseInt(u, times[0]).Some?
      && var expected := Expected(mac, secret, ParseInt(u, times[0]).value, payload);
         var harmless := forall v | v in Contribution(x, "v1") :: Ascii(v) || expected in Values(before, "v1");
         Verdict(mac, u, payload, Join(before + [x] + rest), secret, now, tolerance)
           == if harmless then Accepted else Crashed
  {
    hide Split, Join, Contribution, ParseInt, Near, Expected, Compare, Representable;
    var parts, longer := before + rest, before + [x] + rest;
    SplitJoin(parts);
    SplitJoin(longer);
    assert Join(longer) != "" by {
      JoinNotEmpty(longer);
    }
    ValuesConcat(before, rest, "t");
    ValuesConcat(before, rest, "v1");
    ValuesOfThree(before, x, rest, "t");
    ValuesOfThree(before, x, rest, "v1");
    var expected := Expected(mac, secret, ParseInt(u, Values(parts, "t")[0]).value, payload);
    ContributesOne(x, "v1");
    if Contribution(x, "v1") != [] {
      CompareInsert(expected, Values(before, "v1"), Contribution(x, "v1")[0], Values(rest, "v1"));
      assert Contribution(x, "v1") == [Contribution(x, "v1")[0]];
    } else {
      assert Values(longer, "v1") == Values(parts, "v1");
    }
    assert Values(longer, "t") == Values(parts, "t");
  }

  lemma ContributesOne(part: string, key: string)
    ensures |Contribution(part, key)| <= 1
  {
  }

  lemma ValuesOfThree(before: seq<string>, x: string, rest: seq<string>, key: string)
    ensures Values(before + [x] + rest, key) == Values(before, key) + Contribution(x, key) + Values(rest, key)
  {
    ValuesConcat(before + [x], rest, key);
    ValuesConcat(before, [x], key);
    ValuesOfOne(x, key);
  }

  lemma JoinNotEmpty(parts: seq<string>)
    requires |parts| >= 2
    ensures Join(parts) != ""
  {
  }

  /** The failing family is real: put a non-ASCII v1 part in front of any built header. */
  lemma NonAsciiSignatureRaises(mac: Mac, u: Decimals, payload: Bytes, secret: string, timestamp: int, tolerance: int)
    requires forall key, message :: IsHex(mac(key, message))
    requires tolerance >= 0 && Representable(timestamp)
    ensures var header := Build(mac, payload, secret, timestamp);
      Verdict(mac, u, payload, Field("v1", "\U{e9}") + "," + header, secret, timestamp as real, tolerance) == Crashed
  {
    hide Verdict, Values, Representable, ParseInt, Near, Field, Show, Contribution, Split;
    var digest := Expected(mac, secret, timestamp, payload);
    var x, built := Field("v1", "\U{e9}"), [Field("t", Show(timestamp)), Field("v1", digest)];
    ShowInt(u, timestamp);
    NearSelf(timestamp, tolerance);
    BuiltHeaderVerifies(mac, u, payload, secret, timestamp, timestamp as real, tolerance);
    assert IsHex(digest);
    BuiltFields(Show(timestamp), digest);
    FieldValue("v1", "\U{e9}", "t");
    FieldValue("v1", "\U{e9}", "v1");
    JoinTwo(built[0], built[1]);
    JoinFirst(x, built);
    assert [] + built == built && [] + [x] + built == [x] + built;
    ExtraPart(mac, u, payload, secret, timestamp as real, tolerance, [], x, built);
    NoValues("v1");
    assert !Ascii("\U{e9}") by {
      assert "\U{e9}"[0] in "\U{e9}";
    }
  }

  lemma JoinTwo(a: string, b: string)
    ensures Join([a, b]) == a + "," + b
  {
    assert [a, b][1..] == [b];
  }

  lemma JoinFirst(a: string, rest: seq<string>)
    requires rest != []
    ensures Join([a] + rest) == a + "," + Join(rest)
  {
    assert ([a] + rest)[1..] == rest;
  }

  lemma NearSelf(timestamp: int, tolerance: int)
    requires tolerance >= 0
    ensures Near(timestamp as real, timestamp, tolerance)
  {
  }

  lemma NoValues(key: string)
    ensures Values([], key) == []
  {
  }

  // ----- What acceptance means -----

  /** The k-th signature is the expected one, and nothing up to it is non-ASCII. */
  predicate MatchesAt(expected: string, signatures: seq<string>, k: nat) {
    k < |signatures| && signatures[k] == expected && forall j | 0 <= j <= k :: Ascii(signatures[j])
  }

  ghost predicate HasMatch(expected: string, signatures: seq<string>) {
    exists k: nat :: MatchesAt(expected, signatures, k)
  }

  lemma {:induction false} CompareMeans(expected: string, signatures: seq<string>)
    ensures Compare(expected, signatures) == Accepted <==> HasMatch(expected, signatures)
    decreases |signatures|
  {
    hide Ascii;
    if signatures != [] && Ascii(signatures[0]) && signatures[0] != expected {
      var rest := signatures[1..];
      CompareMeans(expected, rest);
      if k: nat :| MatchesAt(expected, rest, k) {
        assert forall j | 0 <= j <= k + 1 :: j == 0 || signatures[j] == rest[j - 1];
        assert MatchesAt(expected, signatures, k + 1);
      }
      if k: nat :| MatchesAt(expected, signatures, k) {
        assert forall j | 0 <= j <= k - 1 :: rest[j] == signatures[j + 1];
        assert MatchesAt(expected, rest, k - 1);
      }
    } else if signatures != [] && Ascii(signatures[0]) {
      assert MatchesAt(expected, signatures, 0);
    }
  }

  /** A header is accepted if and only if its first timestamp is an integer within the tolerance
      and one of its signatures, before any non-ASCII one, is the digest of that timestamp and the
      payload under the secret. */
  lemma AcceptanceMeans(mac: Mac, u: Decimals, payload: Bytes, header: string, secret: string, now: real,
      tolerance: int)
    ensures var times, signatures := Values(Split(header), "t"), Values(Split(header), "v1");
      Verdict(mac, u, payload, header, secret, now, tolerance) == Accepted <==>
        && header != "" && times != [] && ParseInt(u, times[0]).Some?
        && var timestamp := ParseInt(u, times[0]).value;
           && Representable(timestamp)
           && now - timestamp as real <= tolerance as real && timestamp as real - now <= tolerance as real
           && HasMatch(mac(secret, Show(timestamp) + "." + payload), signatures)
  {
    hide Split, Values, ParseInt, Compare, Show, HasMatch, Representable;
    var times, signatures := Values(Split(header), "t"), Values(Split(header), "v1");
    if times != [] && ParseInt(u, times[0]).Some? {
      CompareMeans(Expected(mac, secret, ParseInt(u, times[0]).value, payload), signatures);
    }
  }

  /** A signed header expires: accepted once, it is accepted again exactly while the clock is within
      the tolerance of its timestamp on both sides, and rejected before and after. */
  lemma AcceptedHeaderExpires(mac: Mac, u: Decimals, payload: Bytes, header: string, secret: string, now: real,
      other: real, tolerance: int)
    requires Verdict(mac, u, payload, header, secret, now, tolerance) == Accepted
    ensures var times := Values(Split(header), "t");
      && times != [] && ParseInt(u, times[0]).Some?
      && var timestamp := ParseInt(u, times[0]).value as real;
         Verdict(mac, u, payload, header, secret, other, tolerance) ==
           if timestamp - tolerance as real <= other <= timestamp + tolerance as real then Accepted else Rejected
  {
    hide Split, Values, ParseInt, Compare, Show, Expected, Representable;
  }

  /** The k-th signature is not ASCII, and none before it is the expected one. */
  predicate SpoiledAt(expected: string, signatures: seq<string>, k: nat) {
    k < |signatures| && !Ascii(signatures[k]) && forall j | 0 <= j < k :: signatures[j] != expected
  }

  ghost predicate Spoiled(expected: string, signatures: seq<string>) {
    exists k: nat :: SpoiledAt(expected, signatures, k)
  }

  lemma {:induction false} CompareRaises(expected: string, signatures: seq<string>)
    ensures Compare(expected, signatures) == Crashed <==> Spoiled(expected, signatures)
    decreases |signatures|
  {
    hide Ascii;
    if signatures != [] && Ascii(signatures[0]) {
      var rest := signatures[1..];
      CompareRaises(expected, rest);
      if k: nat :| SpoiledAt(expected, rest, k) {
        if signatures[0] != expected {
          assert forall j | 0 <= j < k + 1 :: j == 0 || signatures[j] == rest[j - 1];
          assert SpoiledAt(expected, signatures, k + 1);
        }
      }
      if k: nat :| SpoiledAt(expected, signatures, k) {
        assert forall j | 0 <= j < k - 1 :: rest[j] == signatures[j + 1];
        assert SpoiledAt(expected, rest, k - 1);
      }
    } else if signatures != [] {
      assert SpoiledAt(expected, signatures, 0);
    }
  }

  /** Verification raises if and only if the first timestamp is an integer, the tolerance is not
      negative, and either no double can hold the timestamp, or it is within the tolerance and a
      non-ASCII signature comes before every match. */
  lemma RaisingMeans(mac: Mac, u: Decimals, payload: Bytes, header: string, secret: string, now: real,
      tolerance: int)
    ensures var times, signatures := Values(Split(header), "t"), Values(Split(header), "v1");
      Verdict(mac, u, payload, header, secret, now, tolerance) == Crashed <==>
        && header != "" && times != [] && ParseInt(u, times[0]).Some? && tolerance >= 0
        && var timestamp := ParseInt(u, times[0]).value;
           || !Representable(timestamp)
           || (&& now - timestamp as real <= tolerance as real && timestamp as real - now <= tolerance as real
               && Spoiled(mac(secret, Show(timestamp) + "." + payload), signatures))
  {
    hide Split, Values, ParseInt, Compare, Show, Spoiled, Representable;
    var times, signatures := Values(Split(header), "t"), Values(Split(header), "v1");
    if times != [] && ParseInt(u, times[0]).Some? {
      CompareRaises(Expected(mac, secret, ParseInt(u, times[0]).value, payload), signatures);
    }
  }
}

/**
  Durations as text: SecToMin of src/utils/durations.go, and the two parsers parseDuration and
  parseTimeToSeconds of src/core/dl/youtube_search.go. A Go int is 64 bits wide and wraps around.
*/
module Durations {
  import opened Common
  import opened Decimal

  const TWO64 := 0x1_0000_0000_0000_0000
  const MAX_INT := 0x7fff_ffff_ffff_ffff

  /** Go's int arithmetic: once past either end of the range, go on from the other. */
  function Wrap(x: int): (w: int)
    ensures -MAX_INT - 1 <= w <= MAX_INT
    decreases if x < 0 then -x - 1 else x
  {
    if x > MAX_INT then Wrap(x - TWO64) else if x < -MAX_INT - 1 then Wrap(x + TWO64) else x
  }

  // ----- SecToMin -----

  /** %02d of a number below 100. */
  function Pad2(n: nat): (s: string)
    requires n < 100
    ensures |s| == 2 && IsDigits(s)
  {
    [DigitChar(n / 10), DigitChar(n % 10)]
  }

  function SecToMin(seconds: int): string {
    if seconds <= 0 then "0:00" else
    var d, h, m, s := seconds / 86400, seconds % 86400 / 3600, seconds % 3600 / 60, seconds % 60;
    if d > 0 then Dec(d) + "d " + Pad2(h) + ":" + Pad2(m) + ":" + Pad2(s)
    else if h > 0 then Dec(h) + ":" + Pad2(m) + ":" + Pad2(s)
    else Dec(m) + ":" + Pad2(s)
  }

  // ----- the parsers -----

  /** strings.Split(s, ":"). */
  function Split(s: string): (parts: seq<string>)
    ensures parts != []
    ensures forall p | p in parts :: ':' !in p
  {
    if s == "" then [""]
    else
      var rest := Split(s[1..]);
      if s[0] == ':' then [""] + rest else [[s[0]] + rest[0]] + rest[1..]
  }

  function Join(parts: seq<string>): string
    requires parts != []
  {
    if |parts| == 1 then parts[0] else parts[0] + ":" + Join(parts[1..])
  }

  /** With the colon-free parts that Split ensures, this says exactly what Split returns. */
  lemma {:induction false} JoinOfSplit(s: string)
    ensures Join(Split(s)) == s
  {
    if s != "" {
      JoinOfSplit(s[1..]);
      var rest := Split(s[1..]);
      if s[0] == ':' {
        assert ([""] + rest)[1..] == rest;
      } else {
        assert ([[s[0]] + rest[0]] + rest[1..])[1..] == rest[1..];
      }
      assert s == [s[0]] + s[1..];
    }
  }

  /** The digits of a string, in order. */
  function DigitsOf(s: string): (r: string)
    ensures IsDigits(r)
  {
    if s == "" then "" else DigitsOf(s[..|s| - 1]) + if IsDigit(s[|s| - 1]) then [s[|s| - 1]] else ""
  }

  lemma DigitsSnoc(s: string, i: nat)
    requires i < |s|
    ensures DigitsOf(s[..i + 1]) == if IsDigit(s[i]) then DigitsOf(s[..i]) + [s[i]] else DigitsOf(s[..i])
  {
    assert s[..i + 1][..i] == s[..i];
    assert DigitsOf(s[..i]) + "" == DigitsOf(s[..i]);
  }

  lemma DigitsValueSnoc(s: string, c: char)
    requires IsDigits(s) && IsDigit(c)
    ensures DigitsValue(s + [c]) == 10 * DigitsValue(s) + Digit(c)
  {
    assert (s + [c])[..|s|] == s;
  }

  /** atoi's number after the digits `s`, step by step as it wraps. */
  function WrappedDigits(s: string): int
    requires IsDigits(s)
  {
    if s == "" then 0 else Wrap(WrappedDigits(s[..|s| - 1]) * 10 + Digit(s[|s| - 1]))
  }

  lemma {:induction false} WrappedDigitsValue(s: string)
    requires IsDigits(s)
    ensures WrappedDigits(s) == Wrap(DigitsValue(s))
  {
    if s != "" {
      var n := |s| - 1;
      WrappedDigitsValue(s[..n]);
      WrapStep(DigitsValue(s[..n]), 10, Digit(s[n]));
    }
  }

  /** atoi: the value of the digits, everything else being skipped. */
  method Atoi(s: string) returns (n: int)
    ensures n == Wrap(DigitsValue(DigitsOf(s)))
  {
    n := 0;
    for i := 0 to |s|
      invariant n == WrappedDigits(DigitsOf(s[..i]))
    {
      DigitsSnoc(s, i);
      if IsDigit(s[i]) {
        assert (DigitsOf(s[..i]) + [s[i]])[..|DigitsOf(s[..i])|] == DigitsOf(s[..i]);
        n := Wrap(n * 10 + Digit(s[i]));
      }
    }
    assert s[..|s|] == s;
    WrappedDigitsValue(DigitsOf(s));
  }

  /** strconv.Atoi: an optional sign and at least one digit, within range; None is an error. */
  function StrconvAtoi(s: string): (r: Option<int>)
    ensures r.Some? ==> -MAX_INT - 1 <= r.value <= MAX_INT
  {
    var signed := s != "" && (s[0] == '+' || s[0] == '-');
    var digits := if signed then s[1..] else s;
    if digits == "" || !IsDigits(digits) then None
    else
      var v := if signed && s[0] == '-' then -(DigitsValue(digits) as int) else DigitsValue(digits) as int;
      if -MAX_INT - 1 <= v <= MAX_INT then Some(v) else None
  }

  /** The value of a list of numbers in base 60, most significant first. */
  function Base60(ns: seq<int>): int {
    if ns == [] then 0 else 60 * Base60(ns[..|ns| - 1]) + ns[|ns| - 1]
  }

  function Pow60(k: nat): nat {
    if k == 0 then 1 else 60 * Pow60(k - 1)
  }

  function DigitValues(parts: seq<string>): (ns: seq<int>)
    ensures |ns| == |parts|
    ensures forall i | 0 <= i < |ns| :: ns[i] == DigitsValue(DigitsOf(parts[i]))
  {
    seq(|parts|, i requires 0 <= i < |parts| => DigitsValue(DigitsOf(parts[i])))
  }

  lemma {:induction false} WrapShift(x: int, k: int)
    ensures Wrap(x + k * TWO64) == Wrap(x)
    decreases if k < 0 then -k else k
  {
    if k > 0 {
      WrapShift(x + TWO64, k - 1);
    } else if k < 0 {
      WrapShift(x - TWO64, k + 1);
    }
  }

  lemma {:induction false} WrapIsCongruent(x: int) returns (k: int)
    ensures Wrap(x) == x + k * TWO64
    decreases if x < 0 then -x - 1 else x
  {
    if x > MAX_INT {
      k := WrapIsCongruent(x - TWO64);
      k := k - 1;
    } else if x < -MAX_INT - 1 {
      k := WrapIsCongruent(x + TWO64);
      k := k + 1;
    } else {
      k := 0;
    }
  }

  /** Wrapping before or after a Horner step is the same. */
  lemma WrapStep(x: int, b: int, y: int)
    ensures Wrap(Wrap(x) * b + y) == Wrap(x * b + y)
  {
    var k := WrapIsCongruent(x);
    assert (x + k * TWO64) * b + y == x * b + y + (k * b) * TWO64;
    WrapShift(x * b + y, k * b);
  }

  lemma WrapMul(x: int, y: int)
    ensures Wrap(Wrap(x) * Wrap(y)) == Wrap(x * y)
  {
    WrapStep(x, Wrap(y), 0);
    WrapStep(y, x, 0);
    assert x * Wrap(y) == Wrap(y) * x && x * y == y * x;
  }

  lemma WrapAdd(x: int, y: int)
    ensures Wrap(Wrap(x) + Wrap(y)) == Wrap(x + y)
  {
    WrapStep(x, 1, Wrap(y));
    WrapStep(y, 1, x);
  }

  lemma {:induction false} Base60Cons(n: int, ns: seq<int>)
    ensures Base60([n] + ns) == n * Pow60(|ns|) + Base60(ns)
  {
    if ns == [] {
      assert [n] + ns == [n] && [n][..0] == [];
    } else {
      var front := ns[..|ns| - 1];
      assert ([n] + ns)[..|ns|] == [n] + front;
      Base60Cons(n, front);
      assert 60 * (n * Pow60(|front|)) == n * (60 * Pow60(|front|));
    }
  }

  // ----- what the parsers compute -----

  /** parseDuration reads base 60 from the digits of each part. */
  function ParsedDuration(s: string): int {
    Wrap(Base60(DigitValues(Split(s))))
  }

  function AtoiValues(parts: seq<string>): (r: Option<seq<int>>)
    ensures r.Some? ==> |r.value| == |parts| && forall i | 0 <= i < |parts| :: StrconvAtoi(parts[i]) == Some(r.value[i])
    ensures r.None? ==> exists i | 0 <= i < |parts| :: StrconvAtoi(parts[i]).None?
  {
    if parts == [] then Some([])
    else
      var k := |parts| - 1;
      var front, last := AtoiValues(parts[..k]), StrconvAtoi(parts[k]);
      if front.None? || last.None? then None else Some(front.value + [last.value])
  }

  /** parseTimeToSeconds reads base 60 from numbers, and gives 0 when a part is none. */
  function ParsedTime(s: string): int {
    var ns := AtoiValues(Split(s));
    if ns.None? then 0 else Wrap(Base60(ns.value))
  }

  /** parseDuration's total and multiplier after the parts `ns`, step by step as it wraps. */
  function RightToLeft(ns: seq<int>): (int, int) {
    if ns == [] then (0, 1)
    else var (total, mul) := RightToLeft(ns[1..]); (Wrap(total + Wrap(Wrap(ns[0]) * mul)), Wrap(mul * 60))
  }

  /** Wrapping at every step makes no difference to wrapping once. */
  lemma {:induction false} RightToLeftIsBase60(ns: seq<int>)
    ensures RightToLeft(ns) == (Wrap(Base60(ns)), Wrap(Pow60(|ns|)))
  {
    if ns != [] {
      var n, rest := ns[0], ns[1..];
      RightToLeftIsBase60(rest);
      assert ns == [n] + rest;
      Base60Cons(n, rest);
      WrapMul(n, Pow60(|rest|));
      WrapAdd(Base60(rest), n * Pow60(|rest|));
      WrapStep(Pow60(|rest|), 60, 0);
    }
  }

  /** parseDuration: right to left, with a growing multiplier. */
  method ParseDuration(s: string) returns (total: int)
    ensures total == ParsedDuration(s)
  {
    var parts := Split(s);
    ghost var ns := DigitValues(parts);
    var mul := 1;
    total := 0;
    var i := |parts|;
    while i > 0
      invariant 0 <= i <= |parts| && (total, mul) == RightToLeft(ns[i..])
    {
      i := i - 1;
      var n := Atoi(parts[i]);
      assert ns[i..][1..] == ns[i + 1..];
      total := Wrap(total + Wrap(n * mul));
      mul := Wrap(mul * 60);
    }
    assert ns[0..] == ns;
    RightToLeftIsBase60(ns);
  }

  lemma AtoiSnoc(parts: seq<string>, i: nat)
    requires i < |parts| && AtoiValues(parts[..i]).Some?
    ensures var ns, n := AtoiValues(parts[..i]).value, StrconvAtoi(parts[i]);
            AtoiValues(parts[..i + 1]) == if n.None? then None else Some(ns + [n.value])
  {
    assert parts[..i + 1][..i] == parts[..i];
  }

  lemma {:induction false} AtoiFails(parts: seq<string>, i: nat)
    requires i <= |parts| && AtoiValues(parts[..i]).None?
    ensures AtoiValues(parts).None?
    decreases |parts| - i
  {
    if i < |parts| {
      assert parts[..i + 1][..i] == parts[..i];
      AtoiFails(parts, i + 1);
    } else {
      assert parts[..i] == parts;
    }
  }

  /** parseTimeToSeconds' total after the parts `ns`, step by step as it wraps. */
  function Horner(ns: seq<int>): int {
    if ns == [] then 0 else Wrap(Horner(ns[..|ns| - 1]) * 60 + ns[|ns| - 1])
  }

  lemma {:induction false} HornerIsBase60(ns: seq<int>)
    ensures Horner(ns) == Wrap(Base60(ns))
  {
    if ns != [] {
      HornerIsBase60(ns[..|ns| - 1]);
      WrapStep(Base60(ns[..|ns| - 1]), 60, ns[|ns| - 1]);
    }
  }

  /** parseTimeToSeconds: Horner's scheme, giving up on the first part that is no number. */
  method ParseTimeToSeconds(s: string) returns (total: int)
    ensures total == ParsedTime(s)
  {
    var parts := Split(s);
    ghost var ns: seq<int> := [];
    total := 0;
    for i := 0 to |parts|
      invariant AtoiValues(parts[..i]) == Some(ns) && total == Horner(ns)
    {
      var n := StrconvAtoi(parts[i]);
      AtoiSnoc(parts, i);
      if n.None? {
        AtoiFails(parts, i + 1);
        return 0;
      }
      assert (ns + [n.value])[..|ns|] == ns;
      total := Wrap(total * 60 + n.value);
      ns := ns + [n.value];
    }
    assert parts[..|parts|] == parts;
    HornerIsBase60(ns);
  }

  // ----- the two parsers agree -----

  /** A non-empty string of digits that fits an int. */
  predicate Plain(p: string) {
    p != "" && IsDigits(p) && DigitsValue(p) <= MAX_INT
  }

  lemma {:induction false} DigitsOfDigits(p: string)
    requires IsDigits(p)
    ensures DigitsOf(p) == p
  {
    if p != "" {
      var n := |p| - 1;
      DigitsOfDigits(p[..n]);
      assert p == p[..n] + [p[n]];
    }
  }

  lemma PlainAtoi(p: string)
    requires Plain(p)
    ensures StrconvAtoi(p) == Some(DigitsValue(p) as int) && DigitsValue(DigitsOf(p)) == DigitsValue(p)
  {
    DigitsOfDigits(p);
    assert IsDigit(p[0]);
  }

  /** On every colon-separated list of digit strings whose parts fit an int, the two parsers give the same. */
  lemma ParsersAgree(s: string)
    requires forall p | p in Split(s) :: Plain(p)
    ensures ParsedDuration(s) == ParsedTime(s) == Wrap(Base60(DigitValues(Split(s))))
  {
    var parts := Split(s);
    forall i | 0 <= i < |parts| ensures StrconvAtoi(parts[i]) == Some(DigitValues(parts)[i]) {
      PlainAtoi(parts[i]);
    }
    assert AtoiValues(parts).Some?;
    assert AtoiValues(parts).value == DigitValues(parts);
  }

  // ----- printing and reading back -----

  lemma {:induction false} SplitSep(a: string, b: string)
    requires ':' !in a
    ensures Split(a + ":" + b) == [a] + Split(b)
  {
    var t := a + ":" + b;
    if a == "" {
      assert t[1..] == b;
    } else {
      assert t[1..] == a[1..] + ":" + b;
      SplitSep(a[1..], b);
      assert [a[0]] + a[1..] == a;
    }
  }

  lemma {:induction false} SplitOne(a: string)
    requires ':' !in a
    ensures Split(a) == [a]
  {
    if a != "" {
      SplitOne(a[1..]);
      assert [a[0]] + a[1..] == a;
    }
  }

  lemma Pad2Value(n: nat)
    requires n < 100
    ensures DigitsValue(Pad2(n)) == n && Plain(Pad2(n)) && ':' !in Pad2(n)
  {
    var p := Pad2(n);
    assert p[..1] == [p[0]] && p[..1][..0] == "";
    assert DigitsValue(p[..1]) == n / 10;
  }

  lemma DecPlain(n: nat)
    requires n <= MAX_INT
    ensures DigitsValue(Dec(n)) == n && Plain(Dec(n)) && ':' !in Dec(n)
  {
    DecRoundTrip(n);
  }

  lemma Base60Of3(a: int, b: int, c: int)
    ensures Base60([a, b, c]) == 3600 * a + 60 * b + c
    ensures Base60([b, c]) == 60 * b + c
  {
    assert [a, b, c][..2] == [a, b] && [a, b][..1] == [a] && [a][..0] == [];
    assert [b, c][..1] == [b] && [b][..0] == [];
    assert Base60([a]) == a && Base60([b]) == b;
    assert Base60([a, b]) == 60 * a + b;
  }

  /** A text is read as the base-60 value of its parts, when they are plain. */
  lemma ReadsParts(t: string, parts: seq<string>, ns: seq<int>, n: int)
    requires Split(t) == parts && |ns| == |parts| && Base60(ns) == n
    requires forall i | 0 <= i < |parts| :: Plain(parts[i]) && DigitsValue(parts[i]) == ns[i]
    ensures ParsedDuration(t) == ParsedTime(t) == Wrap(n)
  {
    forall i | 0 <= i < |parts| ensures DigitValues(parts)[i] == ns[i] {
      DigitsOfDigits(parts[i]);
    }
    assert DigitValues(parts) == ns;
    ParsersAgree(t);
  }

  lemma SplitThree(a: string, b: string, c: string)
    requires ':' !in a && ':' !in b && ':' !in c
    ensures Split(a + ":" + b + ":" + c) == [a, b, c]
  {
    var t := b + ":" + c;
    assert a + ":" + b + ":" + c == a + ":" + t;
    SplitSep(a, t);
    SplitSep(b, c);
    SplitOne(c);
  }

  /** "h:mm:ss" is read as 3600h + 60m + s, whatever h. */
  lemma ReadsHours(h: nat, m: nat, s: nat)
    requires h <= MAX_INT && m < 100 && s < 100
    ensures var t := Dec(h) + ":" + Pad2(m) + ":" + Pad2(s);
            ParsedDuration(t) == ParsedTime(t) == Wrap(3600 * h + 60 * m + s)
  {
    DecPlain(h);
    Pad2Value(m);
    Pad2Value(s);
    ReadsThree(Dec(h), Pad2(m), Pad2(s), h, m, s);
  }

  lemma ReadsThree(a: string, b: string, c: string, h: nat, m: nat, s: nat)
    requires Plain(a) && Plain(b) && Plain(c)
    requires DigitsValue(a) == h && DigitsValue(b) == m && DigitsValue(c) == s
    requires ':' !in a && ':' !in b && ':' !in c
    ensures var t := a + ":" + b + ":" + c; ParsedDuration(t) == ParsedTime(t) == Wrap(3600 * h + 60 * m + s)
  {
    SplitThree(a, b, c);
    Base60Of3(h, m, s);
    ReadsParts(a + ":" + b + ":" + c, [a, b, c], [h, m, s], 3600 * h + 60 * m + s);
  }

  /** "m:ss" is read as 60m + s. */
  lemma ReadsMinutes(m: nat, s: nat)
    requires m <= MAX_INT && s < 100
    ensures var t := Dec(m) + ":" + Pad2(s); ParsedDuration(t) == ParsedTime(t) == Wrap(60 * m + s)
  {
    DecPlain(m);
    Pad2Value(s);
    ReadsTwo(Dec(m), Pad2(s), m, s);
  }

  lemma ReadsTwo(a: string, b: string, m: nat, s: nat)
    requires Plain(a) && Plain(b) && DigitsValue(a) == m && DigitsValue(b) == s
    requires ':' !in a && ':' !in b
    ensures var t := a + ":" + b; ParsedDuration(t) == ParsedTime(t) == Wrap(60 * m + s)
  {
    SplitSep(a, b);
    SplitOne(b);
    Base60Of3(m, m, s);
    ReadsParts(a + ":" + b, [a, b], [m, s], 60 * m + s);
  }

  /** Both parsers read `t` as `n`. */
  ghost predicate ReadAs(t: string, n: int) {
    ParsedDuration(t) == n && ParsedTime(t) == n
  }

  /** `t` is how `d` days, `h` hours, `m` minutes and `s` seconds are printed. */
  ghost predicate Printed(t: string, d: nat, h: nat, m: nat, s: nat) {
    && h < 24 && m < 60 && s < 60
    && t == if d > 0 then Dec(d) + "d " + Pad2(h) + ":" + Pad2(m) + ":" + Pad2(s)
            else if h > 0 then Dec(h) + ":" + Pad2(m) + ":" + Pad2(s)
            else Dec(m) + ":" + Pad2(s)
  }

  lemma PrintedForm(n: nat)
    requires n > 0
    ensures Printed(SecToMin(n), n / 86400, n % 86400 / 3600, n % 3600 / 60, n % 60)
  {
  }

  lemma Fields(n: nat)
    ensures n == 86400 * (n / 86400) + 3600 * (n % 86400 / 3600) + 60 * (n % 3600 / 60) + n % 60
  {
    assert n % 86400 % 3600 == n % 3600;
    assert n % 3600 % 60 == n % 60;
  }

  lemma PrintedZero(n: int, z: nat)
    requires n <= 0 == z
    ensures Printed(SecToMin(n), z, z, z, z)
  {
    assert Dec(z) == "0" && Pad2(z) == "00";
  }

  lemma ReadsWithinADay(t: string, h: nat, m: nat, s: nat)
    requires Printed(t, 0, h, m, s)
    ensures ReadAs(t, 3600 * h + 60 * m + s)
  {
    ReadsHours(h, m, s);
    ReadsMinutes(m, s);
  }

  lemma PrintedWithinADay(n: nat) returns (h: nat, m: nat, s: nat)
    requires n < 86400
    ensures Printed(SecToMin(n), 0, h, m, s) && n == 3600 * h + 60 * m + s
  {
    if n == 0 {
      h, m, s := 0, 0, 0;
      PrintedZero(n, n);
    } else {
      h, m, s := n % 86400 / 3600, n % 3600 / 60, n % 60;
      PrintedForm(n);
      Fields(n);
    }
  }

  /** Below a day, both parsers give back what SecToMin was given. */
  lemma RoundTripBelowADay(n: nat)
    requires n < 86400
    ensures ReadAs(SecToMin(n), n)
  {
    var h, m, s := PrintedWithinADay(n);
    ReadsWithinADay(SecToMin(n), h, m, s);
  }

  // ----- from a day on -----

  /** The first field of the day form. */
  function DayField(d: nat, h: nat): string
    requires h < 100
  {
    Dec(d) + "d " + Pad2(h)
  }

  lemma DayForm(n: nat)
    requires n >= 86400
    ensures var d, h, m, s := n / 86400, n % 86400 / 3600, n % 3600 / 60, n % 60;
            && h < 24 && m < 60 && s < 60
            && ':' !in DayField(d, h) && Split(SecToMin(n)) == [DayField(d, h), Pad2(m), Pad2(s)]
  {
    var d, h, m, s := n / 86400, n % 86400 / 3600, n % 3600 / 60, n % 60;
    PrintedForm(n);
    DayFieldChars(d, h);
    Pad2Value(m);
    Pad2Value(s);
    SplitThree(DayField(d, h), Pad2(m), Pad2(s));
  }

  lemma DayFieldChars(d: nat, h: nat)
    requires h < 100
    ensures ':' !in DayField(d, h) && |DayField(d, h)| == |Dec(d)| + 4 && DayField(d, h)[|Dec(d)|] == 'd'
    ensures DayField(d, h)[..|Dec(d)|] == Dec(d) && DayField(d, h)[|Dec(d)| + 2..] == Pad2(h)
  {
  }

  /** "1d 01" is no number, so parseTimeToSeconds gives 0. */
  lemma DayFormIsNoTime(n: nat)
    requires n >= 86400
    ensures ParsedTime(SecToMin(n)) == 0
  {
    var d, h := n / 86400, n % 86400 / 3600;
    DayForm(n);
    DayFieldChars(d, h);
    var f := DayField(d, h);
    assert IsDigit(f[0]);
    assert !IsDigits(f) by { assert !IsDigit(f[|Dec(d)|]); }
    assert StrconvAtoi(f).None?;
    assert AtoiValues(Split(SecToMin(n))).None? by {
      assert Split(SecToMin(n))[0] == f;
    }
  }

  lemma DigitsOfPush(s: string, c: char)
    ensures DigitsOf(s + [c]) == if IsDigit(c) then DigitsOf(s) + [c] else DigitsOf(s)
  {
    assert (s + [c])[..|s|] == s;
    DigitsSnoc(s + [c], |s|);
    assert (s + [c])[..|s| + 1] == s + [c];
  }

  lemma DigitsOfConcatPush(a: string, b: string, c: char)
    requires DigitsOf(a + b) == DigitsOf(a) + DigitsOf(b)
    ensures DigitsOf(a + b + [c]) == DigitsOf(a) + DigitsOf(b + [c])
  {
    DigitsOfPush(b, c);
    DigitsOfPush(a + b, c);
    Regroup(DigitsOf(a), DigitsOf(b), c);
  }

  lemma Regroup(a: string, b: string, c: char)
    ensures a + b + [c] == a + (b + [c])
  {
  }

  /** parseDuration skips "d " and takes the digits around it for one number of hours. */
  lemma {:induction false} DigitsOfConcat(a: string, b: string)
    ensures DigitsOf(a + b) == DigitsOf(a) + DigitsOf(b)
  {
    if b == "" {
      assert a + b == a;
    } else {
      var n := |b| - 1;
      DigitsOfConcat(a, b[..n]);
      DigitsOfConcatPush(a, b[..n], b[n]);
      assert b == b[..n] + [b[n]];
      assert a + b == a + b[..n] + [b[n]];
    }
  }

  lemma DayFieldValue(d: nat, h: nat)
    requires h < 100
    ensures DigitsValue(DigitsOf(DayField(d, h))) == 100 * d + h
  {
    var dec, pad := Dec(d), Pad2(h);
    DigitsOfConcat(dec + "d ", pad);
    DigitsOfConcat(dec, "d ");
    DigitsOfDigits(dec);
    DigitsOfDigits(pad);
    DigitsOfSeparator();
    assert dec + "" == dec;
    assert DigitsOf(DayField(d, h)) == dec + [pad[0]] + [pad[1]];
    DigitsValueSnoc(dec, pad[0]);
    DigitsValueSnoc(dec + [pad[0]], pad[1]);
    DecRoundTrip(d);
  }

  lemma DigitsOfSeparator()
    ensures DigitsOf("d ") == ""
  {
    assert "d "[..1] == "d" && "d"[..0] == "";
  }

  lemma ParsedDurationIs(t: string, parts: seq<string>, ns: seq<int>, n: int)
    requires Split(t) == parts && |ns| == |parts| && Base60(ns) == n
    requires forall i | 0 <= i < |parts| :: DigitsValue(DigitsOf(parts[i])) == ns[i]
    ensures ParsedDuration(t) == Wrap(n)
  {
    assert DigitValues(parts) == ns;
  }

  lemma ThreePartsAsDuration(t: string, a: string, b: string, c: string, x: int, y: int, z: int, n: int)
    requires Split(t) == [a, b, c] && n == 3600 * x + 60 * y + z
    requires DigitsValue(DigitsOf(a)) == x && DigitsValue(DigitsOf(b)) == y && DigitsValue(DigitsOf(c)) == z
    ensures ParsedDuration(t) == Wrap(n)
  {
    Base60Of3(x, y, z);
    ParsedDurationIs(t, [a, b, c], [x, y, z], n);
  }

  lemma Pad2Digits(n: nat)
    requires n < 100
    ensures DigitsValue(DigitsOf(Pad2(n))) == n
  {
    Pad2Value(n);
    DigitsOfDigits(Pad2(n));
  }

  lemma DayPartsAsDuration(t: string, d: nat, h: nat, m: nat, s: nat, n: int)
    requires h < 24 && m < 60 && s < 60
    requires Split(t) == [DayField(d, h), Pad2(m), Pad2(s)] && n == 3600 * (100 * d + h) + 60 * m + s
    ensures ParsedDuration(t) == Wrap(n)
  {
    DayFieldValue(d, h);
    Pad2Digits(m);
    Pad2Digits(s);
    ThreePartsAsDuration(t, DayField(d, h), Pad2(m), Pad2(s), 100 * d + h, m, s, n);
  }

  /** From a day on, parseDuration takes every day for a hundred hours. */
  lemma DayFormAsDuration(n: nat) returns (d: nat)
    requires n >= 86400
    ensures d == n / 86400 && ParsedDuration(SecToMin(n)) == Wrap(n + 273600 * d)
  {
    d := n / 86400;
    var h, m, s := n % 86400 / 3600, n % 3600 / 60, n % 60;
    DayForm(n);
    Fields(n);
    DayPartsAsDuration(SecToMin(n), d, h, m, s, n + 273600 * d);
  }

  /** 273600 * d is no multiple of 2^64 for any number of days an int can hold. */
  lemma NoDayWrapsBack(n: int, d: nat)
    requires 0 < d && 86400 * d <= n <= MAX_INT
    ensures Wrap(n + 273600 * d) != n
  {
    var k := WrapIsCongruent(n + 273600 * d);
    assert 0 < 273600 * d < 2 * TWO64;
  }

  lemma NoRoundTripFromADayOn(n: nat)
    requires 86400 <= n <= MAX_INT
    ensures ParsedTime(SecToMin(n)) != n && ParsedDuration(SecToMin(n)) != n
  {
    DayFormIsNoTime(n);
    var d := DayFormAsDuration(n);
    assert d > 0 && 86400 * d <= n;
    NoDayWrapsBack(n, d);
  }

  lemma NoRoundTripBelowZero(n: int)
    requires n < 0
    ensures ReadAs(SecToMin(n), 0)
  {
    PrintedZero(n, 0);
    ReadsWithinADay(SecToMin(n), 0, 0, 0);
  }

  /**
    The round trip holds for both parsers exactly below a day: for every int n, reading what SecToMin prints
    gives n back iff 0 <= n < 86400.
  */
  lemma RoundTripIffBelowADay(n: int)
    requires -MAX_INT - 1 <= n <= MAX_INT
    ensures ParsedTime(SecToMin(n)) == n <==> 0 <= n < 86400
    ensures ParsedDuration(SecToMin(n)) == n <==> 0 <= n < 86400
  {
    if n < 0 {
      NoRoundTripBelowZero(n);
    } else if n < 86400 {
      RoundTripBelowADay(n);
    } else {
      NoRoundTripFromADayOn(n);
    }
  }

  /** SecToMin prints different positive durations differently, in days or not. */
  lemma SecToMinInjective(a: nat, b: nat)
    requires 0 < a && 0 < b && SecToMin(a) == SecToMin(b)
    ensures a == b
  {
    if a < 86400 && b < 86400 {
      RoundTripBelowADay(a);
      RoundTripBelowADay(b);
    } else if a >= 86400 && b >= 86400 {
      SameDayForm(a, b);
    } else {
      var day, other := if a >= 86400 then a else b, if a >= 86400 then b else a;
      RoundTripBelowADay(other);
      DayFormIsNoTime(day);
    }
  }

  lemma SameDayForm(a: nat, b: nat)
    requires a >= 86400 && b >= 86400 && SecToMin(a) == SecToMin(b)
    ensures a == b
  {
    DayForm(a);
    DayForm(b);
    Fields(a);
    Fields(b);
    Pad2Value(a % 3600 / 60);
    Pad2Value(b % 3600 / 60);
    Pad2Value(a % 60);
    Pad2Value(b % 60);
    SameDayField(a / 86400, a % 86400 / 3600, b / 86400, b % 86400 / 3600);
  }

  lemma SameDayField(d: nat, h: nat, d': nat, h': nat)
    requires h < 100 && h' < 100 && DayField(d, h) == DayField(d', h')
    ensures d == d' && h == h'
  {
    DayFieldChars(d, h);
    DayFieldChars(d', h');
    Pad2Value(h);
    Pad2Value(h');
    DecRoundTrip(d);
    DecRoundTrip(d');
  }
}

// Character-level codecs: separator-joined text and decimal int64 text.
module Text {
  import opened Wrappers

  /** `strings.Split` with a one-character separator. */
  function Split(s: string, sep: char): (parts: seq<string>)
    ensures |parts| >= 1
    ensures forall p :: p in parts ==> sep !in p
    ensures Join(parts, sep) == s
  {
    if s == "" then
      [""]
    else
      var rest := Split(s[1..], sep);
      if s[0] == sep then [""] + rest else [[s[0]] + rest[0]] + rest[1..]
  }

  /** `strings.Join`. */
  function Join(parts: seq<string>, sep: char): string {
    if |parts| == 0 then ""
    else if |parts| == 1 then parts[0]
    else parts[0] + [sep] + Join(parts[1..], sep)
  }

  /** `strings.SplitN(s, sep, 2)`: cut at the first separator, if there is one. */
  function SplitN2(s: string, sep: char): (parts: seq<string>)
    ensures sep !in s ==> parts == [s]
    ensures sep in s ==> |parts| == 2 && sep !in parts[0] && parts[0] + [sep] + parts[1] == s
  {
    if s == "" then
      [""]
    else if s[0] == sep then
      ["", s[1..]]
    else
      var rest := SplitN2(s[1..], sep);
      assert s == [s[0]] + s[1..];
      assert |rest| == 2 ==> s[1..] == rest[0] + [sep] + rest[1];
      [[s[0]] + rest[0]] + rest[1..]
  }

  lemma {:induction false} SplitWhole(a: string, sep: char)
    requires sep !in a
    ensures Split(a, sep) == [a]
  {
    if a != "" {
      SplitWhole(a[1..], sep);
    }
  }

  lemma {:induction false} SplitHead(a: string, sep: char, b: string)
    requires sep !in a
    ensures Split(a + [sep] + b, sep) == [a] + Split(b, sep)
  {
    var s := a + [sep] + b;
    if a == "" {
      assert s[1..] == b;
    } else {
      assert s[1..] == a[1..] + [sep] + b && a == [a[0]] + a[1..];
      SplitHead(a[1..], sep, b);
    }
  }

  /** Splitting undoes joining exactly for pieces that do not contain the separator. */
  lemma {:induction false} SplitJoin(parts: seq<string>, sep: char)
    requires |parts| > 0
    ensures Split(Join(parts, sep), sep) == parts <==> forall p :: p in parts ==> sep !in p
  {
    if forall p :: p in parts ==> sep !in p {
      if |parts| == 1 {
        SplitWhole(parts[0], sep);
      } else {
        SplitJoin(parts[1..], sep);
        SplitHead(parts[0], sep, Join(parts[1..], sep));
      }
    }
  }

  /** The first cut recovers both halves exactly when the left half has no separator. */
  lemma {:induction false} SplitN2Recovers(a: string, sep: char, b: string)
    ensures SplitN2(a + [sep] + b, sep) == [a, b] <==> sep !in a
  {
    var s := a + [sep] + b;
    assert s[|a|] == sep;
    if sep !in a {
      if a == "" {
        assert s[1..] == b;
      } else {
        assert s[1..] == a[1..] + [sep] + b && a == [a[0]] + a[1..];
        SplitN2Recovers(a[1..], sep, b);
      }
    }
  }

  const MIN_INT64: int := -0x8000_0000_0000_0000
  const MAX_INT64: int := 0x7FFF_FFFF_FFFF_FFFF

  predicate IsInt64(n: int) {
    MIN_INT64 <= n <= MAX_INT64
  }

  predicate IsDigit(c: char) {
    '0' <= c <= '9'
  }

  function DigitChar(d: nat): char
    requires d < 10
  {
    (48 + d) as char
  }

  function DigitValue(c: char): nat
    requires IsDigit(c)
  {
    c as int - 48
  }

  function Digits(n: nat): (s: string)
    ensures |s| > 0 && forall c :: c in s ==> IsDigit(c)
  {
    if n < 10 then [DigitChar(n)] else Digits(n / 10) + [DigitChar(n % 10)]
  }

  function DigitsValue(s: string): nat
    requires forall c :: c in s ==> IsDigit(c)
  {
    if s == "" then 0 else 10 * DigitsValue(s[..|s| - 1]) + DigitValue(s[|s| - 1])
  }

  /** `strconv.FormatInt(n, 10)`. */
  function FormatInt(n: int): string {
    if n < 0 then "-" + Digits(-n) else Digits(n)
  }

  /** `strconv.ParseInt(s, 10, 64)`; None stands for a syntax or range error. */
  function ParseInt64(s: string): (r: Option<int>)
    ensures r.Some? ==> IsInt64(r.value) && s != ""
  {
    if s == "" then
      None
    else
      var signed := s[0] == '+' || s[0] == '-';
      var body := if signed then s[1..] else s;
      if body == "" || exists c :: c in body && !IsDigit(c) then
        None
      else
        var magnitude: int := DigitsValue(body);
        var n := if s[0] == '-' then -magnitude else magnitude;
        if IsInt64(n) then Some(n) else None
  }

  lemma {:induction false} DigitsRoundTrip(n: nat)
    ensures DigitsValue(Digits(n)) == n
  {
    var s := Digits(n);
    if n >= 10 {
      DigitsRoundTrip(n / 10);
      assert s[..|s| - 1] == Digits(n / 10);
    } else {
      assert s[..|s| - 1] == "";
    }
  }

  /** Every int64 survives printing and parsing; anything wider is a range error. */
  lemma FormatParse(n: int)
    ensures ParseInt64(FormatInt(n)) == if IsInt64(n) then Some(n) else None
    ensures IsInt64(n) <==> -0x8000_0000_0000_0000 <= n < 0x8000_0000_0000_0000
  {
    if n < 0 {
      DigitsRoundTrip(-n);
      assert FormatInt(n)[1..] == Digits(-n);
    } else {
      DigitsRoundTrip(n);
      assert IsDigit(FormatInt(n)[0]);
    }
  }

  /** Decimal text, digit by digit: this and the sign determine it. */
  lemma FormatIsDecimal(n: int)
    ensures 0 <= n < 10 ==> FormatInt(n) == ["0123456789"[n]]
    ensures n >= 10 ==> FormatInt(n) == FormatInt(n / 10) + FormatInt(n % 10)
    ensures n < 0 ==> FormatInt(n) == "-" + FormatInt(-n)
  {
  }

  ghost predicate AllDigits(s: string) {
    forall c :: c in s ==> IsDigit(c)
  }

  ghost predicate Zeros(s: string) {
    forall c :: c in s ==> c == '0'
  }

  lemma DigitNext(v: nat, c: char)
    requires IsDigit(c)
    ensures Digits(10 * v + DigitValue(c)) == (if v == 0 then "" else Digits(v)) + [c]
  {
    var n := 10 * v + DigitValue(c);
    assert n / 10 == v && n % 10 == DigitValue(c);
    assert DigitChar(DigitValue(c)) == c;
  }

  /** Digits are the text of their value, after any zeros in front of it. */
  lemma {:induction false} DigitsCanonical(s: string) returns (zeros: string)
    requires s != "" && AllDigits(s)
    ensures Zeros(zeros) && s == zeros + Digits(DigitsValue(s))
  {
    hide Digits;
    var front, last := s[..|s| - 1], s[|s| - 1];
    assert last in s && forall c :: c in front ==> c in s;
    assert s == front + [last];
    DigitNext(DigitsValue(front), last);
    if front == "" {
      return "";
    }
    zeros := DigitsCanonical(front);
    if DigitsValue(front) == 0 {
      DigitNext(0, '0');
      zeros := zeros + "0";
    }
  }

  lemma {:induction false} ZerosBefore(zeros: string, s: string)
    requires Zeros(zeros) && AllDigits(s)
    ensures AllDigits(zeros + s) && DigitsValue(zeros + s) == DigitsValue(s)
    decreases |s| + |zeros|
  {
    if s != "" {
      var front := s[..|s| - 1];
      ZerosBefore(zeros, front);
      assert (zeros + s)[..|zeros + s| - 1] == zeros + front;
    } else if zeros != "" {
      var front := zeros[..|zeros| - 1];
      forall c | c in front ensures c == '0' { assert c in zeros; }
      ZerosBefore(front, "");
      assert '0' == zeros[|zeros| - 1] by { assert zeros[|zeros| - 1] in zeros; }
      assert zeros + s == zeros && front + "" == front;
    }
  }

  /** The text is that of the number, but for a plus sign and zeros in front of the digits. */
  ghost predicate Spells(s: string, n: int, sign: string, zeros: string) {
    && Zeros(zeros) && s == sign + zeros + FormatInt(if n < 0 then -n else n)
    && (if n < 0 then sign == "-" else sign == "" || sign == "+" || (n == 0 && sign == "-"))
  }

  lemma ReadIsSpelt(s: string, n: int) returns (sign: string, zeros: string)
    requires ParseInt64(s) == Some(n)
    ensures Spells(s, n, sign, zeros)
  {
    hide Digits, DigitsValue;
    sign := if s[0] == '+' || s[0] == '-' then [s[0]] else "";
    var body := s[|sign|..];
    zeros := DigitsCanonical(body);
    assert s == sign + body;
  }

  lemma SpeltIsRead(s: string, n: int, sign: string, zeros: string)
    requires IsInt64(n) && Spells(s, n, sign, zeros)
    ensures ParseInt64(s) == Some(n)
  {
    hide Digits, DigitsValue;
    var magnitude := if n < 0 then -n else n;
    var body := zeros + Digits(magnitude);
    ZerosBefore(zeros, Digits(magnitude));
    DigitsRoundTrip(magnitude);
    assert body != "" && body[0] in body && s == sign + body && s[|sign|..] == body;
  }

  /** Exactly the texts that spell an int64 are read, each as the number it spells. */
  lemma ParseReads(s: string, n: int)
    ensures ParseInt64(s) == Some(n) <==>
      -0x8000_0000_0000_0000 <= n < 0x8000_0000_0000_0000 && exists sign, zeros :: Spells(s, n, sign, zeros)
  {
    hide ParseInt64, Spells;
    if ParseInt64(s) == Some(n) {
      var sign, zeros := ReadIsSpelt(s, n);
    }
    if sign, zeros :| IsInt64(n) && Spells(s, n, sign, zeros) {
      SpeltIsRead(s, n, sign, zeros);
    }
  }

  lemma FormatInjective(m: int, n: int)
    requires IsInt64(m) && IsInt64(n)
    ensures FormatInt(m) == FormatInt(n) <==> m == n
  {
    FormatParse(m);
    FormatParse(n);
  }
}

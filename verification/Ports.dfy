/** The three port readers of the console and the decimal texts they read. */
module Ports {
  import opened Text

  predicate IsDigit(c: char) {
    '0' <= c <= '9'
  }

  predicate AllDigits(s: string) {
    forall i :: 0 <= i < |s| ==> IsDigit(s[i])
  }

  function DigitValue(c: char): nat
    requires IsDigit(c)
  {
    (c - '0') as nat
  }

  /** The number a run of digits denotes. */
  function DigitsValue(s: string): nat
    requires AllDigits(s)
  {
    if s == [] then 0 else 10 * DigitsValue(s[..|s| - 1]) + DigitValue(s[|s| - 1])
  }

  /** `String(n)` for a natural number. */
  function Decimal(n: nat): string {
    if n < 10 then ['0' + n as char] else Decimal(n / 10) + ['0' + (n % 10) as char]
  }

  function IntText(n: int): string {
    if n < 0 then "-" + Decimal(-n) else Decimal(n)
  }

  /** Printing a number and reading its digits gives the number back. */
  lemma {:induction false} DecimalReadsBack(n: nat)
    ensures Decimal(n) != [] && AllDigits(Decimal(n)) && DigitsValue(Decimal(n)) == n
    ensures Decimal(n)[0] == '0' <==> n == 0
  {
    if n >= 10 {
      DecimalReadsBack(n / 10);
      assert Decimal(n)[..|Decimal(n)| - 1] == Decimal(n / 10);
    }
  }

  lemma {:induction false} LeadingDigitCounts(s: string)
    requires AllDigits(s) && s != [] && s[0] != '0'
    ensures DigitsValue(s) >= 1
  {
    if |s| > 1 {
      LeadingDigitCounts(s[..|s| - 1]);
    }
  }

  /** Reading digits and printing the number gives the digits back exactly when there is no leading
      zero (apart from the text "0"). */
  lemma {:induction false} DigitsPrintBack(s: string)
    requires AllDigits(s) && s != []
    ensures Decimal(DigitsValue(s)) == s <==> s[0] != '0' || s == "0"
  {
    DecimalReadsBack(DigitsValue(s));
    if |s| == 1 {
      assert DigitsValue(s[..0]) == 0;
    } else if s[0] != '0' {
      DigitsPrintBack(s[..|s| - 1]);
      LeadingDigitCounts(s[..|s| - 1]);
      assert s == s[..|s| - 1] + [s[|s| - 1]];
    }
  }

  function DigitPrefix(s: string): (r: string)
    ensures AllDigits(r)
  {
    if s != [] && IsDigit(s[0]) then [s[0]] + DigitPrefix(s[1..]) else []
  }

  /** `Number.parseInt(value, 10)`; `None` is NaN. */
  function ParseInt(value: string): Option<int> {
    var t := TrimStart(value);
    var negative := t != [] && t[0] == '-';
    var digits := DigitPrefix(if negative || (t != [] && t[0] == '+') then t[1..] else t);
    if digits == [] then None
    else Some((if negative then -1 else 1) * DigitsValue(digits))
  }

  predicate InPortRange(n: int) {
    1 <= n <= 65535
  }

  /** `parsePort` of the debug panel: `parseInt`, then the printed number must equal the trimmed text. */
  function ParsePortDebug(value: string): Option<int> {
    var parsed := ParseInt(value);
    if parsed.None? || IntText(parsed.value) != Trim(value) || !InPortRange(parsed.value) then None else parsed
  }

  /** `parsePort` of the transit panel: the trimmed text must be digits only. */
  function ParsePortTransit(value: string): Option<int> {
    var trimmed := Trim(value);
    if trimmed == [] || !AllDigits(trimmed) then None
    else
      var port := DigitsValue(trimmed);
      if InPortRange(port) then Some(port) else None
  }

  /** `Number(value)` where the trimmed text is digits only; `None` stands for every other text, whose
      reading no caller uses once the port is reported as an error. */
  function NumberOf(value: string): Option<int> {
    var trimmed := Trim(value);
    if trimmed != [] && AllDigits(trimmed) then Some(DigitsValue(trimmed)) else None
  }

  const RESERVED_DIRECT_NODE_PORTS: set<int> := {22, 80, 443, 5432, 6379, 8000, 8200, 3000, 3200, 15432, 16379}

  datatype PortError = NotDigits | OutOfRange | Reserved

  /** `validateDirectNodePort`: the error shown, or `None`. */
  function ValidateDirectNodePort(value: string): Option<PortError> {
    var parsed := NumberOf(value);
    if parsed.None? then Some(NotDigits)
    else if !InPortRange(parsed.value) then Some(OutOfRange)
    else if parsed.value in RESERVED_DIRECT_NODE_PORTS then Some(Reserved)
    else None
  }

  lemma {:induction false} DigitPrefixOfRun(d: string, rest: string)
    requires AllDigits(d) && (rest == [] || !IsDigit(rest[0]))
    ensures DigitPrefix(d + rest) == d
  {
    if d == [] {
      assert d + rest == rest;
    } else {
      DigitPrefixOfRun(d[1..], rest);
      assert (d + rest)[1..] == d[1..] + rest;
      assert d == [d[0]] + d[1..];
    }
  }

  /** On a text whose trimmed form is digits only, `parseInt` reads those digits. */
  lemma ParseIntReadsTrimmedDigits(value: string)
    requires Trim(value) != [] && AllDigits(Trim(value))
    ensures ParseInt(value) == Some(DigitsValue(Trim(value)))
  {
    var t, d := TrimStart(value), Trim(value);
    TrimEndBoundary(t);
    assert t == d + t[|d|..];
    assert t[0] == d[0];
    DigitPrefixOfRun(d, t[|d|..]);
  }

  /** The debug reader accepts a text as `n` exactly when the transit reader does and the trimmed text
      has no leading zero; then that text is the decimal of `n`. */
  lemma DebugReaderIsCanonicalTransitReader(value: string, n: int)
    ensures ParsePortDebug(value) == Some(n)
            <==> ParsePortTransit(value) == Some(n) && Trim(value)[0] != '0'
    ensures ParsePortDebug(value) == Some(n) ==> Trim(value) == Decimal(n)
  {
    if ParsePortDebug(value) == Some(n) {
      DecimalReadsBack(n);
    }
    if ParsePortTransit(value) == Some(n) {
      ParseIntReadsTrimmedDigits(value);
      DigitsPrintBack(Trim(value));
    }
  }

  /** The direct-node check passes exactly the texts the transit reader accepts as a port that is not
      reserved, and then `Number(port)` is that port. */
  lemma DirectNodeCheckIsUnreservedTransitReader(value: string)
    ensures ValidateDirectNodePort(value) == None
            <==> ParsePortTransit(value).Some? && ParsePortTransit(value).value !in RESERVED_DIRECT_NODE_PORTS
    ensures ValidateDirectNodePort(value) == None ==> NumberOf(value) == ParsePortTransit(value)
  {
  }

  /** Which error the direct-node check shows: digits are asked for first, then the range, then a port that is not
      reserved. */
  lemma DirectNodeErrorIff(value: string)
    ensures var t, e := Trim(value), ValidateDirectNodePort(value);
      && (e == Some(NotDigits) <==> t == "" || exists i :: 0 <= i < |t| && !('0' <= t[i] <= '9'))
      && (e == Some(Reserved) <==>
            ParsePortTransit(value).Some? && ParsePortTransit(value).value in RESERVED_DIRECT_NODE_PORTS)
      && (e == Some(OutOfRange) <==>
            t != "" && (forall i :: 0 <= i < |t| ==> '0' <= t[i] <= '9') && ParsePortTransit(value).None?)
  {
  }

  /** What `parseInt` reads: after white space and one sign, the longest run of digits; the rest is ignored. */
  lemma ParseIntReadsRun(value: string, sign: string, d: string, rest: string)
    requires TrimStart(value) == sign + d + rest && sign in ["", "+", "-"]
    requires d != [] && AllDigits(d) && (rest == [] || !IsDigit(rest[0]))
    ensures ParseInt(value) == Some((if sign == "-" then -1 else 1) * DigitsValue(d))
  {
    var t := TrimStart(value);
    DigitPrefixOfRun(d, rest);
    assert t == sign + (d + rest);
    if sign == "" {
      assert t == d + rest && t[0] == d[0];
    } else {
      assert t[0] == sign[0] && t[1..] == d + rest;
    }
  }

  /** Digits count by tens. */
  lemma DigitsCountByTens(s: string, c: char)
    requires AllDigits(s) && IsDigit(c)
    ensures DigitsValue(s + [c]) == 10 * DigitsValue(s) + (c as int - '0' as int)
  {
    assert (s + [c])[..|s|] == s;
  }

  /** Every reader gives a port back from its printed decimal. */
  lemma PrintedPortReadsBack(n: int)
    requires InPortRange(n)
    ensures ParsePortDebug(Decimal(n)) == ParsePortTransit(Decimal(n)) == NumberOf(Decimal(n)) == Some(n)
  {
    DecimalReadsBack(n);
    TrimFixesTight(Decimal(n));
    DebugReaderIsCanonicalTransitReader(Decimal(n), n);
  }
}

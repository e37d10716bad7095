/** Heartbeat values: how they are printed, parsed and compared. */
module Presence {
  import opened Rows

  const HEARTBEAT_TTL_SECONDS: nat := 300
  const RECLAIM_ASSIGNMENT_THRESHOLD_MS: nat := 120_000
  const SHIFT_ALIVE_THRESHOLD_MS: nat := 180_000

  const TTL_MS: nat := HEARTBEAT_TTL_SECONDS * 1000

  // ---- Date.now().toString() ----

  function Digit(d: nat): char
    requires d < 10
  {
    ('0' as int + d) as char
  }

  function ToDecimal(n: nat): string {
    if n < 10 then [Digit(n)] else ToDecimal(n / 10) + [Digit(n % 10)]
  }

  // ---- parseInt(raw, 10) ----

  predicate IsDigit(c: char) { '0' <= c <= '9' }

  /** The blanks parseInt skips, among the characters of the basic set. */
  predicate IsBlank(c: char) {
    c == ' ' || c == '\t' || c == '\n' || c == '\r' || c as int == 0x0B || c as int == 0x0C || c as int == 0xA0
  }

  function SkipBlanks(s: string): string {
    if s != [] && IsBlank(s[0]) then SkipBlanks(s[1..]) else s
  }

  /** Length of the longest prefix of digits. */
  function DigitPrefix(s: string): (n: nat)
    ensures n <= |s|
  {
    if s != [] && IsDigit(s[0]) then 1 + DigitPrefix(s[1..]) else 0
  }

  function DecimalValue(s: string): nat
    requires forall i :: 0 <= i < |s| ==> IsDigit(s[i])
  {
    if s == [] then 0
    else
      assert IsDigit(s[|s| - 1]);
      DecimalValue(s[..|s| - 1]) * 10 + (s[|s| - 1] as int - '0' as int)
  }

  lemma {:induction false} PrefixIsDigits(s: string)
    ensures forall i :: 0 <= i < DigitPrefix(s) ==> IsDigit(s[i])
  {
    if s != [] && IsDigit(s[0]) {
      PrefixIsDigits(s[1..]);
      forall i | 0 <= i < DigitPrefix(s) ensures IsDigit(s[i]) {
        if i > 0 { assert s[i] == s[1..][i - 1]; }
      }
    }
  }

  /** None stands for NaN. */
  function ParseInt(s: string): Option<int> {
    var body := SkipBlanks(s);
    var negative := body != [] && body[0] == '-';
    var digits := if body != [] && (body[0] == '-' || body[0] == '+') then body[1..] else body;
    var n := DigitPrefix(digits);
    PrefixIsDigits(digits);
    if n == 0 then None
    else
      var value: int := DecimalValue(digits[..n]);
      Some(if negative then -value else value)
  }

  /** parseHeartbeat: a missing or empty value, like a malformed one, is no heartbeat. */
  function ParseHeartbeat(raw: Option<string>): Option<int> {
    if raw == None || raw.value == "" then None else ParseInt(raw.value)
  }

  predicate IsHeartbeatFresh(raw: Option<string>, threshold: nat, now: Time) {
    ParseHeartbeat(raw).Some? && now - ParseHeartbeat(raw).value < threshold
  }

  lemma {:induction false} DigitsOfDecimal(n: nat)
    ensures ToDecimal(n) != [] && forall i :: 0 <= i < |ToDecimal(n)| ==> IsDigit(ToDecimal(n)[i])
    ensures DecimalValue(ToDecimal(n)) == n
  {
    if n >= 10 {
      DigitsOfDecimal(n / 10);
      var s := ToDecimal(n);
      assert s[..|s| - 1] == ToDecimal(n / 10);
    }
  }

  lemma {:induction false} PrefixOfDigits(s: string)
    requires forall i :: 0 <= i < |s| ==> IsDigit(s[i])
    ensures DigitPrefix(s) == |s|
  {
    if s != [] { PrefixOfDigits(s[1..]); }
  }

  function Pow10(k: nat): nat {
    if k == 0 then 1 else 10 * Pow10(k - 1)
  }

  lemma {:induction false} Pow10Grows(k: nat)
    ensures Pow10(k) >= 1
  {
    if k > 0 { Pow10Grows(k - 1); }
  }

  /** The printed text is the decimal notation: the k-th digit from the right counts the tenth powers. */
  lemma {:induction false} PrintsDecimals(n: nat, k: nat)
    requires k < |ToDecimal(n)|
    ensures Pow10(k) >= 1
    ensures ToDecimal(n)[|ToDecimal(n)| - 1 - k] as int == '0' as int + (n / Pow10(k)) % 10
  {
    Pow10Grows(k);
    if k > 0 {
      PrintsDecimals(n / 10, k - 1);
      DivTwice(n, Pow10(k - 1));
    }
  }

  lemma DivTwice(n: nat, d: nat)
    requires d >= 1
    ensures (n / 10) / d == n / (10 * d)
  {
    var q, r := n / 10, n % 10;
    var a, b := q / d, q % d;
    assert n == 10 * (a * d + b) + r;
    assert n == (10 * d) * a + (10 * b + r);
    assert 10 * b + r < 10 * d;
    DivIs(n, 10 * d, a, 10 * b + r);
  }

  lemma DivIs(n: nat, d: nat, a: nat, rest: nat)
    requires d >= 1 && n == d * a + rest && rest < d
    ensures n / d == a
  {
    Multiple(d, n / d - a);
    assert d * (n / d - a) == rest - n % d;
  }

  lemma Multiple(d: int, x: int)
    requires d >= 1
    ensures x >= 1 ==> d * x >= d
    ensures x <= -1 ==> d * x <= -d
  {}

  /** What a heartbeat writes is what its readers read. */
  lemma HeartbeatRoundTrip(now: Time)
    ensures ToDecimal(now) != "" && ParseHeartbeat(Some(ToDecimal(now))) == Some(now)
  {
    DigitsOfDecimal(now);
    PrefixOfDigits(ToDecimal(now));
    var s := ToDecimal(now);
    assert IsDigit(s[0]);
    assert SkipBlanks(s) == s;
    assert s[..|s|] == s;
  }
}

/** Six-digit room codes (backend/utils/room_code.go). The random draw rand.Intn(900000)
    is a parameter. */
module RoomCode {
  import opened Common

  /** The number of distinct draws: rand.Intn(900000) yields 0 .. 899999. */
  const DrawRange: nat := 900000

  /** The smallest code, added to every draw so that no code starts with 0. */
  const CodeBase: nat := 100000

  function DigitChar(d: nat): (c: char)
    requires d < 10
    ensures IsDigit(c) && c as int - '0' as int == d
  {
    ('0' as int + d) as char
  }

  /** GenerateRoomCode: the draw shifted into 100000 .. 999999, written digit by digit,
      most significant first. */
  function GenerateRoomCode(draw: nat): string
    requires draw < DrawRange
  {
    var code := draw + CodeBase;
    [DigitChar(code / 100000), DigitChar(code / 10000 % 10), DigitChar(code / 1000 % 10),
     DigitChar(code / 100 % 10), DigitChar(code / 10 % 10), DigitChar(code % 10)]
  }

  /** A code is six decimal digits and never starts with 0. */
  lemma RoomCodeShape(draw: nat)
    requires draw < DrawRange
    ensures |GenerateRoomCode(draw)| == 6 && AllDigits(GenerateRoomCode(draw))
    ensures GenerateRoomCode(draw)[0] != '0'
  {
  }

  /** Appending a digit shifts the value one decimal place. */
  lemma AppendDigit(p: string, d: nat)
    requires AllDigits(p) && d < 10
    ensures AllDigits(p + [DigitChar(d)])
    ensures DigitsValue(p + [DigitChar(d)]) == DigitsValue(p) * 10 + d
  {
    assert (p + [DigitChar(d)])[..|p|] == p;
  }

  /** The value of six digits written out. */
  lemma SixDigitsValue(a: nat, b: nat, c: nat, d: nat, e: nat, f: nat)
    requires a < 10 && b < 10 && c < 10 && d < 10 && e < 10 && f < 10
    ensures AllDigits([DigitChar(a), DigitChar(b), DigitChar(c), DigitChar(d), DigitChar(e), DigitChar(f)])
    ensures DigitsValue([DigitChar(a), DigitChar(b), DigitChar(c), DigitChar(d), DigitChar(e), DigitChar(f)])
            == a * 100000 + b * 10000 + c * 1000 + d * 100 + e * 10 + f
  {
    var s := [DigitChar(a), DigitChar(b), DigitChar(c), DigitChar(d), DigitChar(e), DigitChar(f)];
    AppendDigit([], a);
    assert [] + [DigitChar(a)] == s[..1];
    AppendDigit(s[..1], b);
    assert s[..1] + [DigitChar(b)] == s[..2];
    AppendDigit(s[..2], c);
    assert s[..2] + [DigitChar(c)] == s[..3];
    AppendDigit(s[..3], d);
    assert s[..3] + [DigitChar(d)] == s[..4];
    AppendDigit(s[..4], e);
    assert s[..4] + [DigitChar(e)] == s[..5];
    AppendDigit(s[..5], f);
    assert s[..5] + [DigitChar(f)] == s;
  }

  /** A number below 1000000 is the sum of its six decimal digits, each at its place. */
  lemma DecimalPlaces(n: nat)
    requires n < 1000000
    ensures n == n / 100000 * 100000 + n / 10000 % 10 * 10000 + n / 1000 % 10 * 1000
                 + n / 100 % 10 * 100 + n / 10 % 10 * 10 + n % 10
  {
    var q1 := n / 10;
    var q2 := q1 / 10;
    var q3 := q2 / 10;
    var q4 := q3 / 10;
    var q5 := q4 / 10;
    assert q2 == n / 100 && q3 == n / 1000 && q4 == n / 10000 && q5 == n / 100000;
  }

  /** Reading the six digits back in base 10 gives the drawn number, so the code lies in
      100000 .. 999999 and different draws give different codes. */
  lemma RoomCodeRoundTrip(draw: nat)
    requires draw < DrawRange
    ensures AllDigits(GenerateRoomCode(draw))
    ensures DigitsValue(GenerateRoomCode(draw)) == draw + CodeBase
    ensures CodeBase <= DigitsValue(GenerateRoomCode(draw)) < CodeBase + DrawRange
  {
    var n := draw + CodeBase;
    DecimalPlaces(n);
    SixDigitsValue(n / 100000, n / 10000 % 10, n / 1000 % 10, n / 100 % 10, n / 10 % 10, n % 10);
  }

  /** Distinct draws never share a code. */
  lemma RoomCodeInjective(a: nat, b: nat)
    requires a < DrawRange && b < DrawRange
    ensures GenerateRoomCode(a) == GenerateRoomCode(b) <==> a == b
  {
    if GenerateRoomCode(a) == GenerateRoomCode(b) {
      RoomCodeRoundTrip(a);
      RoomCodeRoundTrip(b);
    }
  }
}

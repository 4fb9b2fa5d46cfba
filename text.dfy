/** The string operations the application relies on: case folding and
    substring search (String.prototype.toLowerCase / includes), decimal
    rendering of whole numbers (Number.prototype.toString) with
    padStart(2, '0'), and the "M:SS" clock text built from them. The decimal
    reader and the clock reader are the inverses the renderings are proved
    against. */
module Text {
  import opened Base

  // ---------------------------------------------------------------- case

  predicate IsUpper(c: char) { 'A' <= c <= 'Z' }

  function LowerChar(c: char): (r: char)
    ensures !IsUpper(r)
    ensures !IsUpper(c) ==> r == c
  {
    if IsUpper(c) then (c as int - 'A' as int + 'a' as int) as char else c
  }

  /** Lower-cases every letter A-Z and leaves every other character alone. */
  function ToLower(s: string): (r: string)
    ensures |r| == |s|
    ensures forall i :: 0 <= i < |s| ==> r[i] == LowerChar(s[i])
  {
    seq(|s|, i requires 0 <= i < |s| => LowerChar(s[i]))
  }

  lemma ToLowerIdempotent(s: string)
    ensures ToLower(ToLower(s)) == ToLower(s)
  {
    var once := ToLower(s);
    forall i | 0 <= i < |s| ensures ToLower(once)[i] == once[i] {
      assert !IsUpper(once[i]);
    }
  }

  // ------------------------------------------------------------ substrings

  predicate StartsWith(s: string, prefix: string) {
    |prefix| <= |s| && s[..|prefix|] == prefix
  }

  /** needle occurs in hay at position i. */
  predicate OccursAt(hay: string, needle: string, i: int) {
    0 <= i && i + |needle| <= |hay| && hay[i..i + |needle|] == needle
  }

  /** hay contains needle as a contiguous piece; the empty needle is in every
      string. */
  function Includes(hay: string, needle: string): (r: bool)
    ensures r <==> exists i :: OccursAt(hay, needle, i)
    decreases |hay|
  {
    if StartsWith(hay, needle) then
      assert OccursAt(hay, needle, 0);
      true
    else if hay == [] then
      assert needle != [];
      assert forall i :: !OccursAt(hay, needle, i);
      false
    else
      var r := Includes(hay[1..], needle);
      assert forall i :: 1 <= i ==> (OccursAt(hay, needle, i) <==> OccursAt(hay[1..], needle, i - 1)) by {
        forall i | 1 <= i ensures OccursAt(hay, needle, i) <==> OccursAt(hay[1..], needle, i - 1) {
          if i + |needle| <= |hay| {
            var tail := hay[1..];
            assert hay[i..i + |needle|] == tail[i - 1..i - 1 + |needle|];
          }
        }
      }
      assert !OccursAt(hay, needle, 0);
      if r then
        var j :| OccursAt(hay[1..], needle, j);
        assert OccursAt(hay, needle, j + 1);
        true
      else
        false
  }

  // --------------------------------------------------------------- numbers

  predicate IsDigit(c: char) { '0' <= c <= '9' }

  function DigitChar(d: nat): (c: char)
    requires d < 10
    ensures IsDigit(c)
  {
    ('0' as int + d) as char
  }

  function DigitValue(c: char): nat
    requires IsDigit(c)
  {
    c as int - '0' as int
  }

  /** The decimal digits of n, most significant first, without leading
      zeros (what JavaScript prints for a non-negative integer). */
  function NatToString(n: nat): (r: string)
    ensures 1 <= |r|
    ensures n < 10 <==> |r| == 1
    ensures forall i :: 0 <= i < |r| ==> IsDigit(r[i])
    ensures r[0] == '0' ==> n == 0
    decreases n
  {
    if n < 10 then [DigitChar(n)]
    else
      var head := NatToString(n / 10);
      assert (head + [DigitChar(n % 10)])[0] == head[0];
      head + [DigitChar(n % 10)]
  }

  /** Reads a non-empty string of decimal digits; None for anything else. */
  function ParseDigits(s: string): Option<nat>
    decreases |s|
  {
    if s == [] || !IsDigit(s[|s| - 1]) then None
    else if |s| == 1 then Some(DigitValue(s[0]))
    else match ParseDigits(s[..|s| - 1])
      case None => None
      case Some(v) => Some(10 * v + DigitValue(s[|s| - 1]))
  }

  lemma {:induction false} ParseNatToString(n: nat)
    ensures ParseDigits(NatToString(n)) == Some(n)
    decreases n
  {
    if n >= 10 {
      ParseNatToString(n / 10);
      var s := NatToString(n);
      assert s[..|s| - 1] == NatToString(n / 10);
    }
  }

  /** String.prototype.padStart(2, '0'). */
  function PadStart2(s: string): (r: string)
    ensures |s| >= 2 ==> r == s
    ensures |s| < 2 ==> |r| == 2 && r[2 - |s|..] == s
    ensures forall i :: 0 <= i < 2 - |s| ==> r[i] == '0'
  {
    if |s| >= 2 then s else seq(2 - |s|, _ => '0') + s
  }

  /** A number below 100, padded to two digits, reads back as itself. */
  lemma TwoDigitsParse(n: nat)
    requires n < 100
    ensures |PadStart2(NatToString(n))| == 2
    ensures ParseDigits(PadStart2(NatToString(n))) == Some(n)
  {
    ParseNatToString(n);
    var p := PadStart2(NatToString(n));
    if n < 10 {
      assert p == ['0', DigitChar(n)];
      assert p[..1] == ['0'];
    } else {
      assert NatToString(n) == NatToString(n / 10) + [DigitChar(n % 10)];
    }
  }

  // ----------------------------------------------------------------- clock

  datatype Clock = Clock(minutes: nat, seconds: nat)

  /** Reads "M:SS": a non-empty minutes field, a colon and exactly two
      seconds digits. */
  function ParseClock(s: string): Option<Clock> {
    if |s| < 4 || s[|s| - 3] != ':' then None
    else match (ParseDigits(s[..|s| - 3]), ParseDigits(s[|s| - 2..]))
      case (Some(m), Some(sec)) => Some(Clock(m, sec))
      case _ => None
  }

  /** `${minutes}:${seconds.toString().padStart(2, '0')}` for a whole number
      of seconds t: reading it back gives a seconds field below 60 that,
      with the unbounded minutes field, adds up to t. */
  function ClockText(t: nat): (r: string)
    ensures ParseClock(r).Some?
    ensures ParseClock(r).value.seconds < 60
    ensures ParseClock(r).value.minutes * 60 + ParseClock(r).value.seconds == t
    ensures ParseClock(r).value.minutes == t / 60
    ensures |r| >= 4 && r[|r| - 3] == ':'
    ensures r[0] == '0' ==> r[1] == ':'
  {
    ClockFieldsParse(t / 60, t % 60);
    var m := NatToString(t / 60);
    var r := m + [':'] + PadStart2(NatToString(t % 60));
    assert r[0] == m[0];
    assert m[0] == '0' ==> r[1] == ':' by {
      if m[0] == '0' {
        assert |m| == 1;
      }
    }
    r
  }

  /** A minutes field, a colon and a padded seconds field below 100 read
      back as the two numbers. */
  lemma ClockFieldsParse(minutes: nat, seconds: nat)
    requires seconds < 100
    ensures ParseClock(NatToString(minutes) + [':'] + PadStart2(NatToString(seconds))) == Some(Clock(minutes, seconds))
  {
    ParseNatToString(minutes);
    TwoDigitsParse(seconds);
    ClockOfFields(NatToString(minutes), PadStart2(NatToString(seconds)), minutes, seconds);
  }

  /** Two fields that parse, joined by a colon, parse as the clock. */
  lemma ClockOfFields(m: string, sec: string, minutes: nat, seconds: nat)
    requires |m| >= 1 && |sec| == 2
    requires ParseDigits(m) == Some(minutes) && ParseDigits(sec) == Some(seconds)
    ensures ParseClock(m + [':'] + sec) == Some(Clock(minutes, seconds))
  {
    var r := m + [':'] + sec;
    var k := |r| - 3;
    assert k == |m|;
    assert r[..k] == m;
    assert r[k] == ':';
    assert r[k + 1..] == sec;
  }

  /** For a non-negative time, Math.floor(t / 60) and Math.floor(t % 60)
      are the quotient and remainder of Math.floor(t) by 60. */
  lemma FloorDiv60(t: real)
    requires 0.0 <= t
    ensures 0 <= t.Floor
    ensures (t / 60.0).Floor == t.Floor / 60
  {
    var n := t.Floor;
    var q := n / 60;
    assert 60 * q <= n < 60 * q + 60;
    assert (60 * q) as real <= t < (60 * q + 60) as real;
    assert (q as real) <= t / 60.0 < (q + 1) as real;
  }
}

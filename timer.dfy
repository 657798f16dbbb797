// The countdown display (apps/web/src/components/Timer.tsx): minutes and
// seconds of the store's `timeRemaining`, the two warning levels and the
// zero-padded `mm:ss` text.

module Timer {
  import opened Types
  import opened Constants

  /** `Math.floor(t / 60)`: the whole minutes, rounded down also for a negative `t`. */
  function Minutes(t: int): (m: int)
    ensures 60 * m <= t < 60 * m + 60
  {
    t / 60
  }

  /**
   * `t % 60` with JavaScript's remainder, which takes the sign of `t`: it
   * differs from `t` by a multiple of 60 and lies strictly between -60 and
   * 60, on the side of zero where `t` lies.
   */
  function Seconds(t: int): (s: int)
    ensures -60 < s < 60
    ensures t >= 0 ==> s >= 0
    ensures t < 0 ==> s <= 0
    ensures (t - s) % 60 == 0
  {
    if t >= 0 then t % 60 else -((-t) % 60)
  }

  predicate IsLow(t: int) {
    t <= 10
  }

  predicate IsCritical(t: int) {
    t <= 5
  }

  /** `Number.prototype.toString` on an integer. */
  function NumberToString(n: int): string {
    if n < 0 then "-" + NatToString(-n) else NatToString(n)
  }

  /** `s.padStart(2, '0')` for a non-empty `s`. */
  function PadStart2(s: string): string {
    if |s| >= 2 then s else "0" + s
  }

  /**
   * The `mm:ss` text of the display. Below 100 minutes it is exactly five
   * characters, two digits either side of the colon, and reading it back
   * gives the time.
   */
  function FormattedTime(t: int): (r: string)
    ensures 0 <= t < 6000 ==> |r| == 5 && r[2] == ':' && ParseClock(r) == t
  {
    var m := PadStart2(NumberToString(Minutes(t)));
    var s := PadStart2(NumberToString(Seconds(t)));
    if 0 <= t < 6000 then
      TwoDigits(Minutes(t));
      TwoDigits(Seconds(t));
      assert (m + ":" + s)[..2] == m && (m + ":" + s)[3..] == s;
      m + ":" + s
    else m + ":" + s
  }

  /** Reading an `mm:ss` display back as a number of seconds. */
  function ParseClock(s: string): int
    requires |s| == 5
  {
    60 * DigitsValue(s[..2]) + DigitsValue(s[3..])
  }

  // ---------------------------------------------------------------------------
  // Properties

  /** For a non-negative time the two parts recombine to it, seconds in 0..59. */
  lemma ClockSplit(t: int)
    requires t >= 0
    ensures 60 * Minutes(t) + Seconds(t) == t
    ensures 0 <= Seconds(t) <= 59 && Minutes(t) >= 0
  {
  }

  lemma CriticalImpliesLow(t: int)
    ensures IsCritical(t) ==> IsLow(t)
  {
  }

  /** Below 100 the decimal text is two digits after padding, spelling the number. */
  lemma TwoDigits(n: nat)
    requires n < 100
    ensures var s := PadStart2(NatToString(n));
      |s| == 2 && (forall c :: c in s ==> '0' <= c <= '9') && DigitsValue(s) == n
  {
    var d := NatToString(n);
    if n < 10 {
      var s := PadStart2(d);
      assert s == ['0', d[0]] && s[..1] == ['0'] && ['0'][..0] == [] && d[..0] == [];
    } else {
      assert |NatToString(n / 10)| == 1;
    }
  }

  /**
   * The server's `timeRemaining` is a phase duration in milliseconds: the
   * five-second memory phase arrives as 5000 and the display, which counts
   * it as seconds, reads 83 minutes 20 and never warns.
   */
  lemma MemoryPhaseReadsAsMinutes()
    ensures FormattedTime(PhaseDuration(Memory)) == "83:20"
    ensures !IsLow(PhaseDuration(Memory))
  {
    assert NatToString(8) == "8";
    assert NatToString(83) == NatToString(8) + "3";
    assert NatToString(2) == "2";
    assert NatToString(20) == NatToString(2) + "0";
  }

  /**
   * The display of a millisecond count, in whole seconds: below 100 minutes
   * it is `mm:ss` and reads back as the whole seconds of the count.
   */
  function FormattedRemaining(ms: int): (r: string)
    ensures 0 <= ms < 6000000 ==> |r| == 5 && r[2] == ':' && ParseClock(r) == ms / 1000
  {
    FormattedTime(ms / 1000)
  }

  predicate IsLowRemaining(ms: int) {
    IsLow(ms / 1000)
  }

  /**
   * Read as milliseconds, every remaining time under 100 minutes shows as
   * `mm:ss` spelling its whole seconds, and a phase ending within ten
   * seconds warns.
   */
  lemma FormattedRemainingShowsSeconds(ms: int)
    requires 0 <= ms < 6000000
    ensures |FormattedRemaining(ms)| == 5
    ensures ParseClock(FormattedRemaining(ms)) == ms / 1000
    ensures IsLowRemaining(ms) <==> ms < 11000
  {
  }

  /** Read as milliseconds, the five-second memory phase shows `00:05` and warns. */
  lemma MemoryPhaseReadsAsSeconds()
    ensures FormattedRemaining(PhaseDuration(Memory)) == "00:05"
    ensures IsLowRemaining(PhaseDuration(Memory)) && IsCritical(PhaseDuration(Memory) / 1000)
  {
    assert PhaseDuration(Memory) / 1000 == 5;
    assert Minutes(5) == 0 && Seconds(5) == 5;
    assert NatToString(0) == "0" && NatToString(5) == "5";
  }
}

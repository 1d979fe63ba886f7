/** The timer readout of src/views/game_overlays.py: `_format_ms` and the choice of the
    value `draw_timer` shows. Drawing itself is not modelled. */
module GameOverlays {
  import opened Wrappers
  import opened Text
  import opened Timers

  /** Whole seconds in `max(0, ms)` milliseconds, rounded down. */
  function TotalSeconds(ms: int): nat
  {
    (if ms < 0 then 0 else ms) / 1000
  }

  /** Python's `f"{n:02d}"`: the decimal digits of `n`, zero-padded to at least two. */
  function ZeroPad2(n: nat): (r: string)
    ensures |r| >= 2 && AllDigits(r) && ParseNat(r) == n
    ensures n < 100 ==> |r| == 2
    ensures |r| > 2 ==> r[0] != '0'
  {
    ParseNatToString(n);
    if n < 10 then
      ParseNatLeadingZero(NatToString(n));
      "0" + NatToString(n)
    else
      assert n < 100 ==> NatToString(n) == NatToString(n / 10) + [DigitChar(n % 10)];
      NatToString(n)
  }

  /** `_format_ms(ms)`: minutes and seconds of `max(0, ms)`, as "mm:ss". */
  function FormatMs(ms: int): (r: string)
    ensures |r| >= 5 && r[|r| - 3] == ':'
    ensures AllDigits(r[..|r| - 3]) && AllDigits(r[|r| - 2..])
    ensures ParseNat(r[|r| - 2..]) < 60
    ensures ParseNat(r[..|r| - 3]) * 60 + ParseNat(r[|r| - 2..]) == TotalSeconds(ms)
    ensures |r| == 5 || r[0] != '0'
  {
    var total := TotalSeconds(ms);
    var m := total / 60;
    var s := total % 60;
    var r := ZeroPad2(m) + ":" + ZeroPad2(s);
    assert r[..|r| - 3] == ZeroPad2(m) && r[|r| - 2..] == ZeroPad2(s);
    r
  }

  /** Anything under a second, negative values included, reads "00:00". */
  lemma UnderASecondIsZero(ms: int)
    requires ms < 1000
    ensures FormatMs(ms) == "00:00"
  {
    assert TotalSeconds(ms) == 0;
    assert NatToString(0) == "0";
    assert ZeroPad2(0) == "00";
    assert FormatMs(ms) == ZeroPad2(0) + ":" + ZeroPad2(0);
  }

  /** The value `draw_timer` formats: the remaining time of a countdown with a target,
      the elapsed time otherwise. */
  function DisplayMs(t: Timer): (ms: int)
    reads t
    ensures ms >= 0
    ensures t.mode == Countdown && t.targetMs.Some? ==> ms == t.RemainingMs().value && ms <= t.targetMs.value
    ensures !(t.mode == Countdown && t.targetMs.Some?) ==> ms == t.elapsedMs
  {
    var rem := t.RemainingMs();
    if t.mode == Countdown && rem.Some? then rem.value else t.elapsedMs
  }

  /** A finished countdown reads "00:00". */
  lemma FinishedCountdownReadsZero(t: Timer)
    requires t.IsFinished()
    ensures FormatMs(DisplayMs(t)) == "00:00"
  {
    UnderASecondIsZero(DisplayMs(t));
  }
}

/** What the length, envelope and period units do over time. */
module ApuLaws {
  import opened Common
  import opened Clocked
  import opened ApuChannels
  import opened Apu

  /** A sounding channel with its length timer on falls silent exactly at the tick that exhausts it. */
  lemma {:induction false} LengthExpires(p: Pulse, k: nat)
    requires p.enabled && p.length.enabled && p.length.current >= 1
    ensures var q := Times(PulseLengthTick, p, k);
      && (q.enabled <==> k < p.length.current)
      && q.length.current == (if k < p.length.current then p.length.current - k else 0)
      && q == p.(enabled := q.enabled, length := q.length) && q.length.enabled
  {
    if k > 0 {
      TimesLast(PulseLengthTick, p, k);
      LengthExpires(p, k - 1);
    }
  }

  /** Volume after `steps` volume steps from `start`. */
  function Ramp(start: nat, increase: bool, steps: nat): nat {
    if increase then Min(start + steps, 15) else if steps <= start then start - steps else 0
  }

  lemma PaceDivides(k: nat, pace: nat)
    requires pace >= 1 && k >= 1
    ensures if k % pace == 0 then (k - 1) % pace == pace - 1 && k / pace == (k - 1) / pace + 1
            else (k - 1) % pace == k % pace - 1 && k / pace == (k - 1) / pace
  {
    var q, r := k / pace, k % pace;
    assert k == q * pace + r;
    if r == 0 {
      assert (q - 1) * pace == q * pace - pace;
      Quotient(k - 1, pace, q - 1, pace - 1);
    } else {
      Quotient(k - 1, pace, q, r - 1);
    }
  }

  /** From a trigger on, the volume moves one step every `pace` envelope ticks and stays within 0..15. */
  lemma {:induction false} EnvelopeRamp(e: Envelope, k: nat)
    requires e.config.pace >= 1
    ensures var start := EnvelopeReset(e);
      Times(EnvelopeTick, start, k) == start.(
        volume := Ramp(e.config.volume, e.config.increase, k / e.config.pace),
        timer := e.config.pace - k % e.config.pace)
  {
    var start, pace := EnvelopeReset(e), e.config.pace;
    if k > 0 {
      TimesLast(EnvelopeTick, start, k);
      EnvelopeRamp(e, k - 1);
      PaceDivides(k, pace);
    } else {
      Quotient(0, pace, 0, 0);
    }
  }

  /** The two period writes compose the 11 bits in either order, whatever was there before. */
  lemma PeriodWrites(period: word, low: byte, high: byte)
    ensures WithHigh(WithLow(period, low), high) == WithLow(WithHigh(period, high), low) == high % 8 * 0x100 + low
    ensures high % 8 * 0x100 + low <= MAX_PERIOD
  {
  }
}

/** Hardware time: 64-bit tick counts, and rates as tick intervals. */
module Clock {

  const WORD64 := 0x1_0000_0000_0000_0000

  /** Ticks between runs at a rate in Hz on a clock of `base` Hz. */
  function Ticks(freq: nat, base: nat): nat {
    if freq == 0 then 0 else base / freq
  }

  /** The interval is the longest that still runs the task `freq` times a second;
      it is 0, every pass, at rate 0, on an unset clock or beyond the clock's rate. */
  lemma TicksIsTheInterval(freq: nat, base: nat)
    ensures freq > 0 ==> Ticks(freq, base) * freq <= base < (Ticks(freq, base) + 1) * freq
    ensures Ticks(freq, base) == 0 <==> freq == 0 || base < freq
  {
    if freq > 0 {
      var q := base / freq;
      assert base == q * freq + base % freq;
      assert (q + 1) * freq == q * freq + freq;
      assert base >= freq ==> q != 0;
      if q >= 1 { assert q * freq == (q - 1) * freq + freq && (q - 1) * freq >= 0; }
    }
  }
}

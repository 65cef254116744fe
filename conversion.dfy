/** Unit conversion: servo angle (degrees) to pulse width (microseconds) to a 16-bit PWM duty value.
    Python floats are modelled as exact reals and Python's `int()` on a float as truncation toward zero. */
module Conversion {
  import opened Settings

  /** The largest duty value a PCA9685 channel accepts (16-bit resolution). */
  const FullScale: int := 0xFFFF

  /** Angles are clamped to this range before they are mapped onto the pulse range. */
  const MaxAngle: real := 180.0

  /** `_clamp`: `lo` below the range, `hi` above it, `x` itself inside it. */
  function Clamp(x: real, lo: real, hi: real): (r: real)
    ensures lo <= hi ==> lo <= r <= hi
    ensures lo <= x <= hi ==> r == x
    ensures x < lo ==> r == lo
    ensures lo <= hi && hi < x ==> r == hi
  {
    if x < lo then lo else if x > hi then hi else x
  }

  /** Python's `int()` applied to a float: the integer part, rounding toward zero. */
  function Trunc(x: real): (r: int)
    ensures 0.0 <= x ==> r as real <= x < r as real + 1.0
    ensures x < 0.0 ==> r as real - 1.0 < x <= r as real
  {
    if x >= 0.0 then x.Floor else -((-x).Floor)
  }

  lemma TruncMonotone(x: real, y: real)
    requires x <= y
    ensures Trunc(x) <= Trunc(y)
  {
    if x < 0.0 && 0.0 <= y {
      assert Trunc(x) <= 0;
    }
  }

  /** Truncation keeps a value that lies between two integers between them. */
  lemma TruncBetween(lo: int, hi: int, x: real)
    requires lo as real <= x <= hi as real
    ensures lo <= Trunc(x) <= hi
  {
    TruncMonotone(lo as real, x);
    TruncMonotone(x, hi as real);
  }

  lemma ClampMonotone(x: real, y: real, lo: real, hi: real)
    requires x <= y && lo <= hi
    ensures Clamp(x, lo, hi) <= Clamp(y, lo, hi)
  {
  }

  lemma ScaleMonotone(x: real, y: real, k: real)
    requires x <= y && 0.0 <= k
    ensures x * k <= y * k
  {
    assert y * k - x * k == (y - x) * k;
  }

  /** The unclamped pulse width, before truncation, for an already clamped angle. */
  function PulseExact(minUs: int, maxUs: int, a: real): real
  {
    minUs as real + (a / MaxAngle) * (maxUs - minUs) as real
  }

  lemma PulseExactMonotone(minUs: int, maxUs: int, a: real, b: real)
    requires minUs <= maxUs && a <= b
    ensures PulseExact(minUs, maxUs, a) <= PulseExact(minUs, maxUs, b)
  {
    ScaleMonotone(a / MaxAngle, b / MaxAngle, (maxUs - minUs) as real);
  }

  /** `_angle_to_pulse_us`: clamp to [0, 180] degrees, map linearly onto [minUs, maxUs], truncate. */
  function AngleToPulseUs(minUs: int, maxUs: int, angle: real): (r: int)
    ensures minUs <= maxUs ==> minUs <= r <= maxUs
  {
    var a := Clamp(angle, 0.0, MaxAngle);
    var exact := PulseExact(minUs, maxUs, a);
    if minUs <= maxUs then
      PulseExactMonotone(minUs, maxUs, 0.0, a);
      PulseExactMonotone(minUs, maxUs, a, MaxAngle);
      TruncBetween(minUs, maxUs, exact);
      Trunc(exact)
    else
      Trunc(exact)
  }

  /** Angles outside [0, 180] give the pulse of the nearest end of the range; the ends give the
      configured pulse bounds exactly. This holds for any pulse range, ordered or not. */
  lemma AngleToPulseClamps(minUs: int, maxUs: int, angle: real)
    ensures AngleToPulseUs(minUs, maxUs, 0.0) == minUs
    ensures AngleToPulseUs(minUs, maxUs, MaxAngle) == maxUs
    ensures angle <= 0.0 ==> AngleToPulseUs(minUs, maxUs, angle) == AngleToPulseUs(minUs, maxUs, 0.0)
    ensures MaxAngle <= angle ==> AngleToPulseUs(minUs, maxUs, angle) == AngleToPulseUs(minUs, maxUs, MaxAngle)
  {
    assert PulseExact(minUs, maxUs, MaxAngle) == maxUs as real;
  }

  /** With an ordered pulse range a larger angle never gives a shorter pulse. */
  lemma AngleToPulseMonotone(minUs: int, maxUs: int, a: real, b: real)
    requires minUs <= maxUs && a <= b
    ensures AngleToPulseUs(minUs, maxUs, a) <= AngleToPulseUs(minUs, maxUs, b)
  {
    var ca, cb := Clamp(a, 0.0, MaxAngle), Clamp(b, 0.0, MaxAngle);
    ClampMonotone(a, b, 0.0, MaxAngle);
    PulseExactMonotone(minUs, maxUs, ca, cb);
    TruncMonotone(PulseExact(minUs, maxUs, ca), PulseExact(minUs, maxUs, cb));
  }

  /** The duty value before truncation and clamping: the pulse as a fraction of the PWM period,
      scaled to full scale. */
  function DutyExact(freqHz: int, pulseUs: int): real
    requires freqHz != 0
  {
    var periodUs := 1000000.0 / freqHz as real;
    (pulseUs as real / periodUs) * FullScale as real
  }

  lemma DutyExactMonotone(freqHz: int, p: int, q: int)
    requires freqHz > 0 && p <= q
    ensures DutyExact(freqHz, p) <= DutyExact(freqHz, q)
  {
    var periodUs := 1000000.0 / freqHz as real;
    assert periodUs > 0.0;
    assert p as real / periodUs <= q as real / periodUs;
    ScaleMonotone(p as real / periodUs, q as real / periodUs, FullScale as real);
  }

  /** `_pulse_us_to_duty`: the pulse width as a truncated 16-bit duty value, clamped to [0, 0xFFFF].
      A zero frequency would divide by zero, so it is excluded. */
  function PulseUsToDuty(freqHz: int, pulseUs: int): (r: int)
    requires freqHz != 0
    ensures 0 <= r <= FullScale
  {
    var duty := Trunc(DutyExact(freqHz, pulseUs));
    Clamp(duty as real, 0.0, FullScale as real).Floor
  }

  /** For a positive frequency a longer pulse never gives a smaller duty value. */
  lemma PulseUsToDutyMonotone(freqHz: int, p: int, q: int)
    requires freqHz > 0 && p <= q
    ensures PulseUsToDuty(freqHz, p) <= PulseUsToDuty(freqHz, q)
  {
    DutyExactMonotone(freqHz, p, q);
    var dp, dq := Trunc(DutyExact(freqHz, p)), Trunc(DutyExact(freqHz, q));
    TruncMonotone(DutyExact(freqHz, p), DutyExact(freqHz, q));
    ClampMonotone(dp as real, dq as real, 0.0, FullScale as real);
  }

  /** The duty value `set_angle` writes for an angle under a configuration. */
  function AngleToDuty(cfg: Config, angle: real): (r: int)
    requires cfg.freqHz != 0
    ensures 0 <= r <= FullScale
  {
    PulseUsToDuty(cfg.freqHz, AngleToPulseUs(cfg.minUs, cfg.maxUs, angle))
  }

  /** The whole angle-to-duty chain is monotone under an ordered pulse range and a positive frequency. */
  lemma AngleToDutyMonotone(cfg: Config, a: real, b: real)
    requires cfg.freqHz > 0 && cfg.minUs <= cfg.maxUs && a <= b
    ensures AngleToDuty(cfg, a) <= AngleToDuty(cfg, b)
  {
    AngleToPulseMonotone(cfg.minUs, cfg.maxUs, a, b);
    PulseUsToDutyMonotone(cfg.freqHz, AngleToPulseUs(cfg.minUs, cfg.maxUs, a), AngleToPulseUs(cfg.minUs, cfg.maxUs, b));
  }

  /** The default pulse range maps these angles to these pulse widths. */
  lemma DefaultPulses()
    ensures AngleToPulseUs(Defaults.minUs, Defaults.maxUs, 90.0) == 1500
    ensures AngleToPulseUs(Defaults.minUs, Defaults.maxUs, 40.0) == 944
    ensures AngleToPulseUs(Defaults.minUs, Defaults.maxUs, 45.0) == 1000
  {
    assert PulseExact(500, 2500, 90.0) == 1500.0;
    assert PulseExact(500, 2500, 40.0) == 500.0 + 4000.0 / 9.0;
    assert PulseExact(500, 2500, 45.0) == 1000.0;
  }

  /** Under the default configuration (50 Hz, 500..2500 us) the rest angle 90 and the press angles
      40 and 45 give these duty values. */
  lemma DefaultDuties()
    ensures AngleToDuty(Defaults, 90.0) == 4915
    ensures AngleToDuty(Defaults, 40.0) == 3093
    ensures AngleToDuty(Defaults, 45.0) == 3276
  {
    DefaultPulses();
    assert DutyExact(50, 1500) == 4915.125;
    assert DutyExact(50, 944) == 3093.252;
    assert DutyExact(50, 1000) == 3276.75;
  }
}

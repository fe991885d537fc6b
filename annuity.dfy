/** The future-value-of-annuity factor used wherever the calculator inverts
    the SIP growth to find a required monthly contribution. The monthly rate
    itself, `(1 + annual/100)^(1/12) - 1`, is a fractional power and is given
    to the core as a number. */
module Annuity {
  import opened JsValues

  /** `((1 + m)^n - 1) / m`: what a SIP of 1 per month grows to after n months
      at the monthly rate m. */
  function FutureValueFactor(monthlyRate: real, months: nat): (f: real)
    requires monthlyRate != 0.0
    ensures monthlyRate > -1.0 && months >= 1 ==> f > 0.0
  {
    FactorPositive(monthlyRate, months);
    (Pow(1.0 + monthlyRate, months) - 1.0) / monthlyRate
  }

  lemma FactorPositive(m: real, n: nat)
    requires m != 0.0
    ensures m > -1.0 && n >= 1 ==> (Pow(1.0 + m, n) - 1.0) / m > 0.0
  {
    if m > -1.0 && n >= 1 {
      PowStrict(1.0 + m, n);
      var num := Pow(1.0 + m, n) - 1.0;
      var q := num / m;
      assert q * m == num;
    }
  }

  /** The value of a SIP of `sip` per month after n months at rate m. */
  function FutureValue(sip: real, monthlyRate: real, months: nat): real
    requires monthlyRate != 0.0
  {
    sip * FutureValueFactor(monthlyRate, months)
  }

  /** Paying `target / factor` per month reaches exactly `target`: the
      inversion undoes the future-value computation. */
  lemma InversionReachesTarget(target: real, monthlyRate: real, months: nat)
    requires monthlyRate > -1.0 && monthlyRate != 0.0 && months >= 1
    ensures FutureValue(target / FutureValueFactor(monthlyRate, months), monthlyRate, months) == target
  {
    var f := FutureValueFactor(monthlyRate, months);
    assert f > 0.0;
    assert target / f * f == target;
  }
}

/** Probability clamping, expected value and the sign/tone rules used to
    display it (backend/static/app.js, clamp01, computeEV, formatEV,
    setEvTone). */
module Ev {
  import opened Optional

  /** `Math.max(0, Math.min(1, x))`. */
  function Clamp01(x: real): (r: real)
    ensures 0.0 <= r <= 1.0
    ensures 0.0 <= x <= 1.0 ==> r == x
    ensures x < 0.0 ==> r == 0.0
    ensures x > 1.0 ==> r == 1.0
  {
    var lo := if 1.0 < x then 1.0 else x;
    if 0.0 > lo then 0.0 else lo
  }

  lemma Clamp01Idempotent(x: real)
    ensures Clamp01(Clamp01(x)) == Clamp01(x)
  {
  }

  lemma Clamp01Monotone(x: real, y: real)
    requires x <= y
    ensures Clamp01(x) <= Clamp01(y)
  {
  }

  /** Decimal expected value of a unit stake: absent when either the
      probability or the odd is absent. */
  function ComputeEV(prob: Option<real>, odds: Option<real>): (ev: Option<real>)
    ensures ev.None? <==> prob.None? || odds.None?
    ensures ev.Some? ==> ev.value + 1.0 == prob.value * odds.value
  {
    if prob.None? || odds.None? then None
    else Some(prob.value * odds.value - 1.0)
  }

  /** The EV of a positive odd is non-negative exactly when the probability
      reaches the odd's implied probability `1/o`, and positive exactly when
      it exceeds it. */
  lemma EvSignIsImpliedProbability(p: real, o: real)
    requires o > 0.0
    ensures ComputeEV(Some(p), Some(o)).value >= 0.0 <==> p >= 1.0 / o
    ensures ComputeEV(Some(p), Some(o)).value > 0.0 <==> p > 1.0 / o
  {
  }

  /** For a fixed positive odd, a larger probability never lowers the EV. */
  lemma EvMonotoneInProbability(p: real, q: real, o: real)
    requires p <= q && o > 0.0
    ensures ComputeEV(Some(p), Some(o)).value <= ComputeEV(Some(q), Some(o)).value
  {
  }

  /** What `formatEV` renders: "N/A", or a sign prefix followed by the EV as
      a percentage (the digits of `toFixed(2)` are not modelled; the
      percentage itself is kept). */
  datatype EvText = NotAvailable | Percent(sign: string, pct: real)

  function FormatEV(ev: Option<real>): (t: EvText)
    ensures t.NotAvailable? <==> ev.None?
    ensures t.Percent? ==> t.pct == ev.value * 100.0
    ensures t.Percent? ==> (t.sign == "+" <==> ev.value > 0.0)
    ensures t.Percent? ==> (t.sign == "" <==> ev.value <= 0.0)
  {
    if ev.None? then NotAvailable
    else
      var sign := if ev.value > 0.0 then "+" else "";
      Percent(sign, ev.value * 100.0)
  }

  /** The styling class `setEvTone` leaves on the EV tile. */
  datatype Tone = Neutral | Positive | Negative

  function EvTone(ev: Option<real>): (t: Tone)
    ensures t == Neutral <==> ev.None?
    ensures t == Positive <==> ev.Some? && ev.value >= 0.0
    ensures t == Negative <==> ev.Some? && ev.value < 0.0
  {
    if ev.None? then Neutral
    else if ev.value >= 0.0 then Positive else Negative
  }

  /** The two rules disagree at exactly one point: an EV of zero is shown
      without "+" yet styled positive. Everywhere else a "+" and a positive
      tone go together. */
  lemma SignAndToneDisagreeOnlyAtZero(ev: Option<real>)
    ensures (FormatEV(ev).Percent? && FormatEV(ev).sign == "" && EvTone(ev) == Positive)
            <==> ev == Some(0.0)
    ensures FormatEV(ev).Percent? && FormatEV(ev).sign == "+" ==> EvTone(ev) == Positive
  {
  }

  lemma ZeroEvExample()
    ensures FormatEV(Some(0.0)) == Percent("", 0.0)
    ensures EvTone(Some(0.0)) == Positive
    ensures FormatEV(Some(0.08)) == Percent("+", 8.0)
    ensures FormatEV(None) == NotAvailable && EvTone(None) == Neutral
  {
  }
}

/** The 2026 monthly withholding table and the other legal constants of the engine
    (src/services/irrf-calculator.ts:40-50, and the redutor thresholds of lines 58-64). */
module TaxTable {
  import opened Wrappers

  /** One progressive tier: its upper limit (`None` stands for the unbounded last tier),
      its marginal rate and the published cumulative deduction of the shortcut formula. */
  datatype TaxBracket = TaxBracket(limit: Option<real>, rate: real, deduction: real)

  const BRACKETS: seq<TaxBracket> := [
    TaxBracket(Some(2428.80), 0.0, 0.0),
    TaxBracket(Some(2826.65), 0.075, 182.16),
    TaxBracket(Some(3751.05), 0.15, 394.16),
    TaxBracket(Some(4664.68), 0.225, 675.48),
    TaxBracket(None, 0.275, 908.72)
  ]

  const DEPENDENT_DEDUCTION: real := 189.59
  const SIMPLIFIED_DEDUCTION: real := 607.20
  const EXEMPTION_65_PLUS: real := 1903.98

  /** Redutor: income up to this amount has its whole tax abated. */
  const REDUTOR_FULL_LIMIT: real := 5000.00
  /** Redutor: income above this amount gets no abatement. */
  const REDUTOR_PHASE_OUT_LIMIT: real := 7350.00
  /** Redutor formula between the two thresholds: INTERCEPT - SLOPE * income. */
  const REDUTOR_INTERCEPT: real := 978.62
  const REDUTOR_SLOPE: real := 0.133145

  /** The highest marginal rate, that of the unbounded tier. */
  const TOP_RATE: real := 0.275

  /** Every limit lies above `bottom` and above the limit before it, every tier is bounded
      except the last one, and the last one is unbounded. */
  predicate LimitsAbove(t: seq<TaxBracket>, bottom: real)
    decreases |t|
  {
    |t| > 0 &&
    match t[0].limit
    case None => |t| == 1
    case Some(l) => bottom < l && LimitsAbove(t[1..], l)
  }

  /** The same shape of limits, stated over positions instead of by recursion. */
  predicate LimitsStrictlyIncreasing(t: seq<TaxBracket>, bottom: real)
  {
    && |t| > 0
    && t[|t| - 1].limit.None?
    && (forall i :: 0 <= i < |t| - 1 ==> t[i].limit.Some?)
    && (|t| > 1 ==> bottom < t[0].limit.value)
    && (forall i, j :: 0 <= i < j < |t| - 1 ==> t[i].limit.value < t[j].limit.value)
  }

  /** Marginal rates are non-negative and strictly increasing. */
  predicate RatesIncreasing(t: seq<TaxBracket>)
  {
    && (forall i :: 0 <= i < |t| ==> 0.0 <= t[i].rate)
    && (forall i, j :: 0 <= i < j < |t| ==> t[i].rate < t[j].rate)
  }

  predicate WellFormed(t: seq<TaxBracket>)
  {
    LimitsAbove(t, 0.0) && RatesIncreasing(t)
  }

  /** The recursive and the positional descriptions of the limits agree. */
  lemma {:induction false} LimitsAboveIff(t: seq<TaxBracket>, bottom: real)
    ensures LimitsAbove(t, bottom) <==> LimitsStrictlyIncreasing(t, bottom)
    decreases |t|
  {
    if |t| > 0 && t[0].limit.Some? {
      var l := t[0].limit.value;
      var tail := t[1..];
      LimitsAboveIff(tail, l);
      if LimitsAbove(t, bottom) {
        assert LimitsStrictlyIncreasing(tail, l);
        forall i, j | 0 <= i < j < |t| - 1
          ensures t[i].limit.value < t[j].limit.value
        {
          assert tail[j - 1] == t[j];
          if i > 0 {
            assert tail[i - 1] == t[i];
          } else if j > 1 {
            assert tail[0] == t[1];
          }
        }
        assert t[|t| - 1] == tail[|tail| - 1];
        forall i | 0 <= i < |t| - 1
          ensures t[i].limit.Some?
        {
          if i > 0 {
            assert tail[i - 1] == t[i];
          }
        }
      }
      if LimitsStrictlyIncreasing(t, bottom) {
        assert |t| > 1;
        assert t[|t| - 1] == tail[|tail| - 1];
        forall i | 0 <= i < |tail| - 1
          ensures tail[i].limit.Some?
        {
          assert tail[i] == t[i + 1];
        }
        forall i, j | 0 <= i < j < |tail| - 1
          ensures tail[i].limit.value < tail[j].limit.value
        {
          assert tail[i] == t[i + 1] && tail[j] == t[j + 1];
        }
        if |tail| > 1 {
          assert tail[0] == t[1];
          assert l < t[1].limit.value;
        }
        assert LimitsStrictlyIncreasing(tail, l);
      }
    }
  }

  /** The 2026 table is well formed: limits above zero and strictly increasing, only the last
      tier unbounded, and rates non-negative and strictly increasing up to TOP_RATE. */
  lemma BracketsWellFormed()
    ensures WellFormed(BRACKETS)
    ensures LimitsStrictlyIncreasing(BRACKETS, 0.0)
    ensures |BRACKETS| == 5
    ensures forall i :: 0 <= i < |BRACKETS| ==> BRACKETS[i].rate <= TOP_RATE
  {
    LimitsAboveIff(BRACKETS, 0.0);
  }
}

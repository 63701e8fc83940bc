/** Confidence fusion: how the analyzer turns the two branch results into
    an integrated confidence, an agreement (consistency) score and a
    recommendation score (deepconf_with_behavior.py:304-352). */
module Fusion {
  import opened Outcomes
  import opened Values

  /** Confidence assumed for a branch that reported none. */
  const Fallback: real := 0.5

  /** Weights of the integrated confidence: reasoning, behavior, consistency. */
  const Alpha: real := 0.4
  const Beta: real := 0.3
  const Gamma: real := 0.3
  const IntegrationWeights: seq<real> := [Alpha, Beta, Gamma]

  /** Weights of the recommendation score: integrated confidence, recommendation quality. */
  const RecommendationWeights: seq<real> := [0.6, 0.4]

  /** Keys of the behavior mapping the fusion reads. */
  const ConfidenceScore: string := "confidence_score"
  const RecommendationQuality: string := "recommendation_quality"

  /** The three fused scores. */
  datatype Scores = Scores(integratedConfidence: real, analysisConsistency: real, recommendationScore: real)

  function Abs(x: real): real {
    if x < 0.0 then -x else x
  }

  predicate InUnit(x: real) {
    0.0 <= x <= 1.0
  }

  function Sum(ws: seq<real>): real {
    if |ws| == 0 then 0.0 else ws[0] + Sum(ws[1..])
  }

  predicate NonNegative(ws: seq<real>) {
    forall i :: 0 <= i < |ws| ==> 0.0 <= ws[i]
  }

  predicate AllInUnit(xs: seq<real>) {
    forall i :: 0 <= i < |xs| ==> InUnit(xs[i])
  }

  /** A weight vector of a convex combination. */
  predicate Convex(ws: seq<real>) {
    NonNegative(ws) && Sum(ws) == 1.0
  }

  /** The weighted combination `ws[0]*xs[0] + ws[1]*xs[1] + ...`. */
  function WeightedSum(ws: seq<real>, xs: seq<real>): real
    requires |ws| == |xs|
    decreases |ws|
  {
    if |ws| == 0 then 0.0 else ws[0] * xs[0] + WeightedSum(ws[1..], xs[1..])
  }

  /** With non-negative weights and inputs in [0,1] a weighted combination
      never exceeds the total weight, so a convex combination of unit values
      is again a unit value. */
  lemma {:induction false} WeightedSumBounded(ws: seq<real>, xs: seq<real>)
    requires |ws| == |xs|
    ensures NonNegative(ws) && AllInUnit(xs) ==> 0.0 <= WeightedSum(ws, xs) <= Sum(ws)
    decreases |ws|
  {
    if 0 < |ws| && NonNegative(ws) && AllInUnit(xs) {
      TailsStayInRange(ws, xs);
      WeightedSumBounded(ws[1..], xs[1..]);
      StepBounded(ws[0], xs[0], WeightedSum(ws[1..], xs[1..]), Sum(ws[1..]));
    }
  }

  /** Dropping the first weight and input keeps both vectors in range. */
  lemma TailsStayInRange(ws: seq<real>, xs: seq<real>)
    requires 0 < |ws| == |xs| && NonNegative(ws) && AllInUnit(xs)
    ensures NonNegative(ws[1..]) && AllInUnit(xs[1..])
  {
    forall i | 0 <= i < |ws| - 1
      ensures 0.0 <= ws[1..][i] && InUnit(xs[1..][i])
    {
      assert ws[1..][i] == ws[i + 1] && xs[1..][i] == xs[i + 1];
    }
  }

  /** One step of `WeightedSum`: a weighted unit value added to a tail
      bounded by its total weight stays bounded by the grown total. */
  lemma StepBounded(w: real, x: real, tail: real, tailTotal: real)
    requires 0.0 <= w && InUnit(x) && 0.0 <= tail <= tailTotal
    ensures 0.0 <= w * x + tail <= w + tailTotal
  {
    assert w * x <= w * 1.0;
  }

  /** Both weight vectors of the fusion are convex: the weights sum to 1. */
  lemma WeightsAreConvex()
    ensures Convex(IntegrationWeights)
    ensures Convex(RecommendationWeights)
  {
    assert IntegrationWeights[1..] == [Beta, Gamma];
    assert [Beta, Gamma][1..] == [Gamma];
    assert [Gamma][1..] == [];
    assert Sum([Gamma]) == Gamma;
    assert Sum([Beta, Gamma]) == Beta + Gamma;
    assert RecommendationWeights[1..] == [0.4];
    assert [0.4][1..] == [];
    assert Sum([0.4]) == 0.4;
  }

  /** `WeightedSum` unfolded for the three integration weights. */
  lemma WeightedSumOfThree(a: real, b: real, c: real, x: real, y: real, z: real)
    ensures WeightedSum([a, b, c], [x, y, z]) == a * x + b * y + c * z
  {
    assert [a, b, c][1..] == [b, c] && [x, y, z][1..] == [y, z];
    assert [b, c][1..] == [c] && [y, z][1..] == [z];
    assert [c][1..] == [] && [z][1..] == [];
    assert WeightedSum([c], [z]) == c * z;
    assert WeightedSum([b, c], [y, z]) == b * y + c * z;
  }

  /** `WeightedSum` unfolded for the two recommendation weights. */
  lemma WeightedSumOfTwo(a: real, b: real, x: real, y: real)
    ensures WeightedSum([a, b], [x, y]) == a * x + b * y
  {
    assert [a, b][1..] == [b] && [x, y][1..] == [y];
    assert [b][1..] == [] && [y][1..] == [];
    assert WeightedSum([b], [y]) == b * y;
  }

  /** How well the two confidences agree: 1 for equal confidences, less the
      further apart they are. */
  function Consistency(d: real, b: real): (c: real)
    ensures c <= 1.0
    ensures c == 1.0 <==> d == b
    ensures InUnit(d) && InUnit(b) ==> InUnit(c)
  {
    1.0 - Abs(d - b)
  }

  /** Agreement does not depend on which branch reported which confidence. */
  lemma ConsistencySymmetric(d: real, b: real)
    ensures Consistency(d, b) == Consistency(b, d)
  {
  }

  /** The integrated confidence: the convex combination of the reasoning
      confidence, the behavior confidence and their consistency. All three
      inputs of the combination are unit values when the confidences are, so
      by convexity the integrated confidence is one too. */
  function Integrated(d: real, b: real): (i: real)
    ensures InUnit(d) && InUnit(b) ==> InUnit(i)
  {
    WeightsAreConvex();
    WeightedSumBounded(IntegrationWeights, [d, b, Consistency(d, b)]);
    WeightedSum(IntegrationWeights, [d, b, Consistency(d, b)])
  }

  /** The integrated confidence through the three-weight formula
      `0.4*d + 0.3*b + 0.3*consistency` of deepconf_with_behavior.py. Because
      the consistency penalty cancels the larger input's weight, it equals
      `0.7*d + 0.3` when d <= b and `0.1*d + 0.6*b + 0.3` otherwise, so on
      unit inputs it is at least 0.3. */
  lemma IntegratedIsWeightedFormula(d: real, b: real)
    ensures Integrated(d, b) == Alpha * d + Beta * b + Gamma * Consistency(d, b)
    ensures d <= b ==> Integrated(d, b) == 0.7 * d + 0.3
    ensures b <= d ==> Integrated(d, b) == 0.1 * d + 0.6 * b + 0.3
    ensures 0.0 <= d && 0.0 <= b ==> 0.3 <= Integrated(d, b)
  {
    WeightedSumOfThree(Alpha, Beta, Gamma, d, b, Consistency(d, b));
  }

  /** The integrated confidence never decreases when either branch grows
      more confident. */
  lemma IntegratedMonotone(d1: real, b1: real, d2: real, b2: real)
    requires d1 <= d2 && b1 <= b2
    ensures Integrated(d1, b1) <= Integrated(d2, b2)
  {
    IntegratedIsWeightedFormula(d1, b1);
    IntegratedIsWeightedFormula(d2, b2);
  }

  /** The recommendation score: without a recommendation quality it is the
      integrated confidence; with quality `q` it is the convex blend of the
      two, a unit value when both are. */
  function Recommendation(i: real, q: Option<real>): (r: real)
    ensures q.None? ==> r == i
    ensures q.Some? && InUnit(i) && InUnit(q.value) ==> InUnit(r)
  {
    match q
    case None => i
    case Some(quality) => WeightedSum(RecommendationWeights, [i, quality])
  }

  /** The blend `0.6*i + 0.4*q` of deepconf_with_behavior.py, which lies
      between the integrated confidence and the quality. */
  lemma RecommendationIsBlend(i: real, quality: real)
    ensures Recommendation(i, Some(quality)) == 0.6 * i + 0.4 * quality
    ensures i <= quality ==> i <= Recommendation(i, Some(quality)) <= quality
    ensures quality <= i ==> quality <= Recommendation(i, Some(quality)) <= i
  {
    WeightedSumOfTwo(0.6, 0.4, i, quality);
  }

  /** The three scores of two confidences and an optional recommendation quality. */
  function FuseScores(d: real, b: real, q: Option<real>): (s: Scores)
    ensures s.analysisConsistency == 1.0 - Abs(d - b)
    ensures s.integratedConfidence == Alpha * d + Beta * b + Gamma * s.analysisConsistency
    ensures q.None? ==> s.recommendationScore == s.integratedConfidence
    ensures q.Some? ==> s.recommendationScore == 0.6 * s.integratedConfidence + 0.4 * q.value
    ensures InUnit(d) && InUnit(b) ==> InUnit(s.analysisConsistency) && 0.3 <= s.integratedConfidence <= 1.0
    ensures InUnit(d) && InUnit(b) && (q.Some? ==> InUnit(q.value)) ==> InUnit(s.recommendationScore)
    ensures d == b ==> s.analysisConsistency == 1.0 && s.integratedConfidence == 0.7 * d + 0.3
  {
    IntegratedIsWeightedFormula(d, b);
    var i := Integrated(d, b);
    if q.Some? then
      RecommendationIsBlend(i, q.value);
      Scores(i, Consistency(d, b), Recommendation(i, q))
    else
      Scores(i, Consistency(d, b), Recommendation(i, q))
  }

  // ---------------------------------------------------------------------
  // Reading the branch results (deepconf_with_behavior.py:317-325, 342)

  /** The reasoning result's `average_confidence`, when there is a result
      and it has that attribute. */
  function ReasoningConfidenceField(reasoning: Option<ReasoningResult>): Option<Value> {
    if reasoning.Some? && AverageConfidence in reasoning.value.attrs
    then Some(reasoning.value.attrs[AverageConfidence])
    else None
  }

  /** The behavior mapping's entry under `key`, when there is a mapping that
      has the key. An empty mapping is falsy in Python, but it has no key
      either, so the truthiness test adds nothing to the membership test. */
  function BehaviorField(behavior: Option<Mapping>, key: string): Option<Value> {
    if behavior.Some? && key in behavior.value then Some(behavior.value[key]) else None
  }

  /** A field the fusion arithmetic can consume without raising: missing,
      or present and numeric. */
  predicate Readable(field: Option<Value>) {
    field.None? || AsNumber(field.value).Some?
  }

  /** A field the fusion can be trusted with: missing, or a number in [0,1]. */
  predicate InRange(field: Option<Value>) {
    field.None? || (AsNumber(field.value).Some? && InUnit(AsNumber(field.value).value))
  }

  function NumberOr(field: Option<Value>, fallback: real): real
    requires Readable(field)
  {
    if field.None? then fallback else AsNumber(field.value).value
  }

  function OptionalNumber(field: Option<Value>): Option<real>
    requires Readable(field)
  {
    if field.None? then None else AsNumber(field.value)
  }

  /** Neither the subtraction at line 331 nor the multiplication at line 345
      raises: every field the fusion reads is missing or numeric. */
  predicate Fusible(reasoning: Option<ReasoningResult>, behavior: Option<Mapping>) {
    && Readable(ReasoningConfidenceField(reasoning))
    && Readable(BehaviorField(behavior, ConfidenceScore))
    && Readable(BehaviorField(behavior, RecommendationQuality))
  }

  /** The fusion as deepconf_with_behavior.py runs it. A missing input or a
      missing field falls back (0.5 for a confidence, no blend for the
      quality), so with nothing to read it still yields full agreement, 0.65
      and 0.65; a present field that Python arithmetic rejects raises
      TypeError, and nothing else does. Fields in [0,1] give unit scores and
      an integrated confidence of at least 0.3. */
  function Fuse(reasoning: Option<ReasoningResult>, behavior: Option<Mapping>): (r: Outcome<Scores>)
    ensures r.Returned? <==> Fusible(reasoning, behavior)
    ensures && ReasoningConfidenceField(reasoning).None?
            && BehaviorField(behavior, ConfidenceScore).None?
            && BehaviorField(behavior, RecommendationQuality).None?
            ==> r == Returned(Scores(0.65, 1.0, 0.65))
    ensures InRange(ReasoningConfidenceField(reasoning)) && InRange(BehaviorField(behavior, ConfidenceScore)) ==>
      (r.Returned? ==>
         InUnit(r.value.analysisConsistency) && 0.3 <= r.value.integratedConfidence <= 1.0)
    ensures && InRange(ReasoningConfidenceField(reasoning))
            && InRange(BehaviorField(behavior, ConfidenceScore))
            && InRange(BehaviorField(behavior, RecommendationQuality))
            ==> && r.Returned?
                && InUnit(r.value.integratedConfidence) && InUnit(r.value.analysisConsistency)
                && InUnit(r.value.recommendationScore)
  {
    var dField := ReasoningConfidenceField(reasoning);
    var bField := BehaviorField(behavior, ConfidenceScore);
    var qField := BehaviorField(behavior, RecommendationQuality);
    if !Readable(dField) || !Readable(bField) then
      Raised
    else if !Readable(qField) then
      Raised
    else
      Returned(FuseScores(NumberOr(dField, Fallback), NumberOr(bField, Fallback), OptionalNumber(qField)))
  }

  /** A reasoning result with nothing but the given average confidence. */
  function Reported(confidence: real): ReasoningResult {
    ReasoningResult(map[AverageConfidence := Num(confidence)])
  }

  /** A missing reasoning confidence, whether the result is absent or lacks
      the attribute, is the same as a reported 0.5. */
  lemma MissingReasoningIsNeutral(reasoning: Option<ReasoningResult>, behavior: Option<Mapping>)
    requires ReasoningConfidenceField(reasoning).None?
    ensures Fuse(reasoning, behavior) == Fuse(Some(Reported(Fallback)), behavior)
  {
  }

  /** A missing behavior confidence, whether the mapping is absent or lacks
      the key, is the same as a reported 0.5; the recommendation quality is
      read as before. */
  lemma MissingBehaviorIsNeutral(reasoning: Option<ReasoningResult>, m: Option<Mapping>)
    requires BehaviorField(m, ConfidenceScore).None?
    ensures var reported := m.GetOr(map[])[ConfidenceScore := Num(Fallback)];
            Fuse(reasoning, m) == Fuse(reasoning, Some(reported))
  {
  }

  /** Missing inputs never raise: with both branches absent the fusion
      yields full agreement, 0.65 and 0.65. */
  lemma BothMissing()
    ensures Fuse(None, None) == Returned(Scores(0.65, 1.0, 0.65))
  {
  }

  /** The worked example: no reasoning result, behavior confidence 0.8 and
      recommendation quality 0.9 give consistency 0.7, integrated 0.65 and
      recommendation 0.75. */
  lemma WorkedExample()
    ensures Fuse(None, Some(map[ConfidenceScore := Num(0.8), RecommendationQuality := Num(0.9)]))
         == Returned(Scores(0.65, 0.7, 0.75))
  {
  }
}

/**
  What the page shows once the classifier has answered: a verdict banner chosen
  by the predicted class, then a metric with the probability of that class.
  The classifier itself is not modelled; its predicted label and its
  probability vector are parameters.
*/
module Presenter {

  datatype Verdict = AlzheimerProbable | NoAlzheimer

  /**
    Shown: the banner and the metric, the metric holding a percentage before
    it is rounded to two decimals.
    Failed: the probability vector has no entry for the verdict's class, so
    indexing it raises; the banner has already been rendered and the error
    handler then adds its message.
  */
  datatype Outcome = Shown(verdict: Verdict, percent: real) | Failed(verdict: Verdict)

  /** The class whose probability the metric reports. */
  function ClassIndex(v: Verdict): nat {
    if v == AlzheimerProbable then 1 else 0
  }

  /** Only the label 1 counts as a positive prediction; every other label is read as negative. */
  function Classify(prediction: int): (v: Verdict)
    ensures v == AlzheimerProbable <==> prediction == 1
    ensures v == NoAlzheimer <==> prediction != 1
  {
    if prediction == 1 then AlzheimerProbable else NoAlzheimer
  }

  /** The banner rendered for a verdict. */
  function Banner(v: Verdict): string {
    match v
    case AlzheimerProbable => "Predicción: Alzheimer probable"
    case NoAlzheimer => "Predicción: Sin Alzheimer (o bajo riesgo)"
  }

  /** The label of the metric that reports the verdict's probability. */
  function MetricLabel(v: Verdict): string {
    match v
    case AlzheimerProbable => "Probabilidad de Alzheimer"
    case NoAlzheimer => "Probabilidad de No Alzheimer"
  }

  /** The page after a prediction: the verdict of the predicted label and the probability of that verdict's class. */
  function Present(prediction: int, probability: seq<real>): (r: Outcome)
    ensures r.verdict == Classify(prediction)
    ensures r.Shown? <==> ClassIndex(r.verdict) < |probability|
    ensures r.Shown? ==> r.percent == probability[ClassIndex(r.verdict)] * 100.0
  {
    var v := Classify(prediction);
    var i := ClassIndex(v);
    if i < |probability| then Shown(v, probability[i] * 100.0) else Failed(v)
  }

  /** The two verdicts render different banners and different metric labels. */
  lemma VerdictsAreDistinguishable()
    ensures Banner(AlzheimerProbable) != Banner(NoAlzheimer)
    ensures MetricLabel(AlzheimerProbable) != MetricLabel(NoAlzheimer)
  {
    assert Banner(AlzheimerProbable)[12] != Banner(NoAlzheimer)[12];
    assert MetricLabel(AlzheimerProbable)[16] != MetricLabel(NoAlzheimer)[16];
  }

  /** Exactly one of the two banners is rendered, and it is the positive one exactly when the label is 1. */
  lemma ExactlyOneBanner(prediction: int, probability: seq<real>)
    ensures Banner(Present(prediction, probability).verdict) == Banner(AlzheimerProbable) <==> prediction == 1
    ensures Banner(Present(prediction, probability).verdict) == Banner(NoAlzheimer) <==> prediction != 1
  {
    VerdictsAreDistinguishable();
  }

  /**
    For a binary classifier (label 0 or 1, two probabilities) the metric always
    appears, and it reports the probability of the predicted class.
  */
  lemma ShowsPredictedClass(prediction: int, probability: seq<real>)
    requires 0 <= prediction <= 1 && |probability| == 2
    ensures Present(prediction, probability).Shown?
    ensures Present(prediction, probability).percent == probability[prediction] * 100.0
  {
  }

  /**
    A label other than 1 (say 2, or -1) reads as the negative verdict and
    reports the probability of class 0.
  */
  lemma OtherLabelsReadAsNegative(prediction: int, probability: seq<real>)
    requires prediction != 1 && |probability| > 0
    ensures Present(prediction, probability) == Shown(NoAlzheimer, probability[0] * 100.0)
  {
  }

  /** A positive prediction with a single probability cannot show its metric. */
  lemma PositiveWithoutSecondProbabilityFails(probability: seq<real>)
    requires |probability| <= 1
    ensures Present(1, probability) == Failed(AlzheimerProbable)
  {
  }
}

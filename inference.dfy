/**
  The prediction path of the application (app.py): `encode_features` applies
  the saved encoders to the seven categorical answers, and `predict_risk`
  assembles the 12-value feature row and hands it to the classifier.
 */
module Inference {
  import opened Wrappers
  import opened Scoring
  import opened LabelEncoding

  /** The loaded `encoders` dict: encoder name to fitted encoder. */
  type EncoderSet = map<string, Encoder>

  /** What the loaded classifier offers: `predict` on one row, and `predict_proba`. */
  type Classifier = seq<real> -> Risk
  type Probabilities = seq<real> -> seq<real>

  /** The keys encode_features looks up, in the order of its result. */
  const LookupKeys: seq<string> := ["gender", "stress", "activity", "illness", "history", "treatment", "work"]

  /** The respondent's answers, as predict_risk receives them. */
  datatype Assessment = Assessment(
    age: int,
    gender: string,
    depScore: int,
    anxScore: int,
    stress: string,
    sleep: real,
    activity: string,
    illness: string,
    history: string,
    treatment: string,
    treatmentDays: int,
    work: string)

  /** The categorical answers in the order encode_features takes them. */
  function CategoricalAnswers(a: Assessment): (values: seq<string>)
    ensures |values| == |LookupKeys|
  {
    [a.gender, a.stress, a.activity, a.illness, a.history, a.treatment, a.work]
  }

  /**
    One `encoders[key].transform([value])[0]`; a missing key (KeyError) and an
    unseen value (ValueError) both end in None.
   */
  function EncodeOne(encoders: EncoderSet, key: string, value: string): (code: Option<nat>)
    ensures code.Some? <==> key in encoders && value in encoders[key].classes
    ensures code.Some? ==>
      key in encoders && code.value < |encoders[key].classes| && encoders[key].classes[code.value] == value
  {
    if key in encoders then Transform(encoders[key], value) else None
  }

  /** Every key is present and every value was seen when that key's encoder was fitted. */
  predicate EncodableUnder(encoders: EncoderSet, keys: seq<string>, values: seq<string>)
    requires |values| == |keys|
  {
    forall k :: 0 <= k < |keys| ==> keys[k] in encoders && values[k] in encoders[keys[k]].classes
  }

  /** The seven categorical answers can all be encoded. */
  predicate Encodable(encoders: EncoderSet, values: seq<string>)
    requires |values| == |LookupKeys|
  {
    EncodableUnder(encoders, LookupKeys, values)
  }

  /**
    The lookups of encode_features, one key after the other: the codes of all
    values, or None at the first key that is missing or value that is unseen.
   */
  function EncodeAll(encoders: EncoderSet, keys: seq<string>, values: seq<string>): (codes: Option<seq<nat>>)
    requires |values| == |keys|
    ensures codes.Some? <==> EncodableUnder(encoders, keys, values)
    ensures codes.Some? ==>
      && |codes.value| == |keys|
      && forall k :: 0 <= k < |keys| ==> Transform(encoders[keys[k]], values[k]) == Some(codes.value[k])
  {
    if |keys| == 0 then Some([])
    else
      var code :- EncodeOne(encoders, keys[0], values[0]);
      var rest :- EncodeAll(encoders, keys[1..], values[1..]);
      assert forall k :: 1 <= k < |keys| ==> keys[1..][k - 1] == keys[k] && values[1..][k - 1] == values[k];
      Some([code] + rest)
  }

  /**
    encode_features: seven codes in the order gender, stress, activity,
    illness, history, treatment, work, each the answer's index in that
    encoder's classes; None as soon as one of them cannot be encoded.
   */
  function EncodeFeatures(gender: string, stress: string, activity: string, illness: string,
                          history: string, treatment: string, work: string,
                          encoders: EncoderSet): (codes: Option<seq<nat>>)
    ensures var values := [gender, stress, activity, illness, history, treatment, work];
      && (codes.Some? <==> Encodable(encoders, values))
      && (codes.Some? ==>
            && |codes.value| == |LookupKeys|
            && forall k :: 0 <= k < |LookupKeys| ==> Transform(encoders[LookupKeys[k]], values[k]) == Some(codes.value[k]))
  {
    EncodeAll(encoders, LookupKeys, [gender, stress, activity, illness, history, treatment, work])
  }

  /** encode_features returns exactly the codes the seven single transforms give. */
  lemma EncodeFeaturesByTransforms(a: Assessment, encoders: EncoderSet, expected: seq<nat>)
    requires |expected| == |LookupKeys|
    requires forall k :: 0 <= k < |LookupKeys| ==>
      LookupKeys[k] in encoders && Transform(encoders[LookupKeys[k]], CategoricalAnswers(a)[k]) == Some(expected[k])
    ensures EncodeFeatures(a.gender, a.stress, a.activity, a.illness, a.history, a.treatment, a.work, encoders)
              == Some(expected)
  {
    var values := CategoricalAnswers(a);
    assert Encodable(encoders, values);
    var codes := EncodeFeatures(a.gender, a.stress, a.activity, a.illness, a.history, a.treatment, a.work, encoders);
    assert codes.value == expected;
  }

  /** Each code encode_features returns decodes, through the same encoder, to the answer it came from. */
  lemma EncodeFeaturesDecodes(values: seq<string>, encoders: EncoderSet, k: nat)
    requires |values| == |LookupKeys| && k < |LookupKeys|
    requires EncodeFeatures(values[0], values[1], values[2], values[3], values[4], values[5], values[6], encoders).Some?
    ensures var codes := EncodeFeatures(values[0], values[1], values[2], values[3], values[4], values[5], values[6],
                                        encoders).value;
      InverseTransform(encoders[LookupKeys[k]], codes[k]) == Some(values[k])
  {
    assert values == [values[0], values[1], values[2], values[3], values[4], values[5], values[6]];
  }

  /** The single row `features` of predict_risk, as a float array holds it. */
  function FeatureRow(a: Assessment, codes: seq<nat>): (row: seq<real>)
    requires |codes| == |LookupKeys|
    ensures |row| == 12
  {
    [ a.age as real,
      codes[0] as real,
      a.depScore as real,
      a.anxScore as real,
      codes[1] as real,
      a.sleep,
      codes[2] as real,
      codes[3] as real,
      codes[4] as real,
      codes[5] as real,
      a.treatmentDays as real,
      codes[6] as real ]
  }

  /**
    predict_risk: None when encoding fails, and otherwise the classifier's
    label and probabilities for the assembled row. The loaded feature-column
    list is passed in by the caller but never read.
   */
  function PredictRisk(a: Assessment, model: Classifier, proba: Probabilities, encoders: EncoderSet,
                       featureCols: seq<string>): (r: Option<(Risk, seq<real>)>)
    ensures r.Some? <==> Encodable(encoders, CategoricalAnswers(a))
    ensures r.Some? ==>
      var codes := EncodeFeatures(a.gender, a.stress, a.activity, a.illness, a.history, a.treatment,
                                  a.work, encoders).value;
      r.value == (model(FeatureRow(a, codes)), proba(FeatureRow(a, codes)))
  {
    var codes :- EncodeFeatures(a.gender, a.stress, a.activity, a.illness, a.history, a.treatment,
                                a.work, encoders);
    var row := FeatureRow(a, codes);
    Some((model(row), proba(row)))
  }

  /** An answer outside an encoder's fitted values yields no tier at all. */
  lemma UnknownCategoryYieldsNoTier(a: Assessment, model: Classifier, proba: Probabilities,
                                    encoders: EncoderSet, featureCols: seq<string>, k: nat)
    requires k < |LookupKeys| && LookupKeys[k] in encoders
    requires CategoricalAnswers(a)[k] !in encoders[LookupKeys[k]].classes
    ensures PredictRisk(a, model, proba, encoders, featureCols).None?
  {
  }

  /** The unused feature-column argument has no influence on the prediction. */
  lemma FeatureColsIgnored(a: Assessment, model: Classifier, proba: Probabilities, encoders: EncoderSet,
                           cols1: seq<string>, cols2: seq<string>)
    ensures PredictRisk(a, model, proba, encoders, cols1) == PredictRisk(a, model, proba, encoders, cols2)
  {
  }
}

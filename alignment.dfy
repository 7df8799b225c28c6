/**
  How the two halves of the system fit together: the encoders that the
  training script saves (02_model_training.py, lines 167-177) are the ones
  the application loads and applies in encode_features (app.py, lines
  393-407), and the row that predict_risk assembles (app.py, lines 422-435)
  lists the columns in the order of the training script's feature_cols
  (lines 82-95). So a training row's values, passed to predict_risk,
  reach the classifier as exactly the row of X it was trained on.
 */
module Alignment {
  import opened Wrappers
  import opened LabelEncoding
  import Inference
  import Training
  import Scoring

  /** The answers of a complete training row, as predict_risk receives them. */
  function AssessmentOf(r: Training.Record): (a: Inference.Assessment)
    requires Training.Complete(r)
    ensures a.depScore == r.depressionScore && a.anxScore == r.anxietyScore
  {
    Inference.Assessment(
      r.age, r.gender, r.depressionScore, r.anxietyScore, r.stressLevel, r.sleepHours.value,
      r.physicalActivity.value, r.chronicIllness, r.mentalHealthHistory, r.treatment.value,
      r.daysOfTreatment, r.workStatus)
  }

  /** The saved dict has the keys encode_features looks up, in the same order. */
  lemma SavedKeysAreLookupKeys()
    ensures Training.SavedKeys == Inference.LookupKeys
  {
  }

  /**
    Answer k of a training row, in encode_features' order, is that row's
    value in categorical column k, in the order of the encoders' fitting.
   */
  lemma AnswerIsColumnValue(r: Training.Record, k: nat)
    requires Training.Complete(r) && k < |Training.CategoricalColumns|
    ensures Inference.CategoricalAnswers(AssessmentOf(r))[k] == Training.Text(r, Training.CategoricalColumns[k])
  {
  }

  /**
    Answer k of training row i, encoded by the saved encoder under key k,
    gives the code the script stored for that row in the k-th `*_Encoded`
    column.
   */
  lemma AnswerEncodes(records: seq<Training.Record>, i: nat, k: nat)
    requires Training.AllComplete(records) && i < |records| && k < |Training.CategoricalColumns|
    ensures var encoders := Training.EncoderDict(Training.FitAll(records));
      var encoded := Training.EncodedColumns(records);
      var column := Training.Encoded(Training.CategoricalColumns[k]);
      && Inference.LookupKeys[k] in encoders
      && column in encoded && i < |encoded[column]|
      && Transform(encoders[Inference.LookupKeys[k]], Inference.CategoricalAnswers(AssessmentOf(records[i]))[k])
           == Some(encoded[column][i])
  {
    SavedKeysAreLookupKeys();
    Training.EncodedColumnsAreCodes(records, k, i);
    AnswerIsColumnValue(records[i], k);
  }

  /**
    The application's encoding of a training row's answers, with the encoders
    the script saved, succeeds and gives the codes the script put into the
    `*_Encoded` columns for that row.
   */
  lemma TrainingAnswersEncode(records: seq<Training.Record>, i: nat)
    requires Training.AllComplete(records) && i < |records|
    ensures var a := AssessmentOf(records[i]);
      Inference.EncodeFeatures(a.gender, a.stress, a.activity, a.illness, a.history, a.treatment, a.work,
                               Training.EncoderDict(Training.FitAll(records)))
        == Some(Training.EncodedRow(records, i))
  {
    var a := AssessmentOf(records[i]);
    var encoders := Training.EncoderDict(Training.FitAll(records));
    var row := Training.EncodedRow(records, i);
    forall k | 0 <= k < |Inference.LookupKeys|
      ensures Inference.LookupKeys[k] in encoders
      ensures Transform(encoders[Inference.LookupKeys[k]], Inference.CategoricalAnswers(a)[k]) == Some(row[k])
    {
      AnswerEncodes(records, i, k);
    }
    Inference.EncodeFeaturesByTransforms(a, encoders, row);
  }

  /**
    The row predict_risk builds from a training row's answers, with the saved
    encoders, is row i of X = df[feature_cols].
   */
  lemma TrainingRowIsInferenceRow(records: seq<Training.Record>, i: nat)
    requires Training.AllComplete(records) && i < |records|
    ensures Training.FeatureMatrix(records, Training.EncodedColumns(records)).Some?
    ensures var a := AssessmentOf(records[i]);
      var encoders := Training.EncoderDict(Training.FitAll(records));
      var codes := Inference.EncodeFeatures(a.gender, a.stress, a.activity, a.illness, a.history,
                                            a.treatment, a.work, encoders);
      && codes.Some?
      && Inference.FeatureRow(a, codes.value)
           == Training.FeatureMatrix(records, Training.EncodedColumns(records)).value[i]
  {
    TrainingAnswersEncode(records, i);
    Training.FeatureMatrixAfterEncoding(records);
    RowIsInferenceRow(records, i, Training.EncodedColumns(records), Training.EncodedRow(records, i));
  }

  /** Helper for TrainingRowIsInferenceRow: the whole row, entry by entry. */
  lemma RowIsInferenceRow(records: seq<Training.Record>, i: nat, encoded: map<Training.Column, seq<nat>>,
                          codes: seq<nat>)
    requires Training.AllComplete(records) && i < |records|
    requires |codes| == |Training.CategoricalColumns|
    requires forall k :: 0 <= k < |Training.CategoricalColumns| ==>
      && Training.Encoded(Training.CategoricalColumns[k]) in encoded
      && i < |encoded[Training.Encoded(Training.CategoricalColumns[k])]|
      && codes[k] == encoded[Training.Encoded(Training.CategoricalColumns[k])][i]
    requires Training.FeatureMatrix(records, encoded).Some?
    ensures Training.FeatureMatrix(records, encoded).value[i] == Inference.FeatureRow(AssessmentOf(records[i]), codes)
  {
    var row := Training.FeatureMatrix(records, encoded).value[i];
    var expected := Inference.FeatureRow(AssessmentOf(records[i]), codes);
    forall j | 0 <= j < 12 ensures |row| == 12 && row[j] == expected[j] {
      RowEntry(records, i, encoded, codes, j);
    }
    RowEntry(records, i, encoded, codes, 0);
  }

  /**
    Helper for TrainingRowIsInferenceRow: entry j of X's row i equals entry j
    of the application's row, once the codes agree with the encoded columns.
   */
  lemma RowEntry(records: seq<Training.Record>, i: nat, encoded: map<Training.Column, seq<nat>>,
                 codes: seq<nat>, j: nat)
    requires Training.AllComplete(records) && i < |records| && j < 12
    requires |codes| == |Training.CategoricalColumns|
    requires forall k :: 0 <= k < |Training.CategoricalColumns| ==>
      && Training.Encoded(Training.CategoricalColumns[k]) in encoded
      && i < |encoded[Training.Encoded(Training.CategoricalColumns[k])]|
      && codes[k] == encoded[Training.Encoded(Training.CategoricalColumns[k])][i]
    requires Training.FeatureMatrix(records, encoded).Some?
    ensures |Training.FeatureMatrix(records, encoded).value[i]| == 12
    ensures Training.FeatureMatrix(records, encoded).value[i][j]
              == Inference.FeatureRow(AssessmentOf(records[i]), codes)[j]
  {
  }

  /**
    End to end: with the model and encoders that training produced, the
    application's prediction for the answers of training row i is the
    classifier's output on row i of X, and the label that row was trained
    against is the risk tier of its own two scores.
   */
  lemma PredictionOnTrainingRow(raw: seq<Training.Record>, sleepFill: real, model: Inference.Classifier,
                                proba: Inference.Probabilities, featureCols: seq<string>, i: nat)
    requires Training.Prepared(raw, sleepFill).Some? && i < |raw|
    ensures var data := Training.Prepared(raw, sleepFill).value;
      var records := Training.Impute(raw, sleepFill).value;
      && i < |data.x| && i < |data.yRisk|
      && Inference.PredictRisk(AssessmentOf(records[i]), model, proba, data.encoders, featureCols)
           == Some((model(data.x[i]), proba(data.x[i])))
      && data.yRisk[i] == Scoring.RiskLevel(records[i].depressionScore, records[i].anxietyScore)
  {
    var records := Training.Impute(raw, sleepFill).value;
    TrainingRowIsInferenceRow(records, i);
    var a := AssessmentOf(records[i]);
    assert Inference.CategoricalAnswers(a) == [a.gender, a.stress, a.activity, a.illness, a.history, a.treatment, a.work];
  }
}

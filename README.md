# MindScope-2025 risk pipeline in Dafny

MindScope-2025 is a self-assessment tool. Its application (`app.py`) scores a
PHQ-9 depression questionnaire and a GAD-7 anxiety questionnaire, bands both
totals into severity levels, encodes the respondent's categorical answers with
saved label encoders, assembles a 12-value feature row and asks a pre-trained
classifier for a Low/Moderate/High risk tier. Its training script
(`02_model_training.py`) derives the training labels from the same banding and
risk rule, imputes missing values, fits the seven label encoders, selects the
twelve feature columns, evaluates three classifier families by accuracy and
keeps the best.

The model:

- `scoring.dfy` (module `Scoring`): the PHQ-9 and GAD-7 banding functions and
  their threshold tables, and the risk rule on the mean of both totals. The
  banding follows Kroenke, Spitzer & Williams (2001) for PHQ-9 and Spitzer et
  al. (2006) for GAD-7.
- `questionnaire.dfy` (module `Questionnaire`): the response loops of the
  assessment page and their sums.
- `strings.dfy` (module `Strings`): Python's ordering of `str` values, which
  fixes both the encoders' class order and the tie-break of `Series.mode`.
- `label_encoding.dfy` (module `LabelEncoding`): scikit-learn's
  `LabelEncoder`, with an encoder modelled as its `classes` sequence.
- `inference.dfy` (module `Inference`): `encode_features` and `predict_risk`.
  The classifier is an uninterpreted function from a feature row to a tier.
- `training.dfy` (module `Training`): the training script.
  - The data frame is a `Frame` class whose fields the script's steps update
    in place.
  - Imputation is modelled, with `mode()[0]` and its tie-break.
  - The encoders are fitted, and the `*_Encoded` columns are added.
  - `feature_cols` and `df[feature_cols]` are modelled.
  - Accuracy and the training loop are modelled.
  - The best model is selected with `max` over an insertion-ordered dict.
  - The saved `encoders` dict is modelled.
- `alignment.dfy` (module `Alignment`): the contract between the two halves.
  Take a training row, pass its values to `predict_risk` and encode them with
  the saved encoders. The row that reaches the classifier is exactly row i of
  the training matrix `X`, and the row's training label is the risk tier of
  its own scores.

Python's exceptions become `None` (an `Option`) wherever the source raises or
catches:

- an unseen category (`ValueError`) or a missing encoder key (`KeyError`) in
  `encode_features`;
- `mode()[0]` on an activity column with no value at all;
- a feature column missing from the frame.

Labels are datatypes (`Severity`, `Risk`). `Name()` gives the source's
strings, and `NamesDistinct` shows the mapping is one to one.

Two behaviours of the code are modelled as written:

- The scoring functions have no range check. A negative total is `Minimal`,
  and any total above the top band is `Severe`. `Scoring.DepressionLevel` and
  `Scoring.AnxietyLevel` are total on `int` and state those cases.
- `encode_features` and `predict_risk` catch every exception, report it on the
  page and return `None`. The model returns `None`.

## Model

| member | source | states |
|---|---|---|
| Scoring.DepressionLevel | app.py:349-360 | On 0..27 the level is the PHQ9_THRESHOLDS band holding the score. A negative score is Minimal and a score above 27 is Severe. |
| Scoring.AnxietyLevel | app.py:365-374 | On 0..21 the level is the GAD7_THRESHOLDS band holding the score. A negative score is Minimal and a score above 21 is Severe. The result is never Moderately Severe. |
| Scoring.RiskLevel | app.py:379-387 | The mean by true division compared with 5 and 12 means: Low iff dep+anx < 10, Moderate iff 10 <= dep+anx < 24, High iff dep+anx >= 24. |
| Scoring.Phq9TableIsPartition | app.py:302-308 | The PHQ-9 bands are pairwise disjoint and cover 0..27. For a score in range, a key's band holds it iff that key is the function's level. |
| Scoring.Gad7TableIsPartition | app.py:310-315 | The GAD-7 bands are pairwise disjoint and cover 0..21. For a score in range, a key's band holds it iff that key is the function's level. |
| Scoring.DepressionLevelMonotone | app.py:349-360 | A higher PHQ-9 total never gives a lower severity rank. |
| Scoring.AnxietyLevelMonotone | app.py:365-374 | A higher GAD-7 total never gives a lower severity rank. |
| Scoring.RiskLevelSymmetric | app.py:379-387 | Swapping the two totals gives the same tier. |
| Scoring.RiskLevelMonotone | app.py:379-387 | Raising either total never lowers the tier. |
| Scoring.NamesDistinct | app.py:349-387 | Distinct severities and distinct tiers have distinct label strings, so the datatypes stand for the returned strings one to one. |
| Scoring.WorkedExamples | app.py:349-387 | Totals (2,1) give Minimal, Minimal, Low. Totals (12,10) give Moderate, Moderate, Moderate, since the mean 11 is below 12. Totals (22,18) give Severe, Severe, High. |
| Questionnaire.SumBounds | app.py:701 | A sum of answers in 0..3 lies between 0 and three times the number of answers. |
| Questionnaire.Administer | app.py:687-701 | The loop appends one answer per question, in question order. The total is their sum and lies in 0..3n. |
| Questionnaire.ScorePhq9 | app.py:687-702 | The PHQ-9 total is the sum of the nine answers, lies in 0..27, and is shown with DepressionLevel of it. |
| Questionnaire.ScoreGad7 | app.py:715-730 | The GAD-7 total is the sum of the seven answers, lies in 0..21, and is shown with AnxietyLevel of it. |
| Strings.LessIrreflexive | 02_model_training.py:65-79 | No string sorts before itself. |
| Strings.LessTransitive | 02_model_training.py:65-79 | The string order used to sort classes is transitive. |
| Strings.LessTotal | 02_model_training.py:65-79 | Any two distinct strings are ordered one way or the other. |
| Strings.LessAsymmetric | 02_model_training.py:65-79 | Two strings never sort before each other. |
| Strings.StrictlySortedDistinct | 02_model_training.py:65-79 | A strictly sorted class list holds each value at one position only. |
| LabelEncoding.Insert | 02_model_training.py:73-79 | Adding a value to strictly sorted classes keeps them strictly sorted and holds exactly the old values plus the new one. |
| LabelEncoding.Fit | 02_model_training.py:73-79 | The fitted classes are strictly sorted and hold exactly the column's values. |
| LabelEncoding.SortedDistinctIsUnique | 02_model_training.py:73-79 | Any strictly sorted sequence holding exactly the column's values equals the fitted classes, so they are THE sorted distinct values. |
| LabelEncoding.IndexOf | 02_model_training.py:73-79 | A position is found iff the value occurs, and the sequence holds the value at that position. |
| LabelEncoding.Transform | app.py:396-402 | transform succeeds iff the value is among the classes. The code is an index below the number of classes, and the class at that index is the value. |
| LabelEncoding.InverseTransform | 02_model_training.py:73-79 | The library decode of a fitted encoder, used to state the round trips of these codes: decoding succeeds exactly for codes below the number of classes and returns classes[code]. |
| LabelEncoding.FitTransform | 02_model_training.py:73-79 | fit_transform returns the fitted encoder and one code per row. Each row's code is the transform of its value. |
| LabelEncoding.DecodeEncode | 02_model_training.py:73-79 | Encoding a known value and decoding the code gives the value back. |
| LabelEncoding.EncodeDecode | 02_model_training.py:73-79 | On a fitted encoder, encoding the class at a code gives that code back. |
| LabelEncoding.FitTransformCodes | 02_model_training.py:73-79 | Every row's code is below the number of classes, and classes[code] is the row's value. |
| LabelEncoding.FitTransformInjective | 02_model_training.py:73-79 | Two rows get equal codes iff they hold equal values. |
| LabelEncoding.FitTransformOrdered | 02_model_training.py:73-79 | Codes follow string order: code(i) < code(j) iff value(i) < value(j). |
| LabelEncoding.FitCoversColumn | 02_model_training.py:73-79 | Every value of the fitted column can be transformed. |
| LabelEncoding.GenderExample | 02_model_training.py:73 | Fitting Male, Female, Prefer not to say, Other, Female gives classes Female, Male, Other, Prefer not to say, and "Prefer not to say" encodes as 3. |
| Inference.CategoricalAnswers | app.py:418 | The categorical answers handed to encode_features are seven, one per encoder key. |
| Inference.EncodeOne | app.py:396-402 | One `encoders[key].transform([value])[0]` succeeds iff the key is present and the value was seen at fit time, and the code indexes that value in the classes. |
| Inference.EncodeAll | app.py:395-407 | The key-by-key lookups succeed iff every key is present and every value was seen at fit time. On success there is one code per key, each the transform of its value. |
| Inference.EncodeFeatures | app.py:393-407 | The result is None iff some answer is not in its encoder's classes or a key is missing. Otherwise it holds seven codes, in the order gender, stress, activity, illness, history, treatment, work, each the transform of its answer. |
| Inference.EncodeFeaturesByTransforms | app.py:396-404 | When each of the seven single transforms gives a code, encode_features returns exactly those codes in that order. |
| Inference.EncodeFeaturesDecodes | app.py:396-404 | Each returned code decodes, through the same encoder, to the answer it came from. |
| Inference.FeatureRow | app.py:422-435 | The assembled row has twelve entries. |
| Inference.PredictRisk | app.py:414-443 | The result is None iff encoding fails. Otherwise it is the classifier's label and probabilities for the row of age, gender code, both scores, stress code, sleep, activity, illness, history and treatment codes, treatment days and work code. |
| Inference.UnknownCategoryYieldsNoTier | app.py:418-420 | An answer outside its encoder's classes yields no tier at all. |
| Inference.FeatureColsIgnored | app.py:414-415 | The loaded feature-column list passed to predict_risk does not influence the prediction. |
| Training.DepressionLevel | 02_model_training.py:21-31 | The training copy agrees with the application's get_depression_level on every integer. |
| Training.AnxietyLevel | 02_model_training.py:33-41 | The training copy agrees with the application's get_anxiety_level on every integer. |
| Training.RiskLevel | 02_model_training.py:48-55 | The training copy agrees with the application's get_risk_level on every pair of integers. |
| Training.FillSleep | 02_model_training.py:60 | Missing sleep hours become the fill value, present ones stay, and nothing else in any row changes. |
| Training.FillSleepWithMedian | 02_model_training.py:60 | Filling with the column median: when some row records sleep, every missing value becomes the median. When no row does, the median is NaN and every entry stays missing. Present values and all other columns are unchanged. |
| Training.FillActivity | 02_model_training.py:61 | Missing activities become the fill value, present ones stay, and nothing else in any row changes. |
| Training.FillTreatment | 02_model_training.py:62 | A missing treatment becomes "None", a present one stays, and nothing else in any row changes. |
| Training.PresentActivities | 02_model_training.py:61 | The present activity values are exactly the non-missing ones, each occurring as many times as rows hold it, which is what mode() counts. The list is empty iff no row records an activity. |
| Training.PresentActivitiesOnlyReadActivity | 02_model_training.py:61 | Filling the sleep column first does not change which activities the mode is taken over. |
| Training.BeforeTransitive | 02_model_training.py:61 | The order of Series.mode (more frequent first, then string order) is transitive. |
| Training.Earliest | 02_model_training.py:61 | The chosen candidate is one of them, and no candidate comes before it in mode order. |
| Training.Mode | 02_model_training.py:61 | mode()[0] is a value of the column with the highest count. Among equally frequent values it is the least in string order. |
| Training.Impute | 02_model_training.py:60-62 | None iff no row records an activity, where mode()[0] raises. Otherwise the row count is unchanged, every row has an activity and a treatment, and every row is complete iff some row records sleep. Present values stay. A missing sleep value becomes the median (and stays missing when the whole column is, the median being NaN), a missing activity the mode, and a missing treatment "None". No other column changes. |
| Training.TextColumn | 02_model_training.py:73-79 | df[c] has one entry per row, that row's text in column c. |
| Training.FitAll | 02_model_training.py:65-79 | Seven encoders, the k-th fitted on the k-th categorical column. |
| Training.AllCodes | 02_model_training.py:73-79 | Seven code columns, the k-th the fit_transform codes of the k-th categorical column. |
| Training.AddEncoded | 02_model_training.py:73-79 | After the assignments each of the seven `*_Encoded` columns holds its column's codes. |
| Training.AddEncodedKeepsOthers | 02_model_training.py:73-79 | Adding the encoded columns leaves every other column of the frame unchanged. |
| Training.AddEncodedAddsOnlyEncoded | 02_model_training.py:73-79 | Adding the encoded columns adds no column except the seven `*_Encoded` ones. |
| Training.EncodedColumnsAreCodes | 02_model_training.py:73-79 | The k-th encoded column has one code per row. Each code is the k-th saved encoder's transform of that row's value. |
| Training.EncodedRow | 02_model_training.py:73-79 | Row i of the encoded columns, in column order, is the entry of row i of each `*_Encoded` column. |
| Training.FeatureColsShape | 02_model_training.py:82-95 | feature_cols has twelve distinct columns: the five numeric CSV columns and exactly the seven `*_Encoded` columns added at lines 73-79. |
| Training.FeatureColsNames | 02_model_training.py:82-95 | The twelve modelled columns carry, in order, the header strings of feature_cols. |
| Training.FeatureColNamesDistinct | 02_model_training.py:82-95 | The twelve header strings of feature_cols are distinct. |
| Training.Select | 02_model_training.py:97 | Selecting columns from a row succeeds iff every column resolves. The result then holds the cells in column order. |
| Training.FeatureMatrix | 02_model_training.py:97 | X = df[feature_cols] exists iff every row resolves every feature column. Then it has one row per record, each the row's selected cells. |
| Training.FeatureMatrixAfterEncoding | 02_model_training.py:73-97 | Once the seven encoded columns exist, df[feature_cols] succeeds on the imputed rows. |
| Training.FeatureMatrixResolves | 02_model_training.py:97 | df[feature_cols] succeeds on complete rows once every encoded column has one code per row. |
| Training.CellResolves | 02_model_training.py:97 | Every feature column of a complete row has a value once the encoded columns reach that row. |
| Training.Frame.constructor | 02_model_training.py:18 | The frame holds the raw rows and no derived columns. |
| Training.Frame.DeriveLabels | 02_model_training.py:44-57 | Each of the three label columns has one entry per row, computed from that row's own scores. Rows and encoded columns are unchanged. |
| Training.Frame.FillMissing | 02_model_training.py:60-62 | On success the rows are the imputed rows. When mode()[0] raises, only the sleep fill of line 60 has taken effect. The label and encoded columns are unchanged. |
| Training.Frame.EncodeCategoricals | 02_model_training.py:65-79 | The returned encoders are those fitted on the seven columns. The frame gains the seven code columns, and its rows and labels are unchanged. |
| Training.EncoderDict | 02_model_training.py:167-175 | The saved dict has exactly the seven keys gender ... work, each mapped to the encoder of its column. |
| Training.RiskLabels | 02_model_training.py:57 | y_risk has one label per row: that row's risk tier. |
| Training.Prepared | 02_model_training.py:18-100 | None iff no row records an activity (mode()[0] raises) or no row records sleep (X gets a NaN column, which the first model.fit at line 123 rejects). Otherwise X is df[feature_cols] over the imputed and encoded rows, y_risk is the risk tier of each raw row, and the encoders are the dict of the seven fitted encoders. |
| Training.PrepareTrainingData | 02_model_training.py:18-100 | The frame-based steps compute exactly Prepared. |
| Training.Matches | 02_model_training.py:131-132 | The count is the number of positions where the prediction equals the true label (the size of the set of agreeing indices). It is at most the length, equals the length iff the labels are equal, and is 0 iff no position agrees. |
| Training.Accuracy | 02_model_training.py:131-132 | accuracy_score is the number of agreeing positions divided by the length: accuracy times length equals that number. It lies in [0, 1], is 1 iff every prediction is right and 0 iff none is. |
| Training.FractionBounds | 02_model_training.py:131-132 | m/n with 0 <= m <= n lies in [0, 1], and reaches 1 iff m = n and 0 iff m = 0. |
| Training.Predict | 02_model_training.py:127-128 | model.predict gives one label per row, the model's label for that row. |
| Training.TrainModels | 02_model_training.py:116-149 | Each model is trained in insertion order. results[i] holds its name with its train and test accuracy, and trained_models maps exactly the names to the fitted models. |
| Training.FirstBestUnique | 02_model_training.py:152 | At most one entry is the first one with the highest test accuracy, so the choice is determined. |
| Training.SelectBest | 02_model_training.py:152 | The selected entry has a test accuracy at least that of every entry, and strictly above every earlier entry. |
| Training.TrainAndSelect | 02_model_training.py:110-153 | The results cover Logistic Regression, Decision Tree and Random Forest in that order. The best name and model are those of the first entry with the highest test accuracy. |
| Alignment.AssessmentOf | app.py:414-415 | A complete training row, read as predict_risk's arguments, keeps both scores. |
| Alignment.SavedKeysAreLookupKeys | 02_model_training.py:167-175 | The saved dict's keys are exactly the keys encode_features looks up, in the same order. |
| Alignment.AnswerIsColumnValue | app.py:418 | Answer k of a training row is that row's value in the k-th categorical column. |
| Alignment.AnswerEncodes | app.py:396-402 | Answer k of training row i, encoded with saved encoder k, is the code the script stored for that row in the k-th `*_Encoded` column. |
| Alignment.TrainingAnswersEncode | app.py:393-407 | encode_features on a training row's answers, with the saved encoders, succeeds and returns that row's seven stored codes. |
| Alignment.TrainingRowIsInferenceRow | app.py:422-435 | The row predict_risk builds from a training row's answers is position for position row i of X = df[feature_cols]. |
| Alignment.RowIsInferenceRow | app.py:422-435 | Given codes that agree with the encoded columns, the application's row equals X's row i. |
| Alignment.RowEntry | app.py:422-435 | Entry j of X's row i equals entry j of the application's row. |
| Alignment.PredictionOnTrainingRow | app.py:414-443 | For the prepared training data, predict_risk on the answers of training row i returns the classifier's output on row i of X. That row's training label is the risk tier of its own two scores. |

## Left out

- The Streamlit user interface is left out: page setup, styling, navigation,
  session state, widgets and `st.error` messages. It is presentation only.
  The radio answers enter the model as a function from question index to
  answer.
- `SOLUTIONS_DB`, `display_solutions`, `display_assessment_results` and the
  plotly gauges are left out. They are static text and visualisation.
- Reading the CSV and the `joblib` load and dump of models, encoders and
  feature columns are left out. They are file I/O. The saved artefacts are
  passed as values.
- Fitting and prediction of LogisticRegression, DecisionTreeClassifier and
  RandomForestClassifier, and `predict_proba`, are left out. They are library
  numerics. A fitted classifier is an uninterpreted function, and fitting is a
  parameter from family and training data to classifier.
- `train_test_split` is left out. It is a stratified random split. The train
  and test partitions are parameters.
- Weighted precision, recall and F1 are left out. They are floating-point
  library metrics, and the selection does not use them.
- The median of `Sleep_Hours` is not computed. It is a floating-point median
  and is taken as the parameter `sleepFill`. Only its NaN case is modelled: when
  no row records sleep, the fill takes no effect.
- Training.Prepared: when no row records sleep, the script still builds
  `X = df[feature_cols]`, with a NaN column, and fails only at the first
  `model.fit` (line 123). The model gives None at that point, because X is a
  matrix of reals and cannot hold NaN.
- Floating-point arithmetic is modelled as exact reals. This covers the risk
  mean, accuracies and sleep hours. No rounding is modelled.
- `y_depression` and `y_anxiety` are derived (line 98-99) and modelled by
  `Training.Frame.DeriveLabels`, but nothing trains on them, so no later step
  uses them.
- Questionnaire.Sum: it states no contract of its own. It is Python's `sum`,
  and `Questionnaire.SumBounds` and `Questionnaire.Administer` state its range
  and what it sums.
- Strings.Less: it states no contract of its own. It is Python's `str <`,
  whose properties are the lemmas `Strings.LessIrreflexive`,
  `Strings.LessTransitive`, `Strings.LessTotal` and `Strings.LessAsymmetric`.
- Training.Text: it states no contract of its own. It reads one categorical
  cell, and `Training.TextColumn` and `Alignment.AnswerIsColumnValue` state
  what it gives.
- Training.EncodedColumns: it states no contract of its own. It adds the seven
  code columns to an empty frame, and `Training.EncodedColumnsAreCodes`,
  `Training.EncodedRow` and `Training.AddEncoded` state what it holds.
- Training.Cell: it states no contract of its own. It reads one cell of
  `df[feature_cols]`, and `Training.Select`, `Training.CellResolves` and
  `Alignment.RowEntry` state what it gives. For a text column or a missing
  sleep value it gives None, where pandas would put the text or NaN into X.
  Neither case reaches X. feature_cols names no text column, and imputation
  fills every sleep value whenever the column holds at least one.
  `Training.Prepared` is None otherwise.
- Training.Record: every column except sleep hours, physical activity and
  treatment is assumed present in the CSV. Missing values elsewhere are not
  modelled.
- Training.Frame.FillMissing: `df[col].fillna(..., inplace=True)` is modelled
  as writing back into the frame. That is pandas' behaviour before
  copy-on-write became the default in pandas 3.0. Under copy-on-write the
  three lines would leave `df` unchanged.
- Training.Agreeing: it states no contract of its own. It is the set of
  positions where prediction and label agree, the reference definition that
  the contracts of `Training.Matches` and `Training.Accuracy` count.
- Training.Frame.Features: it states no contract of its own. It reads X off
  the frame, and `Training.FeatureMatrix` carries the contract.
- Training.Evaluate: it has no contract of its own. It groups two
  `Training.Accuracy` values, whose contract is stated there.
- Training.TrainModels: it requires distinct model names, as dict keys are.
  With a repeated name, Python would overwrite the earlier entry.
- Inference.PredictRisk: the probability vector is passed through unchanged.
  Its class order and the fact that it sums to 1 are properties of the
  classifier, which is not modelled.
- The exception handlers in `encode_features` and `predict_risk` catch any
  exception. The model produces `None` only for the failures the code can
  actually meet: a missing key and an unseen category.

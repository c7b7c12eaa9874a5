# Credit-risk scoring service — Dafny model

This project models the scoring core of a credit-risk service. The service receives one applicant's
loan request and builds a one-row feature frame from it. That frame has a guarded loan-to-income ratio,
one-hot indicators for residence type, loan purpose and loan type, and eleven placeholder columns fixed
at 1. The service rescales a designated subset of columns with a fitted scaler and reorders the frame
into the model's feature list. It then takes the dot product with the fitted logistic-regression
coefficients plus the intercept. The default probability becomes a credit score through
`300 + (1 - p) * 600`. The score is truncated to an integer and given a rating of Poor, Average,
Good, Excellent or Undefined.

Modules:

- `Wrappers` (`wrappers.dfy`): the `Result` type that carries the exceptions the pipeline raises.
- `Schema` (`schema.dfy`): the request record, the one-row frame (`map<string, real>`), the column
  names, and the error type. The errors are a pandas `KeyError` listing the absent column names and
  numpy's shape mismatch.
- `Features` (`features.dfy`): `prepare_input`. This covers the raw frame, the one-hot encodings, the
  column-wise scaler assignment and the projection onto the feature list.
- `Scoring` (`scoring.dfy`): the ordered dot product, the probability-to-score rescale, Python's
  `int()` truncation and `get_rating`.
- `Service` (`service.dfy`): `calculate_credit_score` and the `predict` endpoint.

Pure functions are the reference definitions. The source assigns the scaled columns in one vectorised
statement (prediction_helper.py:62) and calls `np.dot` once (prediction_helper.py:68). The model writes
both as methods with loops, a modelling choice, and proves each equal to its reference definition;
over `real` the loops compute exactly what the vectorised calls compute.

The fitted artifact is an explicit `Artifact` value instead of module-level globals. It holds the
feature names, the columns to scale, the scaler and the coefficients with the intercept. The scaler is
an opaque per-column function `(string, real) -> real`. The logistic link `1 / (1 + exp(-z))` is an
opaque parameter `link: real -> real`. Each bound on the score is stated for a probability in [0, 1],
the range of the real logistic function. All numbers are Dafny `real`s.

Facts about the code the model keeps:

- `int()` truncates toward zero. On the non-negative scores that occur this equals the floor.
- The only failures modelled are pandas' `KeyError` and numpy's shape error. A `KeyError` comes from
  a column in the scale list or the feature list that the frame lacks. A shape error comes from a
  feature count that differs from the coefficient count.
- The placeholders are a fixed list of eleven columns. A feature name outside the frame is a
  `KeyError`.

## Model

| member | source | states |
|---|---|---|
| Features.Indicator | prediction_helper.py:41-46 | A one-hot indicator is always 0 or 1, and it is 1 exactly when the field equals the category. |
| Features.LoanToIncome | prediction_helper.py:38 | The ratio is 0 when income is zero or negative. Otherwise the ratio times the income gives back the loan amount, so no division by zero is possible. |
| Features.LoanToIncomeExamples | prediction_helper.py:38 | 2,560,000 over an income of 1,200,000 gives 32/15, about 2.133. An income of 0 gives 0. |
| Features.RatioColumn | prediction_helper.py:38 | The frame's `loan_to_income` column is 0 for an income of zero or less, and loan amount divided by income otherwise. |
| Features.CopiedColumns | prediction_helper.py:34-40 | Age, tenure, open accounts, utilisation, delinquency ratio and average DPD are copied unchanged from the request into their columns. |
| Features.OneHotExclusive | prediction_helper.py:41-46 | Over distinct categories the indicators of one value sum to 1 when the value is a listed category and to 0 otherwise. |
| Features.ResidenceEncoding | prediction_helper.py:41-42 | Each residence column is 0 or 1, and it is 1 exactly when the string equals its category. The two columns sum to the one-hot count over Owned and Rented, which is at most 1. `Mortgage` or any unlisted string gives both 0. |
| Features.PurposeEncoding | prediction_helper.py:43-45 | Each purpose column is 0 or 1, and it is 1 exactly for its category. The three columns sum to the one-hot count over Education, Home and Personal, which is at most 1. `Auto` or any unlisted string gives all three 0. |
| Features.LoanTypeEncoding | prediction_helper.py:46 | `loan_type_Unsecured` is 1 exactly when the loan type is `Unsecured`, and 0 otherwise. |
| Features.RawValue | prediction_helper.py:34-58 | The value of one column of the request frame. Every placeholder column holds 1 whatever the request. |
| Features.PlaceholderColumns | prediction_helper.py:47-58 | All eleven placeholder columns are present and hold 1 for every request. |
| Features.RawFeatures | prediction_helper.py:33-61 | The frame's columns are exactly the listed input columns. |
| Features.Missing | prediction_helper.py:62-63 | The names reported as missing are exactly the requested names the frame lacks, and there are no more of them than were requested. |
| Features.MissingDependsOnKeys | prediction_helper.py:62-63 | Two frames with the same columns report the same missing names. Rescaling values cannot change which lookups fail. |
| Features.Columns | prediction_helper.py:63 | Selecting present columns gives one value per requested name. Position i holds the frame's value for the i-th name. |
| Features.Project | prediction_helper.py:63 | Reordering succeeds exactly when every feature name is a column. On success the vector follows the feature list position by position. On failure it raises the `KeyError` of the absent names. |
| Features.ScaleColumns | prediction_helper.py:62 | Every listed column gets the scaler's image of its original value. Every other column keeps its value, and the set of columns is unchanged. Any absent listed column raises the `KeyError` instead. |
| Features.ModelInput | prediction_helper.py:61-63 | The model input of a request has one entry per feature name. |
| Features.ModelInputEntries | prediction_helper.py:61-63 | In the model input, a feature in the scale list holds the scaler's image of its raw value. Any other feature holds its raw value. |
| Features.PrepareInput | prediction_helper.py:32-64 | Fails exactly when the scale list or the feature list names a column outside the frame. The scale list's `KeyError` comes first, then the feature list's. On success the vector is the model input: one entry per feature, in feature order. |
| Scoring.DotProduct | prediction_helper.py:68 | A loop computes the same value as the ordered dot product of equal-length vectors that `np.dot` computes. |
| Scoring.DotOfZeroTerms | prediction_helper.py:68 | When every feature times its coefficient is 0, the linear score before the intercept is 0. |
| Scoring.DotUpdate | prediction_helper.py:68 | Changing one feature moves the linear score by that change times the feature's coefficient, whatever the other features hold. |
| Scoring.ScoreWithinScale | prediction_helper.py:70-71 | For any base and non-negative scale length, a probability in [0, 1] scores between the base and the base plus the scale length. Probability 1 scores the base and probability 0 the top. |
| Scoring.ScoreBounds | prediction_helper.py:67-71 | With base 300 and scale length 600, a probability in [0, 1] scores within [300, 900]. p = 0 scores 900 and p = 1 scores 300. |
| Scoring.ScoreDecreasing | prediction_helper.py:70-71 | With a positive scale length, a higher default probability gives a strictly lower score. |
| Scoring.ScoreInverse | prediction_helper.py:70-71 | The probability can be recovered from the score for any non-zero scale length. |
| Scoring.Truncate | prediction_helper.py:85 | `int()` rounds toward zero. For a non-negative score the result is at most the score and more than the score minus 1. For a negative score the result is at least the score and less than the score plus 1. |
| Scoring.TruncateWhole | prediction_helper.py:85 | Truncation leaves whole numbers unchanged. |
| Scoring.GetRating | prediction_helper.py:73-83 | The rating is defined exactly on [300, 900], with 900 included, so the four buckets leave no gap. |
| Scoring.RatingMonotone | prediction_helper.py:73-83 | On [300, 900] a higher score never gets a lower rating in the order Poor < Average < Good < Excellent. |
| Scoring.RatingOfTruncatedScore | prediction_helper.py:73-85 | The rating of the truncated score equals the rating of the unrounded score exactly when the score is not strictly between 900 and 901. |
| Scoring.IntegerScoreRating | prediction_helper.py:67-85 | For a probability in [0, 1] with the default base 300 and scale length 600, the returned integer lies in [300, 900]. The rating is defined and equals the rating of that integer. |
| Scoring.ScoreAndRate | prediction_helper.py:70-85 | The probability is passed through unchanged. With the defaults and a probability in [0, 1], the integer score lies in [300, 900], and the rating is defined and equals the rating of that integer. |
| Scoring.ScoreExamples | prediction_helper.py:70-85 | A default probability of 0.10 scores 840, Excellent. A default probability of 0.99 scores 306, Poor. |
| Service.CalculateCreditScore | prediction_helper.py:67-85 | Fails with the shape error exactly when the feature and coefficient lengths differ. Otherwise the result is the score and rating of the link applied to dot product plus intercept. |
| Service.Predict | prediction_helper.py:87-95 | Fails exactly when the artifact names a column the request frame lacks or the coefficient count differs from the feature count, each with its own error. Otherwise the result is the score and rating of the link applied to the model input's linear score. With a probability in [0, 1] the integer score lies in [300, 900] and carries the defined rating of that integer. |

## Left out

- The form client (`main.py`) is left out because it only holds UI widgets, an HTTP call and rendering. Its loan-to-income display at main.py:24 repeats the ratio modelled by `Features.LoanToIncome`.
- Loading the artifact file and the module-level globals (prediction_helper.py:11-15) are file I/O. The fitted values arrive as an `Artifact` parameter.
- The scaler's internals are not modelled because it is a foreign fitted object. It is an arbitrary per-column function of the column name and the original value. The fitted object matches columns by position, and the model matches them by name.
- The logistic link at prediction_helper.py:69 is transcendental floating-point arithmetic. It is a parameter, and the score bounds are stated for a link value in [0, 1].
- `round(prob, 4)` in the response (prediction_helper.py:92) is float formatting, so `Service.Predict` returns the unrounded probability.
- The FastAPI route and the pydantic request validation and coercion (prediction_helper.py:8, 18-29) are transport. The request arrives as an already-typed record.
- Floating-point behaviour (rounding error, NaN, infinities) is not modelled: all arithmetic is exact on `real`. A NaN score could not reach `get_rating` anyway: `int(nan)` at prediction_helper.py:85 raises `ValueError` first, so the endpoint never returns Undefined for NaN.
- Features.Missing: its contract states which names are missing. It does not state their order or the text of pandas' error message.
- Features.ScaleColumns: the scaler is assumed total. The checks `transform` makes on its own input (a column count or column names that differ from the fit) are not modelled. The "fails exactly when" clauses of `Features.ScaleColumns`, `Features.PrepareInput` and `Service.Predict` therefore cover only the `KeyError` and the shape error.

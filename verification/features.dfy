/** Feature construction of `prepare_input`: the raw one-row frame, the scaler applied to a subset of
    columns, and the projection onto the model's ordered feature list. */
module Features {
  import opened Wrappers
  import opened Schema

  /** The loan-to-income ratio, guarded against a zero or negative income. */
  function LoanToIncome(loanAmount: real, income: real): (r: real)
    ensures income <= 0.0 ==> r == 0.0
    ensures income > 0.0 ==> r * income == loanAmount
  {
    if income > 0.0 then loanAmount / income else 0.0
  }

  /** One indicator column of a one-hot encoding. */
  function Indicator(value: string, category: string): (r: real)
    ensures r == 0.0 || r == 1.0
    ensures r == 1.0 <==> value == category
  {
    if value == category then 1.0 else 0.0
  }

  /** The sum of the indicator columns of one categorical field over its non-baseline categories. */
  function OneHotSum(value: string, categories: seq<string>): real {
    if |categories| == 0 then 0.0 else Indicator(value, categories[0]) + OneHotSum(value, categories[1..])
  }

  /** Over distinct categories exactly one indicator fires for a listed value and none for any other. */
  lemma {:induction false} OneHotExclusive(value: string, categories: seq<string>)
    requires Distinct(categories)
    ensures value in categories ==> OneHotSum(value, categories) == 1.0
    ensures value !in categories ==> OneHotSum(value, categories) == 0.0
  {
    if |categories| > 0 {
      var rest := categories[1..];
      assert Distinct(rest) by {
        forall i, j | 0 <= i < j < |rest| ensures rest[i] != rest[j] {
          assert rest[i] == categories[i + 1] && rest[j] == categories[j + 1];
        }
      }
      OneHotExclusive(value, rest);
      assert categories == [categories[0]] + rest;
      if value == categories[0] {
        assert value !in rest by {
          forall k | 0 <= k < |rest| ensures rest[k] != value {
            assert rest[k] == categories[k + 1];
          }
        }
      }
    }
  }

  /** The value `prepare_input` writes into column `name` for a request; every name that is not
      derived from the request is one of the placeholders, which hold 1. */
  function RawValue(req: CreditRequest, name: string): (r: real)
    ensures name in Placeholders ==> r == 1.0
  {
    if name == Age then req.age as real
    else if name == LoanTenureMonths then req.loanTenureMonths as real
    else if name == NumberOfOpenAccounts then req.numOpenAccounts as real
    else if name == CreditUtilizationRatio then req.creditUtilizationRatio
    else if name == LoanToIncomeColumn then LoanToIncome(req.loanAmount, req.income)
    else if name == DelinquencyRatio then req.delinquencyRatio
    else if name == AvgDpdPerDelinquency then req.avgDpdPerDelinquency
    else if name == ResidenceOwned then Indicator(req.residenceType, "Owned")
    else if name == ResidenceRented then Indicator(req.residenceType, "Rented")
    else if name == PurposeEducation then Indicator(req.loanPurpose, "Education")
    else if name == PurposeHome then Indicator(req.loanPurpose, "Home")
    else if name == PurposePersonal then Indicator(req.loanPurpose, "Personal")
    else if name == TypeUnsecured then Indicator(req.loanType, "Unsecured")
    else 1.0
  }

  /** The frame `prepare_input` builds from a request before scaling: one column per input column. */
  function RawFeatures(req: CreditRequest): (m: Frame)
    ensures forall c :: c in m <==> c in InputColumns
  {
    map c | c in InputColumns :: RawValue(req, c)
  }

  /** The eleven placeholder columns hold 1 whatever the request says. */
  lemma PlaceholderColumns(req: CreditRequest)
    ensures forall c :: c in Placeholders ==> c in RawFeatures(req) && RawFeatures(req)[c] == 1.0
  {
    forall i | 0 <= i < |Placeholders| ensures RawValue(req, Placeholders[i]) == 1.0 {
    }
  }

  /** The residence-type indicators: `Owned` and `Rented` each light their own column, and `Mortgage`
      or any other string leaves both at 0. */
  lemma ResidenceEncoding(req: CreditRequest)
    ensures var m := RawFeatures(req);
      && (m[ResidenceOwned] == 1.0 <==> req.residenceType == "Owned")
      && (m[ResidenceRented] == 1.0 <==> req.residenceType == "Rented")
      && (m[ResidenceOwned] == 0.0 || m[ResidenceOwned] == 1.0)
      && (m[ResidenceRented] == 0.0 || m[ResidenceRented] == 1.0)
      && m[ResidenceOwned] + m[ResidenceRented] == OneHotSum(req.residenceType, ["Owned", "Rented"])
      && m[ResidenceOwned] + m[ResidenceRented] <= 1.0
      && (req.residenceType !in ["Owned", "Rented"] ==> m[ResidenceOwned] == 0.0 && m[ResidenceRented] == 0.0)
  {
    OneHotExclusive(req.residenceType, ["Owned", "Rented"]);
  }

  /** The loan-purpose indicators: at most one of Education, Home and Personal is 1, and `Auto` or any
      other string leaves all three at 0. */
  lemma PurposeEncoding(req: CreditRequest)
    ensures var m := RawFeatures(req);
      && (m[PurposeEducation] == 1.0 <==> req.loanPurpose == "Education")
      && (m[PurposeHome] == 1.0 <==> req.loanPurpose == "Home")
      && (m[PurposePersonal] == 1.0 <==> req.loanPurpose == "Personal")
      && (m[PurposeEducation] == 0.0 || m[PurposeEducation] == 1.0)
      && (m[PurposeHome] == 0.0 || m[PurposeHome] == 1.0)
      && (m[PurposePersonal] == 0.0 || m[PurposePersonal] == 1.0)
      && m[PurposeEducation] + m[PurposeHome] + m[PurposePersonal]
           == OneHotSum(req.loanPurpose, ["Education", "Home", "Personal"])
      && m[PurposeEducation] + m[PurposeHome] + m[PurposePersonal] <= 1.0
      && (req.loanPurpose !in ["Education", "Home", "Personal"] ==>
            m[PurposeEducation] == 0.0 && m[PurposeHome] == 0.0 && m[PurposePersonal] == 0.0)
  {
    OneHotExclusive(req.loanPurpose, ["Education", "Home", "Personal"]);
  }

  /** The loan-type indicator is 1 exactly for `Unsecured` and 0 for anything else. */
  lemma LoanTypeEncoding(req: CreditRequest)
    ensures var m := RawFeatures(req);
      && (m[TypeUnsecured] == 1.0 <==> req.loanType == "Unsecured")
      && (m[TypeUnsecured] == 0.0 <==> req.loanType != "Unsecured")
  {
  }

  /** The ratio column holds the guarded loan-to-income ratio of the request. */
  lemma RatioColumn(req: CreditRequest)
    ensures var m := RawFeatures(req);
      && (req.income <= 0.0 ==> m[LoanToIncomeColumn] == 0.0)
      && (req.income > 0.0 ==> m[LoanToIncomeColumn] == req.loanAmount / req.income)
  {
  }

  /** Worked examples of the ratio: 2,560,000 over an income of 1,200,000 is 32/15 (about 2.133), and
      a zero income gives 0 instead of a division by zero. */
  lemma LoanToIncomeExamples()
    ensures LoanToIncome(2560000.0, 1200000.0) == 32.0 / 15.0
    ensures LoanToIncome(100.0, 0.0) == 0.0
  {
  }

  /** The columns copied from the request keep its values. */
  lemma CopiedColumns(req: CreditRequest)
    ensures var m := RawFeatures(req);
      && m[Age] == req.age as real
      && m[LoanTenureMonths] == req.loanTenureMonths as real
      && m[NumberOfOpenAccounts] == req.numOpenAccounts as real
      && m[CreditUtilizationRatio] == req.creditUtilizationRatio
      && m[DelinquencyRatio] == req.delinquencyRatio
      && m[AvgDpdPerDelinquency] == req.avgDpdPerDelinquency
  {
  }

  /** The names of `names` that are not columns of `frame`, in order: what a pandas `KeyError` lists. */
  function Missing(frame: Frame, names: seq<string>): (r: seq<string>)
    ensures forall n :: n in r <==> n in names && n !in frame
    ensures |r| <= |names|
  {
    if |names| == 0 then []
    else
      assert names == [names[0]] + names[1..];
      (if names[0] in frame then [] else [names[0]]) + Missing(frame, names[1..])
  }

  /** Which names are missing depends only on the frame's columns, not on their values. */
  lemma {:induction false} MissingDependsOnKeys(f: Frame, g: Frame, names: seq<string>)
    requires f.Keys == g.Keys
    ensures Missing(f, names) == Missing(g, names)
  {
    if |names| > 0 {
      MissingDependsOnKeys(f, g, names[1..]);
    }
  }

  /** `frame[names]` on a frame holding every name: the column values in the order of `names`. */
  function Columns(frame: Frame, names: seq<string>): (r: seq<real>)
    requires forall n :: n in names ==> n in frame
    ensures |r| == |names|
    ensures forall i :: 0 <= i < |names| ==> r[i] == frame[names[i]]
  {
    if |names| == 0 then [] else [frame[names[0]]] + Columns(frame, names[1..])
  }

  /** `df[features]`: reorders and restricts the frame to the model's feature list, or raises the
      `KeyError` of the absent names. */
  function Project(frame: Frame, features: seq<string>): (r: Result<seq<real>, Error>)
    ensures r.Success? <==> forall f :: f in features ==> f in frame
    ensures r.Failure? ==> r.error == KeyError(Missing(frame, features)) && |r.error.missing| > 0
    ensures r.Success? ==> |r.value| == |features|
    ensures r.Success? ==> forall i :: 0 <= i < |features| ==> r.value[i] == frame[features[i]]
  {
    var missing := Missing(frame, features);
    if |missing| > 0 then
      assert missing[0] in missing;
      Failure(KeyError(missing))
    else Success(Columns(frame, features))
  }

  /** `df[cols] = scaler.transform(df[cols])`: each listed column gets the scaler's image of its original
      value, column by column, and every other column keeps its value. A listed column that the frame
      lacks raises the `KeyError` before anything is written. */
  method ScaleColumns(frame: Frame, cols: seq<string>, scaler: (string, real) -> real)
    returns (r: Result<Frame, Error>)
    ensures r.Success? <==> forall c :: c in cols ==> c in frame
    ensures r.Failure? ==> r.error == KeyError(Missing(frame, cols))
    ensures r.Success? ==> r.value.Keys == frame.Keys
    ensures r.Success? ==> forall c :: c in cols ==> r.value[c] == scaler(c, frame[c])
    ensures r.Success? ==> forall k :: k in frame && k !in cols ==> r.value[k] == frame[k]
  {
    var missing := Missing(frame, cols);
    if |missing| > 0 {
      assert missing[0] in missing;
      return Failure(KeyError(missing));
    }
    var out := frame;
    for i := 0 to |cols|
      invariant out.Keys == frame.Keys
      invariant forall c :: c in cols[..i] ==> out[c] == scaler(c, frame[c])
      invariant forall k :: k in frame && k !in cols[..i] ==> out[k] == frame[k]
    {
      assert cols[..i + 1] == cols[..i] + [cols[i]];
      out := out[cols[i] := scaler(cols[i], frame[cols[i]])];
    }
    assert cols[..|cols|] == cols;
    return Success(out);
  }

  /** The value the model sees for input column `name`: the scaler's image of the raw value for a
      scaled column, the raw value otherwise. */
  function ScaledValue(req: CreditRequest, colsToScale: seq<string>, scaler: (string, real) -> real,
                       name: string): real
    requires name in InputColumns
  {
    if name in colsToScale then scaler(name, RawValue(req, name)) else RawValue(req, name)
  }

  /** The feature vector the model receives, position by position in the order of `features`. */
  function ModelInput(req: CreditRequest, colsToScale: seq<string>, scaler: (string, real) -> real,
                      features: seq<string>): (x: seq<real>)
    requires AllInputColumns(features)
    ensures |x| == |features|
  {
    if |features| == 0 then []
    else [ScaledValue(req, colsToScale, scaler, features[0])] + ModelInput(req, colsToScale, scaler, features[1..])
  }

  /** Position by position, the model input holds the scaler's image of the raw value for a scaled
      feature and the raw value for every other feature. */
  lemma {:induction false} ModelInputEntries(req: CreditRequest, colsToScale: seq<string>, scaler: (string, real) -> real,
                          features: seq<string>)
    requires AllInputColumns(features)
    ensures var x := ModelInput(req, colsToScale, scaler, features);
      && (forall i :: 0 <= i < |features| && features[i] in colsToScale ==>
            x[i] == scaler(features[i], RawFeatures(req)[features[i]]))
      && (forall i :: 0 <= i < |features| && features[i] !in colsToScale ==>
            x[i] == RawFeatures(req)[features[i]])
  {
    if |features| > 0 {
      ModelInputEntries(req, colsToScale, scaler, features[1..]);
    }
  }

  /** `prepare_input`: the raw frame, scaled on `colsToScale`, projected onto `features`. */
  method PrepareInput(req: CreditRequest, colsToScale: seq<string>, scaler: (string, real) -> real,
                      features: seq<string>)
    returns (r: Result<seq<real>, Error>)
    ensures r.Success? <==> AllInputColumns(colsToScale) && AllInputColumns(features)
    ensures r.Failure? && !AllInputColumns(colsToScale) ==>
      r.error == KeyError(Missing(RawFeatures(req), colsToScale))
    ensures r.Failure? && AllInputColumns(colsToScale) ==>
      r.error == KeyError(Missing(RawFeatures(req), features))
    ensures r.Success? ==> |r.value| == |features|
    ensures r.Success? ==> r.value == ModelInput(req, colsToScale, scaler, features)
  {
    var raw := RawFeatures(req);
    var scaled :- ScaleColumns(raw, colsToScale, scaler);
    MissingDependsOnKeys(scaled, raw, features);
    r := Project(scaled, features);
    if r.Success? {
      ModelInputEntries(req, colsToScale, scaler, features);
    }
  }
}

/** The request record, the one-row feature frame and the column names of the scoring service. */
module Schema {

  /** The body of a `/predict` request. Python `int` fields stay `int`, Python `float` fields are `real`,
      and the three categorical fields are free strings: the service does not validate them. */
  datatype CreditRequest = CreditRequest(
    age: int,
    income: real,
    loanAmount: real,
    loanTenureMonths: int,
    avgDpdPerDelinquency: real,
    delinquencyRatio: real,
    creditUtilizationRatio: real,
    numOpenAccounts: int,
    residenceType: string,
    loanPurpose: string,
    loanType: string)

  /** A one-row data frame: column name to the value in its single row. */
  type Frame = map<string, real>

  /** The errors the pipeline raises: a frame lookup of absent columns (pandas `KeyError`, listing the
      absent names in the order they were asked for) and a dot product of vectors of different length
      (numpy's shape error). */
  datatype Error =
    | KeyError(missing: seq<string>)
    | ShapeMismatch(features: nat, coefficients: nat)

  // Columns filled from the request.
  const Age := "age"
  const LoanTenureMonths := "loan_tenure_months"
  const NumberOfOpenAccounts := "number_of_open_accounts"
  const CreditUtilizationRatio := "credit_utilization_ratio"
  const LoanToIncomeColumn := "loan_to_income"
  const DelinquencyRatio := "delinquency_ratio"
  const AvgDpdPerDelinquency := "avg_dpd_per_delinquency"

  // One-hot indicator columns; `Mortgage`, `Auto` and `Secured` are the baselines without a column.
  const ResidenceOwned := "residence_type_Owned"
  const ResidenceRented := "residence_type_Rented"
  const PurposeEducation := "loan_purpose_Education"
  const PurposeHome := "loan_purpose_Home"
  const PurposePersonal := "loan_purpose_Personal"
  const TypeUnsecured := "loan_type_Unsecured"

  /** Columns the fitted model expects but the request does not carry; the service fixes them at 1. */
  const Placeholders: seq<string> := [
    "number_of_dependants", "years_at_current_address", "zipcode", "sanction_amount",
    "processing_fee", "gst", "net_disbursement", "principal_outstanding",
    "bank_balance_at_application", "number_of_closed_accounts", "enquiry_count"]

  /** Every column of the frame built from a request, in the order the source lists them. */
  const InputColumns: seq<string> := [
    Age, LoanTenureMonths, NumberOfOpenAccounts, CreditUtilizationRatio, LoanToIncomeColumn,
    DelinquencyRatio, AvgDpdPerDelinquency,
    ResidenceOwned, ResidenceRented, PurposeEducation, PurposeHome, PurposePersonal, TypeUnsecured]
    + Placeholders

  /** Every name of `names` is a column of the frame built from a request. */
  predicate AllInputColumns(names: seq<string>) {
    forall n :: n in names ==> n in InputColumns
  }

  /** No name occurs twice in `names`. */
  predicate Distinct(names: seq<string>) {
    forall i, j :: 0 <= i < j < |names| ==> names[i] != names[j]
  }
}

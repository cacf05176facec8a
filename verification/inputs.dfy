/**
  The input side of the calculator: the raw form as the page hands it over
  (text fields already trimmed, number fields already parsed, `None` where
  parsing failed), the normalisation applied to optional amounts, and the
  acceptance rule that guards the calculation.
 */
module Inputs {
  import Money

  datatype Option<T> = None | Some(value: T)

  datatype Period = Monthly | Annual

  /** The errors the form can report, one per failed check. */
  datatype FieldError =
    | NameRequired
    | IdRequired
    | DepartmentRequired
    | SalaryNotANumber
    | SalaryNegative

  /**
    The form: employee identity (trimmed), the parsed gross salary, the
    period and tier selections as their raw values, and the six optional
    amounts as parsed.
   */
  datatype Form = Form(
    name: string,
    id: string,
    department: string,
    grossSalary: Option<real>,
    salaryPeriod: string,
    nssfTier: string,
    housing: Option<real>,
    transport: Option<real>,
    medical: Option<real>,
    otherAllowance: Option<real>,
    loan: Option<real>,
    savings: Option<real>
  )

  /** Only the exact value "annual" selects the annual period; anything else is monthly. */
  function PeriodOf(value: string): (p: Period)
    ensures p == Annual <==> value == "annual"
    ensures p == Monthly <==> value != "annual"
  {
    if value == "annual" then Annual else Monthly
  }

  /**
    `getValidatedNumber`: an unparsable field yields the default; a parsed
    value is clamped from below at zero and otherwise kept as it is.
   */
  function GetValidatedNumber(parsed: Option<real>, default: real): (v: real)
    ensures parsed.None? ==> v == default
    ensures parsed.Some? ==> 0.0 <= v && parsed.value <= v
    ensures parsed.Some? && 0.0 <= parsed.value ==> v == parsed.value
    ensures parsed.Some? && parsed.value < 0.0 ==> v == 0.0
  {
    match parsed
    case None => default
    case Some(value) => Money.Max(0.0, value)
  }

  /** With the default 0 that every caller passes, an optional amount is never negative. */
  lemma ValidatedWithZeroDefaultIsNonNegative(parsed: Option<real>)
    ensures 0.0 <= GetValidatedNumber(parsed, 0.0)
  {
  }

  /** Normalising an already normalised amount changes nothing. */
  lemma GetValidatedNumberIdempotent(parsed: Option<real>)
    ensures GetValidatedNumber(Some(GetValidatedNumber(parsed, 0.0)), 0.0) == GetValidatedNumber(parsed, 0.0)
  {
  }

  /** The acceptance rule: all three identity fields non-empty and a parsable, non-negative gross salary. */
  predicate Acceptable(f: Form) {
    && |f.name| > 0
    && |f.id| > 0
    && |f.department| > 0
    && f.grossSalary.Some?
    && 0.0 <= f.grossSalary.value
  }

  /** The checks in the order the form performs them. */
  const Checks: seq<FieldError> :=
    [NameRequired, IdRequired, DepartmentRequired, SalaryNotANumber, SalaryNegative]

  /** Every error has its check, and the checks are listed in rank order. */
  lemma ChecksComplete()
    ensures forall e: FieldError :: e in Checks
    ensures StrictlyRanked(Checks)
  {
    forall e: FieldError
      ensures e in Checks
    {
      assert Checks[Rank(e)] == e;
    }
  }

  /** Whether the check that reports `e` fails on the form. */
  predicate Fails(f: Form, e: FieldError) {
    match e
    case NameRequired => |f.name| == 0
    case IdRequired => |f.id| == 0
    case DepartmentRequired => |f.department| == 0
    case SalaryNotANumber => f.grossSalary.None?
    case SalaryNegative => f.grossSalary.Some? && f.grossSalary.value < 0.0
  }

  /** The position of each check in `Checks`. */
  function Rank(e: FieldError): nat {
    match e
    case NameRequired => 0
    case IdRequired => 1
    case DepartmentRequired => 2
    case SalaryNotANumber => 3
    case SalaryNegative => 4
  }

  predicate StrictlyRanked(errors: seq<FieldError>) {
    forall i, j :: 0 <= i < j < |errors| ==> Rank(errors[i]) < Rank(errors[j])
  }

  /**
    Runs every check in turn and collects the errors of those that fail:
    the result holds exactly the failing checks.
   */
  function Collect(f: Form, checks: seq<FieldError>): (errors: seq<FieldError>)
    ensures forall e :: e in errors <==> e in checks && Fails(f, e)
    decreases |checks|
  {
    if |checks| == 0 then []
    else
      var rest := Collect(f, checks[1..]);
      if Fails(f, checks[0]) then [checks[0]] + rest else rest
  }

  lemma RankedHead(checks: seq<FieldError>)
    requires |checks| > 0 && StrictlyRanked(checks)
    ensures StrictlyRanked(checks[1..])
    ensures forall e :: e in checks[1..] ==> Rank(checks[0]) < Rank(e)
  {
    forall e | e in checks[1..]
      ensures Rank(checks[0]) < Rank(e)
    {
      var k :| 0 <= k < |checks[1..]| && checks[1..][k] == e;
      assert checks[k + 1] == e;
    }
  }

  /** Collecting keeps the order of the checks: the errors come out in the order they were checked. */
  lemma {:induction false} CollectKeepsOrder(f: Form, checks: seq<FieldError>)
    requires StrictlyRanked(checks)
    ensures StrictlyRanked(Collect(f, checks))
    decreases |checks|
  {
    if |checks| > 0 {
      RankedHead(checks);
      CollectKeepsOrder(f, checks[1..]);
      var rest := Collect(f, checks[1..]);
      if Fails(f, checks[0]) {
        var errors := [checks[0]] + rest;
        forall i, j | 0 <= i < j < |errors|
          ensures Rank(errors[i]) < Rank(errors[j])
        {
          assert errors[j] == rest[j - 1];
          assert rest[j - 1] in rest;
          if i > 0 {
            assert errors[i] == rest[i - 1];
          }
        }
      }
    }
  }

  /**
    The checks of `validateAndCalculate`, every one of them run: the errors
    reported are exactly those of the failing checks, in the order of the
    checks, with at most one of the two salary errors; none are reported
    exactly when the form is acceptable.
   */
  function Validate(f: Form): (errors: seq<FieldError>)
    ensures NameRequired in errors <==> |f.name| == 0
    ensures IdRequired in errors <==> |f.id| == 0
    ensures DepartmentRequired in errors <==> |f.department| == 0
    ensures SalaryNotANumber in errors <==> f.grossSalary.None?
    ensures SalaryNegative in errors <==> f.grossSalary.Some? && f.grossSalary.value < 0.0
    ensures !(SalaryNotANumber in errors && SalaryNegative in errors)
    ensures StrictlyRanked(errors)
    ensures |errors| == 0 <==> Acceptable(f)
  {
    ChecksComplete();
    CollectKeepsOrder(f, Checks);
    var errors := Collect(f, Checks);
    assert |errors| > 0 ==> errors[0] in errors;
    errors
  }
}

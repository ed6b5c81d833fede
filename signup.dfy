/**
 * The sign-up page (app/criar-conta/page.tsx): the guarded `onChange`
 * handlers of the masked CPF, CNPJ and salary inputs, the salary display
 * rule, the transform applied to an employee record before it is sent, and
 * the page's `loading` flag around a submission.
 *
 * Form fields that are plain registered inputs (names, e-mail) are not
 * guarded by the page and are passed in where a whole record is needed.
 * The server's answer is an input (`SubmitOutcome`); `alert` and
 * `router.push` are returned as `Browser.Effect`s.
 */
module SignUp {
  import opened Wrappers
  import opened Decimal
  import opened Masks
  import opened Schemas
  import opened Browser

  // ---------------------------------------------------------------------------
  // Guarded edits of the masked inputs
  // ---------------------------------------------------------------------------

  const CpfLimit: nat := 11
  const CnpjLimit: nat := 14

  /**
   * What a digits-only field holds after the user types `typed` into its
   * masked input: the digits of `typed` when there are at most `limit` of
   * them, and otherwise the value it held before.
   */
  function DigitFieldEdit(current: string, typed: string, limit: nat): (r: string)
    ensures |RemoveMask(typed)| <= limit ==> r == RemoveMask(typed)
    ensures |RemoveMask(typed)| > limit ==> r == current
  {
    var raw := RemoveMask(typed);
    if |raw| <= limit then raw else current
  }

  /** A stored CPF or CNPJ field: only digits, at most `limit` of them. */
  predicate DigitField(s: string, limit: nat)
  {
    AllDigits(s) && |s| <= limit
  }

  /** Whatever is typed, a well-formed field stays well-formed. */
  lemma DigitFieldEditKeeps(current: string, typed: string, limit: nat)
    requires DigitField(current, limit)
    ensures DigitField(DigitFieldEdit(current, typed, limit), limit)
  {
  }

  /**
   * Typing back exactly what the CPF input displays leaves the stored CPF as
   * it was: the mask drops no digit of a stored value.
   */
  lemma CpfRetypeKeeps(cpf: string)
    requires DigitField(cpf, CpfLimit)
    ensures DigitFieldEdit(cpf, ApplyCpfMask(cpf), CpfLimit) == cpf
  {
    CpfMaskRoundTrip(cpf);
  }

  /** The same for the CNPJ input. */
  lemma CnpjRetypeKeeps(cnpj: string)
    requires DigitField(cnpj, CnpjLimit)
    ensures DigitFieldEdit(cnpj, ApplyCnpjMask(cnpj), CnpjLimit) == cnpj
  {
    CnpjMaskRoundTrip(cnpj);
  }

  /** Salaries are kept in cents. */
  const SalaryInputMax: int := 9999999

  /**
   * What the salary field holds after `typed` is entered: 0 when it has no
   * digit, the number its digits spell when that is at most 9999999, and
   * otherwise the value it held before.
   */
  function SalaryEdit(current: int, typed: string): (r: int)
    ensures RemoveMask(typed) == [] ==> r == 0
    ensures RemoveMask(typed) != [] && ParseDecimal(RemoveMask(typed)) <= SalaryInputMax ==>
      r == ParseDecimal(RemoveMask(typed))
    ensures RemoveMask(typed) != [] && ParseDecimal(RemoveMask(typed)) > SalaryInputMax ==> r == current
  {
    var raw := RemoveMask(typed);
    if raw != [] then
      var n := ParseDecimal(raw);
      if n <= SalaryInputMax then n else current
    else
      0
  }

  /** A stored salary stays within 0 .. 9999999 whatever is typed. */
  lemma SalaryEditKeeps(current: int, typed: string)
    requires 0 <= current <= SalaryInputMax
    ensures 0 <= SalaryEdit(current, typed) <= SalaryInputMax
  {
  }

  /** Typing the decimal digits of an amount within range stores that amount. */
  lemma SalaryEditDigits(current: int, n: nat)
    requires n <= SalaryInputMax
    ensures SalaryEdit(current, ToDecimal(n)) == n
  {
    ParseToDecimal(n);
  }

  /** What the salary input shows: blank unless the stored value is positive, and then that amount. */
  function SalaryDisplay(salary: int): (r: CurrencyText)
    ensures r == Blank <==> salary <= 0
    ensures r.Amount? ==> r.cents == salary
  {
    if salary > 0 then
      CurrencyMaskOfDecimal(salary);
      ApplyCurrencyMask(ToDecimal(salary))
    else Blank
  }

  /** Formatting the decimal text of a positive amount reads back that amount. */
  lemma CurrencyMaskOfDecimal(n: nat)
    requires n > 0
    ensures ApplyCurrencyMask(ToDecimal(n)) == Amount(n)
  {
    var s := ToDecimal(n);
    ParseToDecimal(n);
    assert IsDigit(s[0]);
  }

  // ---------------------------------------------------------------------------
  // The employee record that is sent
  // ---------------------------------------------------------------------------

  /**
   * The record the employee form sends: `currentlyEmployed` is derived from
   * the company choice and the "none" choice is sent as an absent company.
   */
  function SubmitData(e: EmployeeData): (r: EmployeeData)
    ensures r.currentlyEmployed <==> e.companyCnpj != Some("") && e.companyCnpj != Some(NoCompany)
    ensures r.companyCnpj.None? <==> e.companyCnpj.None? || e.companyCnpj == Some(NoCompany)
    ensures r.companyCnpj.Some? ==> r.companyCnpj == e.companyCnpj
    ensures r.fullName == e.fullName && r.email == e.email && r.cpf == e.cpf && r.salary == e.salary
  {
    e.(currentlyEmployed := e.companyCnpj != Some("") && e.companyCnpj != Some(NoCompany),
       companyCnpj := if e.companyCnpj == Some(NoCompany) then None else e.companyCnpj)
  }

  /**
   * The form always holds a string for the company (it starts as "" and the
   * select only gives strings); the record it sends then satisfies the
   * schema's cross-field rule.
   */
  lemma SubmitDataConsistent(e: EmployeeData)
    requires e.companyCnpj.Some?
    ensures EmploymentConsistent(SubmitData(e))
  {
  }

  /**
   * With no company value at all the derivation would claim employment and
   * break the cross-field rule; the form never produces that record.
   */
  lemma SubmitDataUndefinedCompany(e: EmployeeData)
    requires e.companyCnpj.None?
    ensures !EmploymentConsistent(SubmitData(e))
  {
  }

  /**
   * Under the company rule as evidently intended, where "none" counts as no
   * company, every record that passes validation is sent as a record the
   * schema accepts.
   */
  lemma {:induction false} SubmitDataAccepted(e: EmployeeData, v: Validators)
    requires e.companyCnpj.Some?
    requires EmployeeIssuesIntended(e, v) == []
    ensures EmployeeAccepted(SubmitData(e), v)
  {
    var n := NormalizedCompany(e);
    assert EmployeeFieldIssues(n, v) == [];
    var s := SubmitData(e);
    SubmitDataConsistent(e);
    assert CompanyCnpjOk(s.companyCnpj, v) by {
      assert s.companyCnpj == n.companyCnpj;
    }
    assert EmployeeFieldIssues(s, v) == [];
  }

  /** Choosing "none" with the intended rule: the record is accepted and sent without a company. */
  lemma NoneChoiceIntended(e: EmployeeData, v: Validators)
    requires e.companyCnpj == Some(NoCompany) && !e.currentlyEmployed
    requires EmployeeFieldIssues(e.(companyCnpj := None), v) == []
    ensures EmployeeIssuesIntended(e, v) == []
    ensures SubmitData(e).companyCnpj.None? && !SubmitData(e).currentlyEmployed
    ensures EmployeeAccepted(SubmitData(e), v)
  {
    SubmitDataAccepted(e, v);
  }

  // ---------------------------------------------------------------------------
  // Submission outcome
  // ---------------------------------------------------------------------------

  /** How the registration request ended: ok, refused with an optional `message`, or thrown. */
  datatype SubmitOutcome = Ok | Refused(message: Option<string>) | Threw

  datatype AccountKind = Company | Employee

  function SuccessText(kind: AccountKind): string
  {
    match kind
    case Company => "Empresa criada com sucesso!"
    case Employee => "Empregado criado com sucesso!"
  }

  function FailureText(kind: AccountKind): string
  {
    match kind
    case Company => "Erro ao criar empresa"
    case Employee => "Erro ao criar empregado"
  }

  /**
   * The alerts and navigation that follow a submission: on success a
   * confirmation and the move to the sign-in page; otherwise one alert with
   * the server's message when it has a non-empty one, or the generic text.
   */
  function SubmitEffects(kind: AccountKind, outcome: SubmitOutcome): (r: seq<Effect>)
    ensures outcome.Ok? <==> Navigate(SignInPath) in r
    ensures outcome.Ok? ==> r == [Alert(SuccessText(kind)), Navigate(SignInPath)]
    ensures !outcome.Ok? ==> |r| == 1 && r[0].Alert?
    ensures outcome.Refused? && outcome.message.Some? && outcome.message.value != "" ==>
      r == [Alert(outcome.message.value)]
    ensures outcome.Threw? || outcome == Refused(None) || outcome == Refused(Some("")) ==>
      r == [Alert(FailureText(kind))]
  {
    match outcome
    case Ok => [Alert(SuccessText(kind)), Navigate(SignInPath)]
    case Refused(message) =>
      if message.Some? && message.value != "" then [Alert(message.value)] else [Alert(FailureText(kind))]
    case Threw => [Alert(FailureText(kind))]
  }

  // ---------------------------------------------------------------------------
  // Page state
  // ---------------------------------------------------------------------------

  /** The controlled fields of the company form. */
  class CompanyForm {
    var cpf: string
    var cnpj: string

    predicate Valid()
      reads this
    {
      DigitField(cpf, CpfLimit) && DigitField(cnpj, CnpjLimit)
    }

    constructor ()
      ensures cpf == "" && cnpj == ""
      ensures Valid()
    {
      cpf := "";
      cnpj := "";
    }

    /** The CPF input's value: the stored digits masked, which unmask back to them. */
    function CpfShown(): (r: string)
      reads this
      ensures |r| <= 14
      ensures Valid() ==> RemoveMask(r) == cpf
    {
      CpfMaskRoundTrip(cpf);
      ApplyCpfMask(cpf)
    }

    /** The CNPJ input's value: the stored digits masked, which unmask back to them. */
    function CnpjShown(): (r: string)
      reads this
      ensures |r| <= 18
      ensures Valid() ==> RemoveMask(r) == cnpj
    {
      CnpjMaskRoundTrip(cnpj);
      ApplyCnpjMask(cnpj)
    }

    method EditCpf(typed: string)
      requires Valid()
      modifies this
      ensures cpf == DigitFieldEdit(old(cpf), typed, CpfLimit) && cnpj == old(cnpj)
      ensures Valid()
    {
      DigitFieldEditKeeps(cpf, typed, CpfLimit);
      cpf := DigitFieldEdit(cpf, typed, CpfLimit);
    }

    method EditCnpj(typed: string)
      requires Valid()
      modifies this
      ensures cnpj == DigitFieldEdit(old(cnpj), typed, CnpjLimit) && cpf == old(cpf)
      ensures Valid()
    {
      DigitFieldEditKeeps(cnpj, typed, CnpjLimit);
      cnpj := DigitFieldEdit(cnpj, typed, CnpjLimit);
    }

    /** The record handed to validation, with the plain inputs supplied. */
    function Values(legalName: string, name: string, email: string): CompanyData
      reads this
    {
      CompanyData(legalName, name, email, cpf, cnpj)
    }
  }

  /** The controlled fields of the employee form. */
  class EmployeeForm {
    var cpf: string
    var salary: int
    var currentlyEmployed: bool
    var companyCnpj: string

    predicate Valid()
      reads this
    {
      DigitField(cpf, CpfLimit) && 0 <= salary <= SalaryInputMax
    }

    constructor ()
      ensures cpf == "" && salary == 0 && !currentlyEmployed && companyCnpj == ""
      ensures Valid()
    {
      cpf := "";
      salary := 0;
      currentlyEmployed := false;
      companyCnpj := "";
    }

    /** The CPF input's value: the stored digits masked, which unmask back to them. */
    function CpfShown(): (r: string)
      reads this
      ensures |r| <= 14
      ensures Valid() ==> RemoveMask(r) == cpf
    {
      CpfMaskRoundTrip(cpf);
      ApplyCpfMask(cpf)
    }

    /** The salary input's value: blank while the salary is 0, otherwise the stored amount. */
    function SalaryShown(): (r: CurrencyText)
      reads this
      ensures Valid() ==> (r == Blank <==> salary == 0)
      ensures r.Amount? ==> r.cents == salary
    {
      SalaryDisplay(salary)
    }

    method EditCpf(typed: string)
      requires Valid()
      modifies this
      ensures cpf == DigitFieldEdit(old(cpf), typed, CpfLimit)
      ensures salary == old(salary) && currentlyEmployed == old(currentlyEmployed) && companyCnpj == old(companyCnpj)
      ensures Valid()
    {
      DigitFieldEditKeeps(cpf, typed, CpfLimit);
      cpf := DigitFieldEdit(cpf, typed, CpfLimit);
    }

    method EditSalary(typed: string)
      requires Valid()
      modifies this
      ensures salary == SalaryEdit(old(salary), typed)
      ensures cpf == old(cpf) && currentlyEmployed == old(currentlyEmployed) && companyCnpj == old(companyCnpj)
      ensures Valid()
    {
      SalaryEditKeeps(salary, typed);
      salary := SalaryEdit(salary, typed);
    }

    /** The company select stores the chosen option's value as it is. */
    method SelectCompany(choice: string)
      modifies this
      ensures companyCnpj == choice
      ensures cpf == old(cpf) && salary == old(salary) && currentlyEmployed == old(currentlyEmployed)
    {
      companyCnpj := choice;
    }

    /** The record handed to validation, with the plain inputs supplied. */
    function Values(fullName: string, email: string): (r: EmployeeData)
      reads this
      ensures r.companyCnpj.Some?
    {
      EmployeeData(fullName, email, cpf, salary as real, currentlyEmployed, Some(companyCnpj))
    }
  }

  /** The page's own state: whether a submission is in flight. */
  class SignUpPage {
    var loading: bool

    constructor ()
      ensures !loading
    {
      loading := false;
    }

    /**
     * A validated employee record is submitted: `loading` is set and the
     * transformed record is what goes out.
     */
    method BeginEmployeeSubmit(data: EmployeeData) returns (sent: EmployeeData)
      modifies this
      ensures loading
      ensures sent == SubmitData(data)
    {
      loading := true;
      sent := SubmitData(data);
    }

    /** A validated company record is submitted as it is. */
    method BeginCompanySubmit(data: CompanyData) returns (sent: CompanyData)
      modifies this
      ensures loading
      ensures sent == data
    {
      loading := true;
      sent := data;
    }

    /** However the request ended, `loading` is cleared and the effects follow the outcome. */
    method FinishSubmit(kind: AccountKind, outcome: SubmitOutcome) returns (effects: seq<Effect>)
      modifies this
      ensures !loading
      ensures effects == SubmitEffects(kind, outcome)
    {
      effects := SubmitEffects(kind, outcome);
      loading := false;
    }
  }
}

/**
 * The sign-up validation rules (lib/schemas.ts) as functions from a record to
 * the list of issues the validator reports, in the order it reports them.
 * A record is accepted when that list is empty.
 *
 * The CPF and CNPJ check-digit validators and the e-mail syntax check come
 * from libraries outside this model; they are the fields of `Validators`,
 * passed in, and nothing is assumed about them.
 */
module Schemas {
  import opened Wrappers

  datatype Validators = Validators(
    cpfIsValid: string -> bool,
    cnpjIsValid: string -> bool,
    isEmail: string -> bool)

  /** A validation issue: the field it is reported on and its message. */
  datatype Issue = Issue(path: string, message: string)

  function Check(ok: bool, path: string, message: string): (r: seq<Issue>)
    ensures r == [] <==> ok
    ensures !ok ==> r == [Issue(path, message)]
  {
    if ok then [] else [Issue(path, message)]
  }

  // ---------------------------------------------------------------------------
  // createCompanySchema
  // ---------------------------------------------------------------------------

  datatype CompanyData = CompanyData(
    legalName: string,
    name: string,
    email: string,
    cpf: string,
    cnpj: string)

  const LegalNameMin: nat := 8
  const NameMin: nat := 4

  function CompanyIssues(c: CompanyData, v: Validators): (r: seq<Issue>)
    ensures r == [] <==>
      && |c.legalName| >= LegalNameMin
      && |c.name| >= NameMin
      && v.isEmail(c.email)
      && v.cpfIsValid(c.cpf)
      && v.cnpjIsValid(c.cnpj)
    ensures |c.legalName| < LegalNameMin ==> r[0].path == "legalName"
  {
    Check(|c.legalName| >= LegalNameMin, "legalName", "A razão social da empresa deve ter no mínimo 8 caracteres")
    + Check(|c.name| >= NameMin, "name", "O nome fantasia da empresa deve ter no mínimo 4 caracteres")
    + Check(v.isEmail(c.email), "email", "Formato de e-mail inválido")
    + Check(v.cpfIsValid(c.cpf), "cpf", "CPF inválido")
    + Check(v.cnpjIsValid(c.cnpj), "cnpj", "CNPJ inválido")
  }

  predicate CompanyAccepted(c: CompanyData, v: Validators)
  {
    CompanyIssues(c, v) == []
  }

  // ---------------------------------------------------------------------------
  // createEmployeeSchema
  // ---------------------------------------------------------------------------

  /** `companyCnpj` is optional: `None` is `undefined`. Salaries are numbers, so possibly fractional. */
  datatype EmployeeData = EmployeeData(
    fullName: string,
    email: string,
    cpf: string,
    salary: real,
    currentlyEmployed: bool,
    companyCnpj: Option<string>)

  const FullNameMin: nat := 4
  const FullNameMax: nat := 32
  /** Salaries are in cents: R$ 1.000,00 to R$ 99.999,99. */
  const SalaryMin: int := 100000
  const SalaryMax: int := 9999999

  predicate IsInteger(x: real)
  {
    x == x.Floor as real
  }

  /** JavaScript truthiness of an optional string: present and non-empty. */
  predicate Truthy(s: Option<string>)
  {
    s.Some? && s.value != ""
  }

  /** The `companyCnpj` refinement: only a non-empty value is checked. */
  predicate CompanyCnpjOk(cnpj: Option<string>, v: Validators)
  {
    Truthy(cnpj) ==> v.cnpjIsValid(cnpj.value)
  }

  /** The cross-field rule: without a company CNPJ the employee is not currently employed. */
  predicate EmploymentConsistent(e: EmployeeData)
  {
    !Truthy(e.companyCnpj) ==> !e.currentlyEmployed
  }

  /** The per-field checks, in the order of the object's keys. */
  function EmployeeFieldIssues(e: EmployeeData, v: Validators): (r: seq<Issue>)
    ensures r == [] <==>
      && FullNameMin <= |e.fullName| <= FullNameMax
      && v.isEmail(e.email)
      && v.cpfIsValid(e.cpf)
      && IsInteger(e.salary) && SalaryMin as real <= e.salary <= SalaryMax as real
      && CompanyCnpjOk(e.companyCnpj, v)
  {
    Check(|e.fullName| >= FullNameMin, "fullName", "O nome deve ter no mínimo 4 caracteres")
    + Check(|e.fullName| <= FullNameMax, "fullName", "O nome deve ter no máximo 32 caracteres")
    + Check(v.isEmail(e.email), "email", "E-mail inválido")
    + Check(v.cpfIsValid(e.cpf), "cpf", "CPF inválido")
    + Check(IsInteger(e.salary), "salary", "Expected integer, received float")
    + Check(e.salary >= SalaryMin as real, "salary", "O salário deve ser no mínimo R$ 1.000,00")
    + Check(e.salary <= SalaryMax as real, "salary", "O salário deve ser no máximo R$ 99.999,99")
    + Check(CompanyCnpjOk(e.companyCnpj, v), "companyCnpj", "CNPJ inválido")
  }

  const CrossFieldIssue: Issue :=
    Issue("currentlyEmployed", "currentlyEmployed deve ser false se companyCnpj não for fornecido")

  /**
   * Every issue of the record: the field checks, then the `superRefine` rule,
   * which runs even when a field check failed (a failed check does not abort
   * the object's parse).
   */
  function EmployeeIssues(e: EmployeeData, v: Validators): (r: seq<Issue>)
    ensures r == [] <==> EmployeeFieldIssues(e, v) == [] && EmploymentConsistent(e)
    ensures !EmploymentConsistent(e) ==> r[|r| - 1] == CrossFieldIssue
    ensures EmploymentConsistent(e) ==> CrossFieldIssue !in r
  {
    EmployeeFieldIssues(e, v) + Check(EmploymentConsistent(e), CrossFieldIssue.path, CrossFieldIssue.message)
  }

  predicate EmployeeAccepted(e: EmployeeData, v: Validators)
  {
    EmployeeIssues(e, v) == []
  }

  /** An accepted salary is a whole number of cents within the range. */
  lemma AcceptedSalary(e: EmployeeData, v: Validators)
    requires EmployeeAccepted(e, v)
    ensures e.salary == e.salary.Floor as real
    ensures SalaryMin <= e.salary.Floor <= SalaryMax
  {
    assert EmployeeFieldIssues(e, v) == [];
  }

  /** An absent or empty company CNPJ passes its field check whatever the validator says. */
  lemma EmptyCompanyCnpjPasses(cnpj: Option<string>, v: Validators)
    requires cnpj == None || cnpj == Some("")
    ensures CompanyCnpjOk(cnpj, v)
  {
  }

  // ---------------------------------------------------------------------------
  // The company rule as the sign-up page evidently expects it
  // ---------------------------------------------------------------------------

  /** The value of the sign-up page's company option "not employed by any of these companies". */
  const NoCompany: string := "none"

  /** The record with the "none" company option read as no company. */
  function NormalizedCompany(e: EmployeeData): (r: EmployeeData)
    ensures r.companyCnpj == (if e.companyCnpj == Some(NoCompany) then None else e.companyCnpj)
    ensures r.(companyCnpj := e.companyCnpj) == e
  {
    e.(companyCnpj := if e.companyCnpj == Some(NoCompany) then None else e.companyCnpj)
  }

  /**
   * The employee rules with "none" read as no company, which is what the
   * sign-up page's submit transform is written for.
   */
  function EmployeeIssuesIntended(e: EmployeeData, v: Validators): (r: seq<Issue>)
    ensures e.companyCnpj != Some(NoCompany) ==> r == EmployeeIssues(e, v)
    ensures e.companyCnpj == Some(NoCompany) ==>
      (r == [] <==> EmployeeFieldIssues(e.(companyCnpj := None), v) == [] && !e.currentlyEmployed)
  {
    EmployeeIssues(NormalizedCompany(e), v)
  }

  /**
   * The select option "none" ("not employed by any of these companies") is a
   * non-empty string, so it reaches the CNPJ validator and, when the validator
   * refuses it, the record is not accepted.
   */
  lemma NoneOptionRefused(e: EmployeeData, v: Validators)
    requires e.companyCnpj == Some(NoCompany) && !v.cnpjIsValid(NoCompany)
    ensures !EmployeeAccepted(e, v)
    ensures Issue("companyCnpj", "CNPJ inválido") in EmployeeIssues(e, v)
  {
    var f := EmployeeFieldIssues(e, v);
    var tail := Check(CompanyCnpjOk(e.companyCnpj, v), "companyCnpj", "CNPJ inválido");
    assert tail == [Issue("companyCnpj", "CNPJ inválido")];
    assert f[|f| - 1] == Issue("companyCnpj", "CNPJ inválido");
    assert EmployeeIssues(e, v)[|f| - 1] == f[|f| - 1];
  }
}

/**
 * The loan simulation page (app/nova-proposta/page.tsx): a three-step
 * wizard. Step 1 chooses the amount, step 2 offers one to four installments,
 * step 3 shows the summary and submits the proposal.
 *
 * Installment values are exact rationals here; the page divides binary
 * floating-point numbers. The server's answer is an input.
 */
module NewProposal {
  import opened Wrappers
  import opened Auth
  import opened Browser
  import opened ProposalsApi

  /** The slider's range and step, in reais. */
  const MinAmount: int := 1000
  const MaxAmount: int := 12000
  const AmountStep: int := 1000

  predicate SliderValue(v: int)
  {
    MinAmount <= v <= MaxAmount && v % AmountStep == 0
  }

  const MaxInstallments: int := 4

  datatype InstallmentOption = InstallmentOption(installments: int, value: real)

  /** The choices offered on step 2: 1, 2, 3 or 4 equal installments that add up to the amount. */
  function InstallmentOptions(amount: int): (r: seq<InstallmentOption>)
    ensures |r| == MaxInstallments as nat
    ensures forall i :: 0 <= i < |r| ==> r[i].installments == i + 1
    ensures forall i :: 0 <= i < |r| ==> r[i].value * r[i].installments as real == amount as real
  {
    var a := amount as real;
    [ InstallmentOption(1, a), InstallmentOption(2, a / 2.0),
      InstallmentOption(3, a / 3.0), InstallmentOption(4, a / 4.0) ]
  }

  /** The body posted for `n` installments of `amount`. */
  function ProposalBody(amount: int, n: int): (r: ProposalRequest)
    requires n != 0
    ensures r.amount == amount && r.installments == n
    ensures r.installmentValue * n as real == amount as real
  {
    ProposalRequest(amount, n, amount as real / n as real)
  }

  /** The posted installment value is the one the chosen option showed. */
  lemma BodyMatchesOption(amount: int, n: int)
    requires 1 <= n <= MaxInstallments
    ensures ProposalBody(amount, n).installmentValue == InstallmentOptions(amount)[n - 1].value
    ensures ProposalBody(amount, n).installments == InstallmentOptions(amount)[n - 1].installments
  {
    var o := InstallmentOptions(amount)[n - 1];
    assert o.value * n as real == amount as real;
  }

  /** JavaScript truthiness of the selected count: `null` and 0 are falsy. */
  predicate Chosen(selected: Option<int>)
    ensures Chosen(selected) <==> selected != None && selected != Some(0)
  {
    selected.Some? && selected.value != 0
  }

  /** How the proposal request ended. */
  datatype PostOutcome = Accepted | NotAccepted | Threw

  const SubmitFailure: string := "Erro ao criar proposta"

  function SubmitEffects(outcome: PostOutcome): (r: seq<Effect>)
    ensures |r| == 1
    ensures r[0].Navigate? <==> outcome == Accepted
    ensures r[0].Navigate? ==> r[0].path == NewProposalPath
    ensures r[0].Alert? ==> r[0].text == SubmitFailure
  {
    if outcome == Accepted then [Navigate(NewProposalPath)] else [Alert(SubmitFailure)]
  }

  /**
   * The navigation the page's effect starts: unauthenticated users go to
   * sign in, authenticated administrators to the administration page.
   */
  function Redirect(status: AuthStatus, session: Option<Session>): (r: Option<string>)
    ensures r == Some(SignInPath) <==> status == Unauthenticated
    ensures r == Some(AdminPath) <==> status == Authenticated && RoleOf(session) == Some(AdminRole)
    ensures r.Some? ==> r == Some(SignInPath) || r == Some(AdminPath)
  {
    if status == Unauthenticated then Some(SignInPath)
    else if status == Authenticated && RoleOf(session) == Some(AdminRole) then Some(AdminPath)
    else None
  }

  datatype View = LoadingScreen | Nothing | Wizard

  /** The loading screen while the session loads, nothing without a session, otherwise the wizard. */
  function PageView(status: AuthStatus, session: Option<Session>): (r: View)
    ensures r == LoadingScreen <==> status == Loading
    ensures r == Wizard <==> status != Loading && session.Some?
  {
    if status == Loading then LoadingScreen
    else if session.None? then Nothing
    else Wizard
  }

  /** The wizard's state. */
  class LoanWizard {
    var step: int
    var amount: int
    var selected: Option<int>
    var loading: bool

    /**
     * The wizard is on one of its three steps, the amount is a slider value,
     * a chosen count is one of the offered options, and the summary step
     * always has a chosen count to divide by.
     */
    predicate Valid()
      reads this
    {
      && 1 <= step <= 3
      && SliderValue(amount)
      && (selected.Some? ==> 1 <= selected.value <= MaxInstallments)
      && (step == 3 ==> selected.Some?)
    }

    constructor ()
      ensures step == 1 && amount == 1000 && selected == None && !loading
      ensures Valid()
    {
      step := 1;
      amount := 1000;
      selected := None;
      loading := false;
    }

    /** The options shown on step 2 for the current amount. */
    function Options(): seq<InstallmentOption>
      reads this
    {
      InstallmentOptions(amount)
    }

    /** The slider moved. */
    method SetAmount(v: int)
      requires Valid() && SliderValue(v)
      modifies this
      ensures amount == v
      ensures step == old(step) && selected == old(selected) && loading == old(loading)
      ensures Valid()
    {
      amount := v;
    }

    /** "Simular": on to the options. */
    method Simulate()
      requires Valid()
      modifies this
      ensures step == 2
      ensures amount == old(amount) && selected == old(selected) && loading == old(loading)
      ensures Valid()
    {
      step := 2;
    }

    /** An option was picked: it is recorded and the summary shown. */
    method SelectInstallment(n: int)
      requires Valid() && 1 <= n <= MaxInstallments
      modifies this
      ensures selected == Some(n) && step == 3
      ensures amount == old(amount) && loading == old(loading)
      ensures Valid()
    {
      selected := Some(n);
      step := 3;
    }

    /** "Voltar" on the options step. */
    method BackToAmount()
      requires Valid() && step == 2
      modifies this
      ensures step == 1
      ensures amount == old(amount) && selected == old(selected) && loading == old(loading)
      ensures Valid()
    {
      step := 1;
    }

    /** "Voltar" on the summary step; the recorded choice is kept. */
    method BackToOptions()
      requires Valid() && step == 3
      modifies this
      ensures step == 2
      ensures amount == old(amount) && selected == old(selected) && loading == old(loading)
      ensures Valid()
    {
      step := 2;
    }

    /**
     * "Solicitar empréstimo": without a chosen count nothing happens and no
     * request is made; otherwise `loading` is set and the body is returned.
     */
    method BeginSubmit() returns (request: Option<ProposalRequest>)
      requires Valid()
      modifies this
      ensures step == old(step) && amount == old(amount) && selected == old(selected)
      ensures !Chosen(selected) ==> request.None? && loading == old(loading)
      ensures Chosen(selected) ==> loading && request == Some(ProposalBody(amount, selected.value))
      ensures Valid()
    {
      if !Chosen(selected) {
        return None;
      }
      loading := true;
      request := Some(ProposalBody(amount, selected.value));
    }

    /** The request ended: `loading` is cleared whatever the outcome. */
    method FinishSubmit(outcome: PostOutcome) returns (effects: seq<Effect>)
      requires Valid()
      modifies this
      ensures !loading && effects == SubmitEffects(outcome)
      ensures step == old(step) && amount == old(amount) && selected == old(selected)
      ensures Valid()
    {
      effects := SubmitEffects(outcome);
      loading := false;
    }
  }

  /** A submission from the summary step always makes a request, for the option the user picked. */
  method SubmitFromSummary(w: LoanWizard) returns (request: Option<ProposalRequest>)
    requires w.Valid() && w.step == 3
    modifies w
    ensures w.Valid() && w.step == 3 && w.selected == old(w.selected) && w.amount == old(w.amount)
    ensures request.Some? && w.loading
    ensures request.value.installments == w.selected.value
    ensures request.value.installmentValue == InstallmentOptions(w.amount)[w.selected.value - 1].value
  {
    request := w.BeginSubmit();
    BodyMatchesOption(w.amount, w.selected.value);
  }
}

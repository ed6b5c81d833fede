/**
 * The employee's dashboard (app/dashboard/page.tsx): the user's proposals as
 * numbered cards whose details can be hidden one by one, with status
 * headings and subheadings.
 *
 * The result of the page's `fetch` is an input; amounts shown with
 * `toLocaleString` appear as the numbers themselves.
 */
module Dashboard {
  import opened Wrappers
  import opened Decimal
  import opened Auth
  import opened Browser
  import opened ProposalsApi

  // ---------------------------------------------------------------------------
  // Hidden proposals
  // ---------------------------------------------------------------------------

  /** The hidden set after the eye button of proposal `id` is pressed. */
  function Toggled(hidden: set<string>, id: string): (r: set<string>)
    ensures id in r <==> id !in hidden
    ensures forall x :: x != id ==> (x in r <==> x in hidden)
  {
    if id in hidden then hidden - {id} else hidden + {id}
  }

  /** Pressing the same eye button twice restores the hidden set. */
  lemma ToggleTwice(hidden: set<string>, id: string)
    ensures Toggled(Toggled(hidden, id), id) == hidden
  {
  }

  /** Toggles of two different proposals commute. */
  lemma TogglesCommute(hidden: set<string>, a: string, b: string)
    ensures Toggled(Toggled(hidden, a), b) == Toggled(Toggled(hidden, b), a)
  {
  }

  // ---------------------------------------------------------------------------
  // Labels
  // ---------------------------------------------------------------------------

  const CurrentLoan: string := "EMPRÉSTIMO CORRENTE"
  const LoanRequest: string := "SOLICITAÇÃO DE EMPRÉSTIMO"

  /** The card heading: a current loan once approved, a loan request otherwise. */
  function StatusText(s: string): (r: string)
    ensures r == CurrentLoan <==> s == Approved
    ensures r == LoanRequest <==> s != Approved
  {
    if s == Approved then CurrentLoan else LoanRequest
  }

  /** The card subheading; empty (and so not shown) unless the proposal was decided. */
  function StatusSubtext(s: string): (r: string)
    ensures s == Approved ==> r == "Crédito aprovado"
    ensures s == Rejected ==> r == "Reprovado por score"
    ensures r == "" <==> s != Approved && s != Rejected
  {
    if s == Approved then "Crédito aprovado"
    else if s == Rejected then "Reprovado por score"
    else ""
  }

  /** The number after the heading of the card at `index`: `index + 1`, at least two digits. */
  function CardNumber(index: nat): (r: string)
    ensures |r| >= 2
  {
    PadStart(ToDecimal(index + 1), 2, '0')
  }

  /** A card number reads back as `index + 1`. */
  lemma CardNumberValue(index: nat)
    ensures AllDigits(CardNumber(index))
    ensures ParseDecimal(CardNumber(index)) == index + 1
  {
    ParseZeroPadded(ToDecimal(index + 1), 2);
    ParseToDecimal(index + 1);
  }

  /** The first nine cards are numbered "01" to "09". */
  lemma CardNumberPadded(index: nat)
    requires index < 9
    ensures CardNumber(index) == ['0', DigitChar(index + 1)]
  {
    assert ToDecimal(index + 1) == [DigitChar(index + 1)];
  }

  /** Different cards carry different numbers. */
  lemma CardNumbersDistinct(i: nat, j: nat)
    requires i != j
    ensures CardNumber(i) != CardNumber(j)
  {
    CardNumberValue(i);
    CardNumberValue(j);
  }

  // ---------------------------------------------------------------------------
  // Cards
  // ---------------------------------------------------------------------------

  /**
   * The card's collapsible content, whatever the collapsible's own open or
   * closed state; `total` is "Total Financiado", `moreDetails` the "Mais
   * detalhes" button.
   */
  datatype Details = Details(
    company: string,
    dueDate: string,
    installments: int,
    installmentValue: real,
    total: Option<int>,
    moreDetails: bool)

  /** A card; `details` is present exactly when the card has its collapsible content at all. */
  datatype Card = Card(heading: string, number: string, subtext: Option<string>, details: Option<Details>)

  function CardView(p: Proposal, index: nat, hidden: set<string>): (c: Card)
    ensures c.heading == StatusText(p.status) && c.number == CardNumber(index)
    ensures c.subtext.Some? <==> p.status == Approved || p.status == Rejected
    ensures c.details.Some? <==> p.id !in hidden
    ensures c.details.Some? ==> c.details.value.installments == p.installments
    ensures c.details.Some? ==> (c.details.value.total == Some(p.amount) <==> p.status == Approved)
    ensures c.details.Some? ==> (c.details.value.total.None? <==> p.status != Approved)
    ensures c.details.Some? ==> (c.details.value.moreDetails <==> p.status == Pending)
  {
    var sub := StatusSubtext(p.status);
    Card(
      StatusText(p.status),
      CardNumber(index),
      if sub != "" then Some(sub) else None,
      if p.id in hidden then None
      else Some(Details(p.company, p.dueDate, p.installments, p.installmentValue,
                        if p.status == Approved then Some(p.amount) else None,
                        p.status == Pending)))
  }

  /** Hiding or showing one proposal removes or restores its own card's collapsible content and changes no other card. */
  lemma ToggleOnlyThatCard(p: Proposal, index: nat, hidden: set<string>, id: string)
    ensures p.id == id ==>
      (CardView(p, index, Toggled(hidden, id)).details.Some? <==> CardView(p, index, hidden).details.None?)
    ensures p.id != id ==> CardView(p, index, Toggled(hidden, id)) == CardView(p, index, hidden)
  {
  }

  datatype View = Spinner | Nothing | NoProposals | Cards(cards: seq<Card>)

  function PageView(status: AuthStatus, session: Option<Session>, ps: seq<Proposal>, hidden: set<string>): (r: View)
    ensures r == Spinner <==> status == Loading
    ensures r == Nothing <==> status != Loading && session.None?
    ensures r == NoProposals <==> status != Loading && session.Some? && ps == []
    ensures r.Cards? ==> |r.cards| == |ps|
    ensures r.Cards? ==> forall i :: 0 <= i < |ps| ==> r.cards[i] == CardView(ps[i], i, hidden)
  {
    if status == Loading then Spinner
    else if session.None? then Nothing
    else if ps == [] then NoProposals
    else Cards(seq(|ps|, i requires 0 <= i < |ps| => CardView(ps[i], i, hidden)))
  }

  /** Only an unauthenticated visitor is sent away, to sign in. */
  function Redirect(status: AuthStatus): (r: Option<string>)
    ensures r.Some? <==> status == Unauthenticated
    ensures r.Some? ==> r.value == SignInPath
  {
    if status == Unauthenticated then Some(SignInPath) else None
  }

  // ---------------------------------------------------------------------------
  // Page state
  // ---------------------------------------------------------------------------

  class DashboardPage {
    var proposals: seq<Proposal>
    var hidden: set<string>

    constructor ()
      ensures proposals == [] && hidden == {}
    {
      proposals := [];
      hidden := {};
    }

    /** The listing is replaced only by an ok response; a failure keeps what was shown. */
    method LoadProposals(result: Option<seq<Proposal>>)
      modifies this
      ensures proposals == if result.Some? then result.value else old(proposals)
      ensures hidden == old(hidden)
    {
      if result.Some? {
        proposals := result.value;
      }
    }

    /** The eye button: a copy of the hidden set with the id added or removed replaces it. */
    method ToggleProposalVisibility(id: string)
      modifies this
      ensures hidden == Toggled(old(hidden), id)
      ensures proposals == old(proposals)
    {
      var newHidden := hidden;
      if id in newHidden {
        newHidden := newHidden - {id};
      } else {
        newHidden := newHidden + {id};
      }
      hidden := newHidden;
    }

    /** The cards currently shown for an authenticated user. */
    function Shown(status: AuthStatus, session: Option<Session>): View
      reads this
    {
      PageView(status, session, proposals, hidden)
    }
  }
}

/**
 * The administrator's proposal list (app/propostas/page.tsx): proposals
 * grouped by status, the status labels and badge colours, the local update
 * after an approval or rejection, and who may see the page.
 *
 * The results of the page's `fetch` calls are inputs.
 */
module AdminProposals {
  import opened Wrappers
  import opened Auth
  import opened Browser
  import opened ProposalsApi

  predicate KnownStatus(s: string)
  {
    s == Pending || s == Approved || s == Rejected
  }

  // ---------------------------------------------------------------------------
  // Grouping
  // ---------------------------------------------------------------------------

  /** The proposals with status `s`, in list order. */
  function WithStatus(ps: seq<Proposal>, s: string): (r: seq<Proposal>)
    ensures |r| <= |ps|
    ensures forall p :: p in r <==> p in ps && p.status == s
  {
    if ps == [] then []
    else if ps[0].status == s then [ps[0]] + WithStatus(ps[1..], s)
    else WithStatus(ps[1..], s)
  }

  /** The proposals whose status is none of the three known ones. */
  function Unknown(ps: seq<Proposal>): (r: seq<Proposal>)
    ensures forall p :: p in r <==> p in ps && !KnownStatus(p.status)
  {
    if ps == [] then []
    else if !KnownStatus(ps[0].status) then [ps[0]] + Unknown(ps[1..])
    else Unknown(ps[1..])
  }

  datatype Groups = Groups(pending: seq<Proposal>, approved: seq<Proposal>, rejected: seq<Proposal>)

  function Grouped(ps: seq<Proposal>): (g: Groups)
    ensures forall p :: p in g.pending <==> p in ps && p.status == Pending
    ensures forall p :: p in g.approved <==> p in ps && p.status == Approved
    ensures forall p :: p in g.rejected <==> p in ps && p.status == Rejected
  {
    Groups(WithStatus(ps, Pending), WithStatus(ps, Approved), WithStatus(ps, Rejected))
  }

  /** Every proposal is in exactly one group or has an unknown status. */
  lemma {:induction false} GroupSizes(ps: seq<Proposal>)
    ensures var g := Grouped(ps);
      |g.pending| + |g.approved| + |g.rejected| + |Unknown(ps)| == |ps|
  {
    if ps != [] {
      GroupSizes(ps[1..]);
    }
  }

  /** When every status is a known one, the three groups together hold the whole list. */
  lemma GroupsCoverAll(ps: seq<Proposal>)
    requires forall i :: 0 <= i < |ps| ==> KnownStatus(ps[i].status)
    ensures var g := Grouped(ps);
      |g.pending| + |g.approved| + |g.rejected| == |ps|
  {
    GroupSizes(ps);
    UnknownEmpty(ps);
  }

  lemma {:induction false} UnknownEmpty(ps: seq<Proposal>)
    requires forall i :: 0 <= i < |ps| ==> KnownStatus(ps[i].status)
    ensures Unknown(ps) == []
  {
    if ps != [] {
      assert KnownStatus(ps[0].status);
      UnknownEmpty(ps[1..]);
    }
  }

  /** No proposal is in two groups. */
  lemma GroupsDisjoint(ps: seq<Proposal>, p: Proposal)
    ensures var g := Grouped(ps);
      && !(p in g.pending && p in g.approved)
      && !(p in g.pending && p in g.rejected)
      && !(p in g.approved && p in g.rejected)
  {
  }

  /** Grouping keeps list order: the groups of a concatenation are the concatenated groups. */
  lemma {:induction false} WithStatusAppend(ps: seq<Proposal>, qs: seq<Proposal>, s: string)
    ensures WithStatus(ps + qs, s) == WithStatus(ps, s) + WithStatus(qs, s)
  {
    if ps == [] {
      assert ps + qs == qs;
    } else {
      assert (ps + qs)[0] == ps[0];
      assert (ps + qs)[1..] == ps[1..] + qs;
      WithStatusAppend(ps[1..], qs, s);
    }
  }

  // ---------------------------------------------------------------------------
  // Status update
  // ---------------------------------------------------------------------------

  /** The list with every proposal whose id is `id` given status `s`; nothing else changes. */
  function SetStatus(ps: seq<Proposal>, id: string, s: string): (r: seq<Proposal>)
    ensures |r| == |ps|
    ensures forall i :: 0 <= i < |ps| ==> r[i] == if ps[i].id == id then ps[i].(status := s) else ps[i]
  {
    if ps == [] then []
    else [if ps[0].id == id then ps[0].(status := s) else ps[0]] + SetStatus(ps[1..], id, s)
  }

  /** After the update no proposal with that id is left in another status. */
  lemma SetStatusMoves(ps: seq<Proposal>, id: string, s: string, p: Proposal)
    requires p in SetStatus(ps, id, s) && p.id == id
    ensures p.status == s
  {
  }

  /** Proposals with other ids keep their place in their group. */
  lemma {:induction false} SetStatusOtherIds(ps: seq<Proposal>, id: string, s: string, t: string)
    requires forall i :: 0 <= i < |ps| ==> ps[i].id != id
    ensures WithStatus(SetStatus(ps, id, s), t) == WithStatus(ps, t)
  {
    if ps != [] {
      SetStatusOtherIds(ps[1..], id, s, t);
      assert SetStatus(ps, id, s) == [ps[0]] + SetStatus(ps[1..], id, s);
    }
  }

  /** An update never shrinks the group of the new status. */
  lemma {:induction false} SetStatusGrowsTarget(ps: seq<Proposal>, id: string, s: string)
    ensures |WithStatus(SetStatus(ps, id, s), s)| >= |WithStatus(ps, s)|
  {
    if ps != [] {
      SetStatusGrowsTarget(ps[1..], id, s);
      var q := if ps[0].id == id then ps[0].(status := s) else ps[0];
      assert SetStatus(ps, id, s) == [q] + SetStatus(ps[1..], id, s);
      assert (SetStatus(ps, id, s))[1..] == SetStatus(ps[1..], id, s);
    }
  }

  /** Applying the same update twice is the same as once. */
  lemma SetStatusIdempotent(ps: seq<Proposal>, id: string, s: string)
    ensures SetStatus(SetStatus(ps, id, s), id, s) == SetStatus(ps, id, s)
  {
  }

  // ---------------------------------------------------------------------------
  // Labels
  // ---------------------------------------------------------------------------

  function StatusText(s: string): (r: string)
    ensures s == Pending ==> r == "Pendente"
    ensures s == Approved ==> r == "Aprovado"
    ensures s == Rejected ==> r == "Rejeitado"
    ensures r == "Desconhecido" <==> !KnownStatus(s)
  {
    if s == Pending then "Pendente"
    else if s == Approved then "Aprovado"
    else if s == Rejected then "Rejeitado"
    else "Desconhecido"
  }

  const GrayBadge: string := "bg-gray-100 text-gray-800"

  function StatusColor(s: string): (r: string)
    ensures s == Pending ==> r == "bg-yellow-100 text-yellow-800"
    ensures s == Approved ==> r == "bg-green-100 text-green-800"
    ensures s == Rejected ==> r == "bg-red-100 text-red-800"
    ensures r == GrayBadge <==> !KnownStatus(s)
  {
    if s == Pending then "bg-yellow-100 text-yellow-800"
    else if s == Approved then "bg-green-100 text-green-800"
    else if s == Rejected then "bg-red-100 text-red-800"
    else GrayBadge
  }

  /** Known statuses have different labels and different colours. */
  lemma LabelsDistinguish(a: string, b: string)
    requires KnownStatus(a) && KnownStatus(b) && a != b
    ensures StatusText(a) != StatusText(b)
    ensures StatusColor(a) != StatusColor(b)
  {
  }

  // ---------------------------------------------------------------------------
  // Access
  // ---------------------------------------------------------------------------

  /**
   * The page's redirect effect as written: anyone who is not unauthenticated
   * and has no admin role in the current session data is sent to the
   * dashboard, which includes the moment the session is still loading.
   */
  function RedirectAsWritten(status: AuthStatus, session: Option<Session>): (r: Option<string>)
    ensures r == Some(SignInPath) <==> status == Unauthenticated
    ensures r.None? <==> status != Unauthenticated && RoleOf(session) == Some(AdminRole)
  {
    if status == Unauthenticated then Some(SignInPath)
    else if RoleOf(session) != Some(AdminRole) then Some(DashboardPath)
    else None
  }

  /**
   * While the session loads there is no session data yet, so an
   * administrator opening the page is sent to the dashboard.
   */
  lemma AdminSentAwayWhileLoading()
    ensures RedirectAsWritten(Loading, None) == Some(DashboardPath)
  {
  }

  /** The redirect as evidently intended: nothing happens until the session status is known. */
  function Redirect(status: AuthStatus, session: Option<Session>): (r: Option<string>)
    ensures status == Loading ==> r.None?
    ensures status != Loading ==> r == RedirectAsWritten(status, session)
  {
    if status == Loading then None else RedirectAsWritten(status, session)
  }

  /** An administrator is never sent away, whether or not the session has loaded. */
  lemma AdminStays(status: AuthStatus, session: Option<Session>)
    requires status != Unauthenticated
    requires status == Loading || RoleOf(session) == Some(AdminRole)
    ensures Redirect(status, session).None?
  {
  }

  /** Once the status is known, only an authenticated administrator stays. */
  lemma OnlyAdminStays(status: AuthStatus, session: Option<Session>)
    requires status != Loading && Redirect(status, session).None?
    ensures status == Authenticated && RoleOf(session) == Some(AdminRole)
  {
  }

  datatype View = Spinner | Nothing | Page(groups: Groups)

  /** "Carregando..." while loading, nothing for a non-administrator, otherwise the groups. */
  function PageView(status: AuthStatus, loading: bool, session: Option<Session>, ps: seq<Proposal>): (r: View)
    ensures r == Spinner <==> status == Loading || loading
    ensures r.Page? ==> RoleOf(session) == Some(AdminRole) && r.groups == Grouped(ps)
    ensures r == Nothing <==> status != Loading && !loading && RoleOf(session) != Some(AdminRole)
  {
    if status == Loading || loading then Spinner
    else if session.None? || RoleOf(session) != Some(AdminRole) then Nothing
    else Page(Grouped(ps))
  }

  // ---------------------------------------------------------------------------
  // Page state
  // ---------------------------------------------------------------------------

  /** How a `fetch` ended: an ok response with its payload, a response that is not ok, or a thrown error. */
  datatype FetchResult<T> = Ok(payload: T) | NotOk | Threw

  class AdminProposalsPage {
    var proposals: seq<Proposal>
    var loading: bool

    constructor ()
      ensures proposals == [] && loading
    {
      proposals := [];
      loading := true;
    }

    /** The list is replaced only by an ok response; loading ends however the request ends. */
    method LoadProposals(result: FetchResult<seq<Proposal>>)
      modifies this
      ensures !loading
      ensures proposals == if result.Ok? then result.payload else old(proposals)
    {
      if result.Ok? {
        proposals := result.payload;
      }
      loading := false;
    }

    /**
     * Approve or reject: only an ok answer to the PATCH request changes the
     * list, and then only the status of the proposals with that id.
     */
    method UpdateProposalStatus(id: string, newStatus: string, result: FetchResult<()>)
      requires newStatus == Approved || newStatus == Rejected
      modifies this
      ensures proposals == if result.Ok? then SetStatus(old(proposals), id, newStatus) else old(proposals)
      ensures loading == old(loading)
    {
      if result.Ok? {
        proposals := SetStatus(proposals, id, newStatus);
      }
    }
  }
}

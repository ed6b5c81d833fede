/**
 * The proposals endpoint (app/api/proposals/route.ts): a module-level list of
 * loan proposals that lives as long as the server process, read per user by
 * GET and extended by POST.
 *
 * The session `getServerSession` finds, the parsed request body (absent when
 * the body is not valid JSON) and the clock readings are parameters.
 */
module ProposalsApi {
  import opened Wrappers
  import opened Decimal
  import opened Auth

  /** A stored proposal. The user fields come from the session and may be missing. */
  datatype Proposal = Proposal(
    id: string,
    userId: Option<string>,
    userName: Option<string>,
    userEmail: Option<string>,
    status: string,
    amount: int,
    installments: int,
    installmentValue: real,
    company: string,
    dueDate: string,
    createdAt: string)

  /** The JSON body a client posts. */
  datatype ProposalRequest = ProposalRequest(amount: int, installments: int, installmentValue: real)

  datatype ResponseBody =
    | Failure(error: string)
    | Listing(proposals: seq<Proposal>)
    | Created(proposal: Proposal)

  datatype Response = Response(status: int, body: ResponseBody)

  const Pending: string := "pending"
  const Approved: string := "approved"
  const Rejected: string := "rejected"
  const LenderCompany: string := "Seguros Seguradora"

  const Unauthorized: Response := Response(401, Failure("Unauthorized"))
  const ServerError: Response := Response(500, Failure("Internal server error"))

  /** The two proposals the store starts with; their creation times are read at start-up. */
  function InitialProposals(createdAt1: string, createdAt2: string): (r: seq<Proposal>)
    ensures |r| == 2
    ensures r[0].id == "1" && r[0].status == Approved && r[0].userId == Some("2")
    ensures r[1].id == "2" && r[1].status == Pending && r[1].userId == Some("2")
    ensures forall i :: 0 <= i < |r| ==> r[i].installments * r[i].installmentValue.Floor == r[i].amount
  {
    [ Proposal("1", Some("2"), Some("Regular User"), Some("user@credifit.com"), Approved,
               10000, 2, 5000.0, LenderCompany, "29/11/2022", createdAt1),
      Proposal("2", Some("2"), Some("Regular User"), Some("user@credifit.com"), Pending,
               15000, 3, 5000.0, LenderCompany, "29/12/2022", createdAt2) ]
  }

  /** The proposals whose `userId` equals `uid` (both may be missing), in storage order. */
  function ProposalsOf(ps: seq<Proposal>, uid: Option<string>): (r: seq<Proposal>)
    ensures |r| <= |ps|
    ensures forall p :: p in r <==> p in ps && p.userId == uid
  {
    if ps == [] then []
    else if ps[0].userId == uid then [ps[0]] + ProposalsOf(ps[1..], uid)
    else ProposalsOf(ps[1..], uid)
  }

  /** Filtering distributes over concatenation, so storage order is kept. */
  lemma {:induction false} ProposalsOfAppend(ps: seq<Proposal>, qs: seq<Proposal>, uid: Option<string>)
    ensures ProposalsOf(ps + qs, uid) == ProposalsOf(ps, uid) + ProposalsOf(qs, uid)
  {
    if ps == [] {
      assert ps + qs == qs;
    } else {
      assert (ps + qs)[0] == ps[0];
      assert (ps + qs)[1..] == ps[1..] + qs;
      ProposalsOfAppend(ps[1..], qs, uid);
    }
  }

  /** The record a POST creates from the session and the body. */
  function NewProposal(session: Session, body: ProposalRequest, now: nat, dueDate: string, createdAt: string): (p: Proposal)
    ensures p.status == Pending && p.company == LenderCompany
    ensures p.amount == body.amount && p.installments == body.installments
    ensures p.installmentValue == body.installmentValue
    ensures p.userId == UserIdOf(session)
    ensures p.userName == (if session.user.Some? then session.user.value.name else None)
    ensures p.userEmail == (if session.user.Some? then session.user.value.email else None)
    ensures p.dueDate == dueDate && p.createdAt == createdAt
    ensures AllDigits(p.id) && ParseDecimal(p.id) == now
  {
    ParseToDecimal(now);
    var user := session.user;
    Proposal(
      ToDecimal(now),
      UserIdOf(session),
      if user.Some? then user.value.name else None,
      if user.Some? then user.value.email else None,
      Pending,
      body.amount,
      body.installments,
      body.installmentValue,
      LenderCompany,
      dueDate,
      createdAt)
  }

  /** The server-side list of proposals. */
  class ProposalStore {
    var proposals: seq<Proposal>

    constructor (createdAt1: string, createdAt2: string)
      ensures proposals == InitialProposals(createdAt1, createdAt2)
    {
      proposals := InitialProposals(createdAt1, createdAt2);
    }

    /** GET: 401 without a session, otherwise the session user's proposals. */
    method Get(session: Option<Session>) returns (resp: Response)
      ensures session.None? ==> resp == Unauthorized
      ensures session.Some? ==> resp.status == 200 && resp.body.Listing?
      ensures session.Some? ==> forall p :: p in resp.body.proposals <==>
        p in proposals && p.userId == UserIdOf(session.value)
      ensures session.Some? ==> resp.body.proposals == ProposalsOf(proposals, UserIdOf(session.value))
    {
      if session.None? {
        return Unauthorized;
      }
      resp := Response(200, Listing(ProposalsOf(proposals, UserIdOf(session.value))));
    }

    /**
     * POST: 401 without a session and 500 when the body cannot be read, both
     * leaving the list as it was; otherwise one pending proposal is appended
     * and returned with status 201.
     */
    method Post(session: Option<Session>, body: Option<ProposalRequest>, now: nat, dueDate: string, createdAt: string)
      returns (resp: Response)
      modifies this
      ensures session.None? ==> resp == Unauthorized && proposals == old(proposals)
      ensures session.Some? && body.None? ==> resp == ServerError && proposals == old(proposals)
      ensures session.Some? && body.Some? ==>
        var p := NewProposal(session.value, body.value, now, dueDate, createdAt);
        && resp == Response(201, Created(p))
        && proposals == old(proposals) + [p]
    {
      if session.None? {
        return Unauthorized;
      }
      if body.None? {
        return ServerError;
      }
      var p := NewProposal(session.value, body.value, now, dueDate, createdAt);
      proposals := proposals + [p];
      resp := Response(201, Created(p));
    }
  }

  /** After a POST, the posting user's listing ends with the new proposal, after what it held before. */
  lemma PostThenGet(ps: seq<Proposal>, p: Proposal, uid: Option<string>)
    requires p.userId == uid
    ensures ProposalsOf(ps + [p], uid) == ProposalsOf(ps, uid) + [p]
  {
    ProposalsOfAppend(ps, [p], uid);
    assert ProposalsOf([p], uid) == [p] by {
      assert [p][1..] == [];
    }
  }

  /** Another user's POST does not change a listing. */
  lemma PostOtherUser(ps: seq<Proposal>, p: Proposal, uid: Option<string>)
    requires p.userId != uid
    ensures ProposalsOf(ps + [p], uid) == ProposalsOf(ps, uid)
  {
    ProposalsOfAppend(ps, [p], uid);
    assert ProposalsOf([p], uid) == [] by {
      assert [p][1..] == [];
    }
    assert ProposalsOf(ps, uid) + [] == ProposalsOf(ps, uid);
  }

  /** At start-up user "2" sees both stored proposals and any other user sees none. */
  lemma InitialListing(createdAt1: string, createdAt2: string, uid: Option<string>)
    ensures uid == Some("2") ==> ProposalsOf(InitialProposals(createdAt1, createdAt2), uid) == InitialProposals(createdAt1, createdAt2)
    ensures uid != Some("2") ==> ProposalsOf(InitialProposals(createdAt1, createdAt2), uid) == []
  {
    var ps := InitialProposals(createdAt1, createdAt2);
    assert ps == [ps[0]] + [ps[1]];
    ProposalsOfAppend([ps[0]], [ps[1]], uid);
    assert [ps[0]][1..] == [] && [ps[1]][1..] == [];
  }

  // ---------------------------------------------------------------------------
  // Which session the handlers see
  // ---------------------------------------------------------------------------

  /**
   * Both handlers call `getServerSession()` without the authentication
   * handler's options, so every signed-in user's session has no id. The
   * seeded proposals then appear in nobody's listing, and a proposal posted
   * by one user appears in every user's listing.
   */
  lemma DefaultSessionsShareListing(ps: seq<Proposal>, poster: Token, reader: Token, body: ProposalRequest,
                                    now: nat, dueDate: string, createdAt: string, createdAt1: string, createdAt2: string)
    ensures ProposalsOf(InitialProposals(createdAt1, createdAt2), UserIdOf(DefaultSession(reader))) == []
    ensures var p := NewProposal(DefaultSession(poster), body, now, dueDate, createdAt);
      ProposalsOf(ps + [p], UserIdOf(DefaultSession(reader))) == ProposalsOf(ps, UserIdOf(DefaultSession(reader))) + [p]
  {
    InitialListing(createdAt1, createdAt2, None);
    PostThenGet(ps, NewProposal(DefaultSession(poster), body, now, dueDate, createdAt), None);
  }

  /**
   * With the handler's options the session carries the user's id: the seeded
   * proposals are user "2"'s, a user's POST extends that user's listing, and
   * it leaves every other user's listing as it was.
   */
  lemma ConfiguredSessionsSeparateListings(ps: seq<Proposal>, poster: Token, reader: Token, body: ProposalRequest,
                                           now: nat, dueDate: string, createdAt: string, createdAt1: string, createdAt2: string)
    ensures reader.sub == Some("2") ==>
      ProposalsOf(InitialProposals(createdAt1, createdAt2), UserIdOf(ConfiguredSession(reader)))
        == InitialProposals(createdAt1, createdAt2)
    ensures var p := NewProposal(ConfiguredSession(poster), body, now, dueDate, createdAt);
      ProposalsOf(ps + [p], poster.sub) == ProposalsOf(ps, poster.sub) + [p]
    ensures var p := NewProposal(ConfiguredSession(poster), body, now, dueDate, createdAt);
      reader.sub != poster.sub ==>
        ProposalsOf(ps + [p], UserIdOf(ConfiguredSession(reader))) == ProposalsOf(ps, UserIdOf(ConfiguredSession(reader)))
  {
    var p := NewProposal(ConfiguredSession(poster), body, now, dueDate, createdAt);
    InitialListing(createdAt1, createdAt2, reader.sub);
    PostThenGet(ps, p, poster.sub);
    if reader.sub != poster.sub {
      PostOtherUser(ps, p, reader.sub);
    }
  }
}

/**
 * The admin dashboard page (`/admin/dashboard`): the server-side session
 * guard and the serialisation of the application list into page props, the
 * per-row label and action rules, and the two handlers that change the
 * page's state, status update and logout.
 */
module AdminDashboard {
  import opened Wrappers
  import opened Text
  import opened Http
  import opened Session
  import Db

  const LoginPath := "/admin/login"
  const PendingAnalysis := "pending_analysis"
  const LoadErrorMessage := "Erro ao carregar dados das aplicações."
  const LogoutFailedMessage := "Falha ao fazer logout."

  /** The offer part of a row: `include: { offer: { select: { caseNumber, offerAmount } } }`, amount as text. */
  datatype RowOffer = RowOffer(caseNumber: string, offerAmount: string)

  /** An application as the page holds it: dates as ISO text, the offer if linked. */
  datatype Row = Row(
    id: string,
    data: map<string, string>,
    status: string,
    offerId: string,
    createdAt: string,
    updatedAt: string,
    offer: Option<RowOffer>)

  /** What `getServerSideProps` returns. */
  datatype PageResult =
    | Redirect(destination: string, permanent: bool)
    | Props(applications: seq<Row>, adminUser: SessionUser, serverError: Option<string>)

  // ---------------------------------------------------------------------------
  // getServerSideProps

  /** One application with its offer, made JSON-safe. */
  function Serialize(app: Db.Application, offers: seq<Db.Offer>): (r: Row)
    ensures r.id == app.id && r.data == app.data && r.status == app.status && r.offerId == app.offerId
    ensures r.createdAt == app.createdAt.iso && r.updatedAt == app.updatedAt.iso
    ensures r.offer.None? <==> Db.OfferById(offers, app.offerId).None?
    ensures r.offer.Some? ==>
              var o := Db.OfferById(offers, app.offerId).value;
              r.offer.value == RowOffer(o.caseNumber, o.offerAmount.text)
  {
    var offer := match Db.OfferById(offers, app.offerId)
      case Some(o) => Some(RowOffer(o.caseNumber, o.offerAmount.text))
      case None => None;
    Row(app.id, app.data, app.status, app.offerId, app.createdAt.iso, app.updatedAt.iso, offer)
  }

  /** `applicationsData.map(...)`: one row per application, in the same order. */
  function SerializeAll(apps: seq<Db.Application>, offers: seq<Db.Offer>): (rows: seq<Row>)
    ensures |rows| == |apps|
    ensures forall i :: 0 <= i < |apps| ==> rows[i] == Serialize(apps[i], offers)
  {
    if apps == [] then [] else [Serialize(apps[0], offers)] + SerializeAll(apps[1..], offers)
  }

  /**
   * `getServerSideProps`. `adminUser` is what the session holds, `apps` and
   * `offers` the two tables, `dbFails` says that the query throws.
   */
  function ServerSideProps(adminUser: Option<SessionUser>, apps: seq<Db.Application>,
                           offers: seq<Db.Offer>, dbFails: bool): (r: PageResult)
    ensures !SignedIn(adminUser) <==> r.Redirect?
    ensures r.Redirect? ==> r.destination == LoginPath && !r.permanent
    ensures r.Props? ==> r.adminUser == adminUser.value
    ensures r.Props? && dbFails ==> r.applications == [] && r.serverError == Some(LoadErrorMessage)
    ensures r.Props? && !dbFails ==>
              r.applications == SerializeAll(Db.SortNewestFirst(apps), offers) && r.serverError.None?
  {
    if !SignedIn(adminUser) then Redirect(LoginPath, false)
    else if dbFails then Props([], adminUser.value, Some(LoadErrorMessage))
    else Props(SerializeAll(Db.SortNewestFirst(apps), offers), adminUser.value, None)
  }

  /**
   * The page lists every application once, newest first, each turned into
   * text dates with its own id.
   */
  lemma {:induction false} PropsListEveryApplication(adminUser: Option<SessionUser>, apps: seq<Db.Application>,
                                                     offers: seq<Db.Offer>)
    requires SignedIn(adminUser)
    ensures var rows := ServerSideProps(adminUser, apps, offers, false).applications;
            var sorted := Db.SortNewestFirst(apps);
            && |rows| == |apps|
            && multiset(sorted) == multiset(apps) && Db.NewestFirst(sorted)
            && forall i :: 0 <= i < |rows| ==>
                 rows[i].id == sorted[i].id && rows[i].createdAt == sorted[i].createdAt.iso
  {
    var sorted := Db.SortNewestFirst(apps);
    assert |sorted| == |multiset(sorted)| == |multiset(apps)| == |apps|;
  }

  // ---------------------------------------------------------------------------
  // Row rules

  /** `status.replace('_', ' ')`: the first underscore, and only that one, becomes a space. */
  function StatusLabel(status: string): (r: string)
    ensures |r| == |status|
    ensures forall i :: 0 <= i < |status| && status[i] != '_' ==> r[i] == status[i]
    ensures forall i :: 0 <= i < |status| && status[i] == '_' && (forall j :: 0 <= j < i ==> status[j] != '_') ==>
              r[i] == ' '
    ensures forall i, j :: 0 <= j < i < |status| && status[j] == '_' ==> r[i] == status[i]
  {
    if status == [] then []
    else if status[0] == '_' then [' '] + status[1..]
    else [status[0]] + StatusLabel(status[1..])
  }

  /** The statuses the approve and reject buttons of a row send: only a pending row has them. */
  function RowActions(status: string): (r: seq<string>)
    ensures r != [] <==> status == PendingAnalysis
    ensures r != [] ==> r == ["approved", "rejected"]
  {
    if status == PendingAnalysis then ["approved", "rejected"] else []
  }

  /** `setApplications(apps.map(app => app.id === id ? updated : app))` */
  function ReplaceById(apps: seq<Row>, id: string, updated: Row): (r: seq<Row>)
    ensures |r| == |apps|
    ensures forall i :: 0 <= i < |apps| && apps[i].id == id ==> r[i] == updated
    ensures forall i :: 0 <= i < |apps| && apps[i].id != id ==> r[i] == apps[i]
  {
    if apps == [] then []
    else [if apps[0].id == id then updated else apps[0]] + ReplaceById(apps[1..], id, updated)
  }

  /** When the server answers with the same id, applying the answer twice changes nothing more. */
  lemma {:induction false} ReplaceByIdIdempotent(apps: seq<Row>, id: string, updated: Row)
    requires updated.id == id
    ensures ReplaceById(ReplaceById(apps, id, updated), id, updated) == ReplaceById(apps, id, updated)
  {
    var once := ReplaceById(apps, id, updated);
    var twice := ReplaceById(once, id, updated);
    forall i | 0 <= i < |apps| ensures twice[i] == once[i] {
      if apps[i].id == id {
        assert once[i] == updated;
      }
    }
  }

  /** The logout reply: the HTTP status and the body's `isLoggedIn` and `message`, or a network failure. */
  datatype LogoutReply =
    | LogoutReply(ok: bool, isLoggedIn: Option<bool>, message: Option<string>)
    | LogoutUnreachable(reason: string)

  /** `response.ok && data.isLoggedIn === false`: anything but an explicit `false` is a failure. */
  predicate LogoutSucceeded(reply: LogoutReply)
    ensures LogoutSucceeded(reply) ==> reply.LogoutReply? && reply.ok
    ensures reply.LogoutReply? && reply.isLoggedIn != Some(false) ==> !LogoutSucceeded(reply)
    ensures reply.LogoutUnreachable? ==> !LogoutSucceeded(reply)
  {
    reply.LogoutReply? && reply.ok && reply.isLoggedIn == Some(false)
  }

  /** The text shown when a status update fails. */
  function UpdateErrorText(applicationId: string, message: string): (r: string)
    ensures StartsWith(r, "Erro ao atualizar " + applicationId + ": ")
    ensures EndsWith(r, message)
  {
    var prefix := "Erro ao atualizar " + applicationId + ": ";
    assert (prefix + message)[..|prefix|] == prefix;
    assert (prefix + message)[|prefix|..] == message;
    prefix + message
  }

  /** The PATCH request a status update sends. */
  datatype StatusUpdate = StatusUpdate(applicationId: string, status: string)

  // ---------------------------------------------------------------------------
  // The page's state

  /** The state of the `AdminDashboard` component. */
  class Dashboard {
    var applications: seq<Row>
    var isUpdating: Option<string>
    var updateError: Option<string>
    var isLoggingOut: bool
    var generalError: Option<string>
    /** Where `router.push` has sent the browser, if anywhere. */
    var location: Option<string>

    /** No request is pending between two handlers. */
    ghost predicate Idle()
      reads this
    {
      isUpdating.None? && !isLoggingOut
    }

    /** `useState(initialApplications || [])` and the other initial states. */
    constructor (initialApplications: Option<seq<Row>>)
      ensures Idle()
      ensures applications == initialApplications.GetOr([])
      ensures updateError.None? && generalError.None? && location.None?
    {
      applications := initialApplications.GetOr([]);
      isUpdating := None;
      updateError := None;
      isLoggingOut := false;
      generalError := None;
      location := None;
    }

    /**
     * `handleUpdateStatus`. `reply` is what the PATCH request comes back
     * with: the updated application, or a failure.
     */
    method HandleUpdateStatus(applicationId: string, newStatus: string, reply: FetchResult<Row>)
      returns (sent: StatusUpdate)
      requires Idle()
      modifies this`applications, this`isUpdating, this`updateError
      ensures Idle()
      ensures sent == StatusUpdate(applicationId, newStatus)
      ensures match reply
        case Ok(updated) =>
          applications == ReplaceById(old(applications), applicationId, updated) && updateError.None?
        case NotOk(status, message) =>
          && applications == old(applications)
          && updateError == Some(UpdateErrorText(applicationId, MessageOr(message, "Erro " + NatToString(status))))
        case Failed(reason) =>
          applications == old(applications) && updateError == Some(UpdateErrorText(applicationId, reason))
    {
      isUpdating := Some(applicationId);
      updateError := None;
      sent := StatusUpdate(applicationId, newStatus);
      match reply {
        case Ok(updated) =>
          applications := ReplaceById(applications, applicationId, updated);
        case NotOk(status, message) =>
          updateError := Some(UpdateErrorText(applicationId, MessageOr(message, "Erro " + NatToString(status))));
        case Failed(reason) =>
          updateError := Some(UpdateErrorText(applicationId, reason));
      }
      isUpdating := None;
    }

    /** `handleLogout`: to the login page on a confirmed logout, else an error. */
    method HandleLogout(reply: LogoutReply)
      requires Idle()
      modifies this`isLoggingOut, this`updateError, this`generalError, this`location
      ensures Idle() && updateError.None?
      ensures LogoutSucceeded(reply) ==> location == Some(LoginPath) && generalError.None?
      ensures !LogoutSucceeded(reply) ==>
                && location == old(location)
                && generalError == Some("Erro ao fazer logout: " +
                     match reply
                     case LogoutReply(_, _, message) => MessageOr(message, LogoutFailedMessage)
                     case LogoutUnreachable(reason) => reason)
    {
      isLoggingOut := true;
      updateError := None;
      generalError := None;
      match reply {
        case LogoutReply(ok, isLoggedIn, message) =>
          if ok && isLoggedIn == Some(false) {
            location := Some(LoginPath);
          } else {
            generalError := Some("Erro ao fazer logout: " + MessageOr(message, LogoutFailedMessage));
          }
        case LogoutUnreachable(reason) =>
          generalError := Some("Erro ao fazer logout: " + reason);
      }
      isLoggingOut := false;
    }
  }
}

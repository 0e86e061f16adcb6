/**
 * The admin listing route (`GET /api/admin/applications`): the session is
 * checked before the method, and the listing is every application, newest
 * first, each with its offer's case number.
 */
module AdminApplicationsApi {
  import opened Wrappers
  import opened Http
  import opened Session
  import Db

  const AuthRequiredMessage := "Autenticação necessária."
  const ListErrorMessage := "Erro interno no servidor ao buscar aplicações."

  /** `include: { offer: { select: { caseNumber: true } } }` */
  datatype OfferCase = OfferCase(caseNumber: string)

  /** An application as listed, with the part of its offer the route includes. */
  datatype Listed = Listed(application: Db.Application, offer: Option<OfferCase>)

  datatype Reply = Applications(list: seq<Listed>) | Message(message: string)

  /** Each application of `sorted`, in the same order, joined with its offer's case number. */
  function WithCaseNumbers(sorted: seq<Db.Application>, offers: seq<Db.Offer>): (r: seq<Listed>)
    ensures |r| == |sorted|
    ensures forall i :: 0 <= i < |r| ==> r[i].application == sorted[i]
    ensures forall i :: 0 <= i < |r| ==>
              (r[i].offer.Some? <==> Db.OfferById(offers, sorted[i].offerId).Some?)
    ensures forall i :: 0 <= i < |r| && r[i].offer.Some? ==>
              r[i].offer.value.caseNumber == Db.OfferById(offers, sorted[i].offerId).value.caseNumber
  {
    if sorted == [] then []
    else
      var offer := match Db.OfferById(offers, sorted[0].offerId)
        case Some(o) => Some(OfferCase(o.caseNumber))
        case None => None;
      [Listed(sorted[0], offer)] + WithCaseNumbers(sorted[1..], offers)
  }

  /** `findMany({ orderBy: { createdAt: 'desc' }, include: { offer: ... } })` */
  function Listing(apps: seq<Db.Application>, offers: seq<Db.Offer>): (r: seq<Listed>)
    ensures |r| == |apps|
    ensures forall i, j :: 0 <= i < j < |r| ==>
              r[i].application.createdAt.millis >= r[j].application.createdAt.millis
    ensures forall i :: 0 <= i < |r| ==>
              (r[i].offer.Some? <==> Db.OfferById(offers, r[i].application.offerId).Some?)
  {
    var sorted := Db.SortNewestFirst(apps);
    assert |sorted| == |multiset(sorted)| == |multiset(apps)| == |apps|;
    WithCaseNumbers(sorted, offers)
  }

  /** The application rows of a listing, in its order. */
  function Rows(list: seq<Listed>): (rows: seq<Db.Application>)
    ensures |rows| == |list| && forall i :: 0 <= i < |list| ==> rows[i] == list[i].application
  {
    seq(|list|, i requires 0 <= i < |list| => list[i].application)
  }

  /**
   * The listing holds every application exactly once, newest `createdAt`
   * first.
   */
  lemma {:induction false} ListingIsNewestFirst(apps: seq<Db.Application>, offers: seq<Db.Offer>)
    ensures Db.NewestFirst(Rows(Listing(apps, offers)))
    ensures multiset(Rows(Listing(apps, offers))) == multiset(apps)
  {
    assert Rows(Listing(apps, offers)) == Db.SortNewestFirst(apps);
  }

  /**
   * The route `handler`. `adminUser` is what the session holds, `apps` and
   * `offers` the two tables, `dbFails` says that the listing query throws.
   */
  method List(verb: string, adminUser: Option<SessionUser>, apps: seq<Db.Application>,
              offers: seq<Db.Offer>, dbFails: bool)
    returns (res: Response<Reply>)
    ensures !SignedIn(adminUser) ==> res == Response(401, [], Message(AuthRequiredMessage))
    ensures SignedIn(adminUser) && verb != "GET" ==>
              res == Response(405, ["GET"], Message(NotAllowedMessage(verb)))
    ensures SignedIn(adminUser) && verb == "GET" && dbFails ==>
              res == Response(500, [], Message(ListErrorMessage))
    ensures SignedIn(adminUser) && verb == "GET" && !dbFails ==>
              res == Response(200, [], Applications(Listing(apps, offers)))
  {
    if !SignedIn(adminUser) {
      return Response(401, [], Message(AuthRequiredMessage));
    }
    if verb != "GET" {
      return Response(405, ["GET"], Message(NotAllowedMessage(verb)));
    }
    if dbFails {
      return Response(500, [], Message(ListErrorMessage));
    }
    var applications := Db.SortNewestFirst(apps);
    res := Response(200, [], Applications(WithCaseNumbers(applications, offers)));
  }
}

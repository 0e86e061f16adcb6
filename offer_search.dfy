/**
 * The offer search route (`POST /api/offers/search`): the request checks,
 * then one lookup by case number or by name over the offer table, of which
 * only an offer still `available` is ever returned.
 */
module OfferSearchApi {
  import opened Wrappers
  import opened Text
  import opened Http
  import Db

  const Available := "available"

  const MissingParamsMessage :=
    "Tipo de busca (searchType) e termo de busca (searchTerm) são obrigatórios."
  const InvalidTypeMessage := "Tipo de busca inválido. Use \"caseNumber\" ou \"name\"."
  const NotFoundMessage := "Nenhuma oferta disponível encontrada para os dados informados."
  const ServerErrorMessage := "Erro interno no servidor ao buscar oferta."

  /** The JSON body; a field the client left out is `None`. */
  datatype SearchBody = SearchBody(searchType: Option<string>, searchTerm: Option<string>)

  /** The columns the route selects from an offer row. */
  datatype OfferSummary = OfferSummary(
    id: string, caseNumber: string, name: string, offerAmount: Db.Decimal, status: string)

  /** The JSON the route answers with. */
  datatype Reply = Found(offer: OfferSummary) | Message(message: string)

  /** A JavaScript falsy body field: absent or the empty string. */
  predicate Falsy(v: Option<string>) {
    v.None? || v.value == ""
  }

  function Summary(o: Db.Offer): (r: OfferSummary)
    ensures r.id == o.id && r.caseNumber == o.caseNumber && r.name == o.name
    ensures r.offerAmount == o.offerAmount && r.status == o.status
  {
    OfferSummary(o.id, o.caseNumber, o.name, o.offerAmount, o.status)
  }

  /** `findUnique({ where: { caseNumber } })`, whatever the offer's status. */
  function ByCaseNumber(offers: seq<Db.Offer>, term: string): (r: Option<Db.Offer>)
    ensures r.Some? ==> r.value in offers && r.value.caseNumber == term
    ensures r.None? <==> forall o :: o in offers ==> o.caseNumber != term
  {
    if offers == [] then None
    else if offers[0].caseNumber == term then Some(offers[0])
    else ByCaseNumber(offers[1..], term)
  }

  /** The rows `findFirst` may match by name: available, and equal to `term` up to letter case. */
  predicate NameMatches(o: Db.Offer, term: string) {
    o.status == Available && EqualsIgnoringCase(o.name, term)
  }

  /** `findFirst({ where: { name: { equals: term, mode: 'insensitive' }, status: 'available' } })`. */
  function AvailableByName(offers: seq<Db.Offer>, term: string): (r: Option<Db.Offer>)
    ensures r.Some? ==> r.value in offers && NameMatches(r.value, term)
    ensures r.None? <==> forall o :: o in offers ==> !NameMatches(o, term)
  {
    if offers == [] then None
    else if NameMatches(offers[0], term) then Some(offers[0])
    else AvailableByName(offers[1..], term)
  }

  /** Every case number in the table is held by one row at most. */
  predicate UniqueCaseNumbers(offers: seq<Db.Offer>) {
    forall i, j :: 0 <= i < j < |offers| ==> offers[i].caseNumber != offers[j].caseNumber
  }

  /**
   * The offer the route answers with for a valid `searchType` and the
   * trimmed term: the case-number match nulled unless available, or the
   * first available name match.
   */
  function Selected(searchType: string, term: string, offers: seq<Db.Offer>): (r: Option<Db.Offer>)
    requires searchType == "caseNumber" || searchType == "name"
    ensures r.Some? ==> r.value in offers && r.value.status == Available
    ensures r.Some? && searchType == "caseNumber" ==> r.value.caseNumber == term
    ensures r.Some? && searchType == "name" ==> EqualsIgnoringCase(r.value.name, term)
  {
    if searchType == "caseNumber" then
      match ByCaseNumber(offers, term)
      case Some(o) => if o.status != Available then None else Some(o)
      case None => None
    else
      AvailableByName(offers, term)
  }

  /**
   * With case numbers unique, a case-number search finds nothing exactly
   * when no available offer carries that case number.
   */
  lemma {:induction false} CaseNumberNotFound(term: string, offers: seq<Db.Offer>)
    requires UniqueCaseNumbers(offers)
    ensures Selected("caseNumber", term, offers).None? <==>
            forall o :: o in offers && o.caseNumber == term ==> o.status != Available
  {
    var found := ByCaseNumber(offers, term);
    if found.Some? {
      forall o | o in offers && o.caseNumber == term ensures o == found.value {
        var i :| 0 <= i < |offers| && offers[i] == o;
        var j :| 0 <= j < |offers| && offers[j] == found.value;
        assert offers[i].caseNumber == offers[j].caseNumber;
      }
    }
  }

  /** A name search gives the same offer whatever the letter case of the term. */
  lemma {:induction false} NameSearchIgnoresCase(offers: seq<Db.Offer>, term: string)
    ensures AvailableByName(offers, term) == AvailableByName(offers, ToLower(term))
    decreases |offers|
  {
    ToLowerIdempotent(term);
    if offers != [] {
      NameSearchIgnoresCase(offers[1..], term);
    }
  }

  /**
   * The route `handler`. `offers` is the offer table; `dbFails` says that
   * the lookup throws.
   */
  method Search(verb: string, body: SearchBody, offers: seq<Db.Offer>, dbFails: bool)
    returns (res: Response<Reply>)
    ensures verb != "POST" ==> res == Response(405, ["POST"], Message(NotAllowedMessage(verb)))
    ensures verb == "POST" && (Falsy(body.searchType) || Falsy(body.searchTerm)) ==>
              res == Response(400, [], Message(MissingParamsMessage))
    ensures verb == "POST" && !Falsy(body.searchType) && !Falsy(body.searchTerm) ==>
              var searchType := body.searchType.value;
              var term := Trim(body.searchTerm.value);
              if searchType != "caseNumber" && searchType != "name" then
                res == Response(400, [], Message(InvalidTypeMessage))
              else if dbFails then
                res == Response(500, [], Message(ServerErrorMessage))
              else match Selected(searchType, term, offers)
                case Some(o) => res == Response(200, [], Found(Summary(o)))
                case None => res == Response(404, [], Message(NotFoundMessage))
    ensures res.status == 200 ==> res.body.Found? && res.body.offer.status == Available
    ensures res.allow != [] <==> res.status == 405
  {
    if verb != "POST" {
      return Response(405, ["POST"], Message(NotAllowedMessage(verb)));
    }
    if Falsy(body.searchType) || Falsy(body.searchTerm) {
      return Response(400, [], Message(MissingParamsMessage));
    }
    var searchType := body.searchType.value;
    var result: Option<Db.Offer> := None;
    var term := Trim(body.searchTerm.value);
    if searchType == "caseNumber" {
      if dbFails {
        return Response(500, [], Message(ServerErrorMessage));
      }
      result := ByCaseNumber(offers, term);
      if result.Some? && result.value.status != Available {
        result := None;
      }
    } else if searchType == "name" {
      if dbFails {
        return Response(500, [], Message(ServerErrorMessage));
      }
      result := AvailableByName(offers, term);
    } else {
      return Response(400, [], Message(InvalidTypeMessage));
    }
    if result.Some? {
      res := Response(200, [], Found(Summary(result.value)));
    } else {
      res := Response(404, [], Message(NotFoundMessage));
    }
  }
}

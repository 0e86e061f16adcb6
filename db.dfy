/**
 * The database rows the routes read and write, and the one ordering the
 * queries ask the database for (`orderBy: { createdAt: 'desc' }`).
 */
module Db {
  import Wrappers

  /** A `DateTime` column: its instant in milliseconds and the text `toISOString()` gives for it. */
  datatype Timestamp = Timestamp(millis: int, iso: string)

  /** A `Decimal` column, known by the text its `toString()` gives. */
  datatype Decimal = Decimal(text: string)

  /** An offer row; `caseNumber` is unique in the table. */
  datatype Offer = Offer(
    id: string,
    caseNumber: string,
    name: string,
    offerAmount: Decimal,
    status: string,
    createdAt: Timestamp)

  /**
   * An application row. `data` holds the applicant columns (fullName,
   * address, phone, email, profession, maritalStatus, bank, agency,
   * accountNumber, accountType) by column name.
   */
  datatype Application = Application(
    id: string,
    data: map<string, string>,
    status: string,
    offerId: string,
    createdAt: Timestamp,
    updatedAt: Timestamp)

  datatype AdminUser = AdminUser(id: string, email: string, name: string, passwordHash: string)

  /** The offer an application is linked to, if the table still holds it. */
  function OfferById(offers: seq<Offer>, id: string): (r: Wrappers.Option<Offer>)
    ensures r.Some? ==> r.value in offers && r.value.id == id
    ensures r.None? <==> forall o :: o in offers ==> o.id != id
  {
    if offers == [] then Wrappers.None
    else if offers[0].id == id then Wrappers.Some(offers[0])
    else OfferById(offers[1..], id)
  }

  predicate NewestFirst(apps: seq<Application>) {
    forall i, j :: 0 <= i < j < |apps| ==> apps[i].createdAt.millis >= apps[j].createdAt.millis
  }

  /** `sorted` with `a` put in before the first row no newer than it. */
  function InsertNewestFirst(a: Application, sorted: seq<Application>): (r: seq<Application>)
    requires NewestFirst(sorted)
    ensures NewestFirst(r)
    ensures |r| == |sorted| + 1 && (r[0] == a || (sorted != [] && r[0] == sorted[0]))
  {
    if sorted == [] || a.createdAt.millis >= sorted[0].createdAt.millis then
      [a] + sorted
    else
      var rest := InsertNewestFirst(a, sorted[1..]);
      var r := [sorted[0]] + rest;
      assert NewestFirst(r) by {
        forall i, j | 0 <= i < j < |r| ensures r[i].createdAt.millis >= r[j].createdAt.millis {
          if i == 0 {
            assert rest[0].createdAt.millis <= sorted[0].createdAt.millis;
            assert r[j] == rest[j - 1];
          } else {
            assert r[i] == rest[i - 1] && r[j] == rest[j - 1];
          }
        }
      }
      r
  }

  /** Inserting loses no row and adds only `a`. */
  lemma {:induction false} InsertKeepsRows(a: Application, sorted: seq<Application>)
    requires NewestFirst(sorted)
    ensures multiset(InsertNewestFirst(a, sorted)) == multiset(sorted) + multiset{a}
  {
    if sorted == [] || a.createdAt.millis >= sorted[0].createdAt.millis {
    } else {
      InsertKeepsRows(a, sorted[1..]);
      assert sorted == [sorted[0]] + sorted[1..];
    }
  }

  /** The rows of `apps`, newest `createdAt` first: the result of `findMany({ orderBy: { createdAt: 'desc' } })`. */
  function SortNewestFirst(apps: seq<Application>): (r: seq<Application>)
    ensures NewestFirst(r)
    ensures multiset(r) == multiset(apps)
  {
    if apps == [] then []
    else
      var rest := SortNewestFirst(apps[1..]);
      InsertKeepsRows(apps[0], rest);
      assert apps == [apps[0]] + apps[1..];
      InsertNewestFirst(apps[0], rest)
  }
}

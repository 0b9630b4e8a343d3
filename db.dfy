/**
 * The hosted database the booking back end and the admin screens read and
 * write: one sequence of rows per table, in insertion order. Columns the
 * modelled code never reads (timestamps, theming, descriptions) are left out.
 */
module Db {
  import opened Wrappers
  import opened Seqs

  datatype SalonRow = SalonRow(id: string, ownerId: string, slug: Option<string>)

  datatype SubscriptionRow = SubscriptionRow(userId: string, status: string)

  /** The JSON `available_hours` column: either key may be missing. */
  datatype HoursRow = HoursRow(start: Option<string>, end: Option<string>)

  datatype ProfessionalRow = ProfessionalRow(
    id: string,
    salonId: string,
    name: string,
    specialty: Option<string>,
    photo: Option<string>,
    availableDays: Option<seq<int>>,
    availableHours: Option<HoursRow>,
    isActive: bool)

  /** A service row; the price column is kept in integer cents. */
  datatype ServiceRow = ServiceRow(
    id: string,
    salonId: string,
    name: string,
    priceCents: int,
    duration: int,
    category: Option<string>,
    isActive: bool)

  /** A `professional_services` row linking a professional to a service. */
  datatype LinkRow = LinkRow(professionalId: string, serviceId: string)

  datatype AppointmentRow = AppointmentRow(
    id: string,
    salonId: string,
    professionalId: string,
    serviceId: string,
    date: string,
    time: string,
    clientName: string,
    clientPhone: string,
    status: string)

  /**
   * `.maybeSingle()` on the rows a query selects: the row when exactly one
   * matches; no data both when none matches and when several do (the
   * client reports an error then and `data` is null).
   */
  function MaybeSingle<T>(rows: seq<T>, p: T -> bool): (r: Option<T>)
    ensures r.Some? <==> |Filter(rows, p)| == 1
    ensures r.Some? ==> r.value in rows && p(r.value)
  {
    var m := Filter(rows, p);
    if |m| == 1 then Some(m[0]) else None
  }

  /** No row matches: `maybeSingle` yields nothing. */
  lemma MaybeSingleNone<T>(rows: seq<T>, p: T -> bool)
    requires forall i :: 0 <= i < |rows| ==> !p(rows[i])
    ensures MaybeSingle(rows, p).None?
  {
    FilterNone(rows, p);
  }

  /** The only matching row, at index `k`, is the one `maybeSingle` yields. */
  lemma {:induction false} MaybeSingleUnique<T>(rows: seq<T>, p: T -> bool, k: int)
    requires 0 <= k < |rows| && p(rows[k])
    requires forall i :: 0 <= i < |rows| && i != k ==> !p(rows[i])
    ensures MaybeSingle(rows, p) == Some(rows[k])
  {
    var a, b := rows[..k], rows[k + 1..];
    assert rows == a + [rows[k]] + b;
    FilterAppend(a + [rows[k]], b, p);
    FilterAppend(a, [rows[k]], p);
    FilterNone(a, p);
    FilterNone(b, p);
    FilterAll([rows[k]], p);
  }

  /** Two distinct matching rows: `maybeSingle` yields nothing. */
  lemma {:induction false} MaybeSingleTwo<T>(rows: seq<T>, p: T -> bool, i: int, j: int)
    requires 0 <= i < j < |rows| && p(rows[i]) && p(rows[j])
    ensures MaybeSingle(rows, p).None?
  {
    FilterCount(rows, p, i, j);
  }

  lemma {:induction false} FilterCount<T>(rows: seq<T>, p: T -> bool, i: int, j: int)
    requires 0 <= i < j < |rows| && p(rows[i]) && p(rows[j])
    ensures |Filter(rows, p)| >= 2
  {
    if i == 0 {
      var rest := rows[1..];
      assert rest[j - 1] == rows[j];
      assert Filter(rows, p) == [rows[0]] + Filter(rest, p);
    } else {
      var rest := rows[1..];
      assert rest[i - 1] == rows[i] && rest[j - 1] == rows[j];
      FilterCount(rest, p, i - 1, j - 1);
    }
  }

  /** A salon id is known (`!salonId` fails on null and on the empty string). */
  predicate HasSalon(salonId: Option<string>)
  {
    salonId.Some? && salonId.value != ""
  }

  /** The link rows of one professional. */
  function ForProfessional(professionalId: string): LinkRow -> bool
  {
    (l: LinkRow) => l.professionalId == professionalId
  }

  /** The link rows of one service. */
  function ForService(serviceId: string): LinkRow -> bool
  {
    (l: LinkRow) => l.serviceId == serviceId
  }

  function ServiceIdOf(l: LinkRow): string
  {
    l.serviceId
  }

  function LinkFrom(professionalId: string): string -> LinkRow
  {
    serviceId => LinkRow(professionalId, serviceId)
  }

  /** The ids of the services linked to a professional, in link order. */
  function ServiceIdsOf(links: seq<LinkRow>, professionalId: string): seq<string>
  {
    Map(Filter(links, ForProfessional(professionalId)), ServiceIdOf)
  }

  /**
   * Deleting every link of a professional and inserting one link per given
   * service id, in order.
   */
  function ReplaceProfessionalLinks(links: seq<LinkRow>, professionalId: string, serviceIds: seq<string>): seq<LinkRow>
  {
    Filter(links, Not(ForProfessional(professionalId))) + Map(serviceIds, LinkFrom(professionalId))
  }

  /** After the replacement the professional's services are exactly the given ones, in order. */
  lemma ReplaceProfessionalLinksExact(links: seq<LinkRow>, professionalId: string, serviceIds: seq<string>)
    ensures ServiceIdsOf(ReplaceProfessionalLinks(links, professionalId, serviceIds), professionalId) == serviceIds
  {
    var kept := Filter(links, Not(ForProfessional(professionalId)));
    var added := Map(serviceIds, LinkFrom(professionalId));
    FilterAppend(kept, added, ForProfessional(professionalId));
    FilterNone(kept, ForProfessional(professionalId));
    FilterAll(added, ForProfessional(professionalId));
    var back := Map(added, ServiceIdOf);
    forall i | 0 <= i < |serviceIds|
      ensures back[i] == serviceIds[i]
    {
      assert added[i] == LinkRow(professionalId, serviceIds[i]);
    }
  }

  /** Every other professional keeps the links it had, in order. */
  lemma ReplaceProfessionalLinksOthers(links: seq<LinkRow>, professionalId: string, serviceIds: seq<string>, other: string)
    requires other != professionalId
    ensures ServiceIdsOf(ReplaceProfessionalLinks(links, professionalId, serviceIds), other) == ServiceIdsOf(links, other)
  {
    var kept := Filter(links, Not(ForProfessional(professionalId)));
    var added := Map(serviceIds, LinkFrom(professionalId));
    FilterAppend(kept, added, ForProfessional(other));
    FilterOfFilter(links, Not(ForProfessional(professionalId)), ForProfessional(other));
    FilterNone(added, ForProfessional(other));
  }

  /** The tables the modelled code touches, each a sequence of rows in insertion order. */
  class Database {
    var salons: seq<SalonRow>
    var subscriptions: seq<SubscriptionRow>
    var professionals: seq<ProfessionalRow>
    var services: seq<ServiceRow>
    var links: seq<LinkRow>
    var appointments: seq<AppointmentRow>

    constructor (salons: seq<SalonRow>, subscriptions: seq<SubscriptionRow>, professionals: seq<ProfessionalRow>,
                 services: seq<ServiceRow>, links: seq<LinkRow>, appointments: seq<AppointmentRow>)
      ensures this.salons == salons && this.subscriptions == subscriptions
      ensures this.professionals == professionals && this.services == services
      ensures this.links == links && this.appointments == appointments
    {
      this.salons := salons;
      this.subscriptions := subscriptions;
      this.professionals := professionals;
      this.services := services;
      this.links := links;
      this.appointments := appointments;
    }
  }
}

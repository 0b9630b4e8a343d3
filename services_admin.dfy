/**
 * The admin services screen: how the list is loaded (each service shown with
 * the professional of its first link), how durations are printed, and how a
 * service is saved or deleted together with its professional link.
 */
module ServicesAdmin {
  import opened Wrappers
  import opened Text
  import opened Seqs
  import opened Db

  // ---- first link wins ---------------------------------------------------------

  /** The professional of the first link of a service, if it has one. */
  function FirstLinkOf(links: seq<LinkRow>, serviceId: string): Option<string>
  {
    match Find(links, ForService(serviceId))
    case Some(l) => Some(l.professionalId)
    case None => None
  }

  /** A link with no earlier link of the same service decides that service's professional. */
  lemma {:induction false} FirstLinkWins(links: seq<LinkRow>, k: int)
    requires 0 <= k < |links|
    requires forall j :: 0 <= j < k ==> links[j].serviceId != links[k].serviceId
    ensures FirstLinkOf(links, links[k].serviceId) == Some(links[k].professionalId)
  {
    if k > 0 {
      var rest := links[1..];
      forall j | 0 <= j < k - 1
        ensures rest[j].serviceId != rest[k - 1].serviceId
      {
        assert rest[j] == links[j + 1];
      }
      FirstLinkWins(rest, k - 1);
      assert rest[k - 1] == links[k];
    }
  }

  /** A service without links has no professional. */
  lemma NoLinkNoProfessional(links: seq<LinkRow>, serviceId: string)
    requires forall j :: 0 <= j < |links| ==> links[j].serviceId != serviceId
    ensures FirstLinkOf(links, serviceId).None?
  {
  }

  /** `map.get(key)`. */
  function Get(m: map<string, string>, key: string): Option<string>
  {
    if key in m then Some(m[key]) else None
  }

  /** One more link: the map gains its service only when that service had no entry yet. */
  lemma FirstLinkStep(links: seq<LinkRow>, i: int, m: map<string, string>, serviceId: string)
    requires 0 <= i < |links|
    requires FirstLinkOf(links[..i], serviceId) == Get(m, serviceId)
    ensures var l := links[i];
      FirstLinkOf(links[..i + 1], serviceId) ==
        Get(if l.serviceId in m then m else m[l.serviceId := l.professionalId], serviceId)
  {
    var l := links[i];
    assert links[..i + 1] == links[..i] + [l];
    FindAppend(links[..i], [l], ForService(serviceId));
  }

  /** The `serviceToProfessional` map filled in one pass over the links. */
  method ServiceToProfessional(links: seq<LinkRow>) returns (m: map<string, string>)
    ensures forall serviceId :: Get(m, serviceId) == FirstLinkOf(links, serviceId)
  {
    m := map[];
    var i := 0;
    while i < |links|
      invariant 0 <= i <= |links|
      invariant forall serviceId :: Get(m, serviceId) == FirstLinkOf(links[..i], serviceId)
    {
      var l := links[i];
      var next := if l.serviceId in m then m else m[l.serviceId := l.professionalId];
      forall serviceId
        ensures Get(next, serviceId) == FirstLinkOf(links[..i + 1], serviceId)
      {
        FirstLinkStep(links, i, m, serviceId);
      }
      m := next;
      i := i + 1;
    }
    assert links[..i] == links;
  }

  // ---- the list as loaded --------------------------------------------------------

  datatype UiService = UiService(
    id: string,
    name: string,
    priceCents: int,
    duration: int,
    category: string,
    professionalId: string)

  /** `category || 'Geral'`. */
  function CategoryOrDefault(category: string): (c: string)
    ensures c != ""
    ensures category != "" ==> c == category
  {
    if category == "" then "Geral" else category
  }

  function CategoryColumn(category: Option<string>): string
  {
    CategoryOrDefault(category.GetOr(""))
  }

  /** One loaded row, with the professional of its first link or `''`. */
  function ToUiService(r: ServiceRow, links: seq<LinkRow>): (u: UiService)
    ensures u.id == r.id && u.name == r.name && u.priceCents == r.priceCents && u.duration == r.duration
    ensures u.category != "" && (r.category.Some? && r.category.value != "" ==> u.category == r.category.value)
    ensures u.professionalId != "" ==> LinkRow(u.professionalId, r.id) in links
    ensures (forall i :: 0 <= i < |links| ==> links[i].serviceId != r.id) ==> u.professionalId == ""
  {
    UiService(r.id, r.name, r.priceCents, r.duration, CategoryColumn(r.category), FirstLinkOf(links, r.id).GetOr(""))
  }

  function ActiveIn(salonId: string): ServiceRow -> bool
  {
    (r: ServiceRow) => r.salonId == salonId && r.isActive
  }

  /** `loadAll`: the salon's active services in table order. */
  function LoadServices(services: seq<ServiceRow>, links: seq<LinkRow>, salonId: string): (ui: seq<UiService>)
    ensures |ui| <= |services|
    ensures forall i :: 0 <= i < |ui| ==> ui[i].category != ""
    ensures forall u :: u in ui ==> exists r :: r in services && ActiveIn(salonId)(r) && u == ToUiService(r, links)
    ensures forall r :: r in services && ActiveIn(salonId)(r) ==> ToUiService(r, links) in ui
  {
    MapFilterMembers(services, ActiveIn(salonId), (r: ServiceRow) => ToUiService(r, links));
    Map(Filter(services, ActiveIn(salonId)), (r: ServiceRow) => ToUiService(r, links))
  }

  /**
   * The list keeps the table's order: splitting the rows splits the list the
   * same way, and a single row is listed, mapped, exactly when it is an
   * active service of the salon.
   */
  lemma LoadServicesInOrder(a: seq<ServiceRow>, b: seq<ServiceRow>, r: ServiceRow, links: seq<LinkRow>, salonId: string)
    ensures LoadServices(a + b, links, salonId) == LoadServices(a, links, salonId) + LoadServices(b, links, salonId)
    ensures LoadServices([r], links, salonId) == if r.salonId == salonId && r.isActive then [ToUiService(r, links)] else []
  {
    var f := (q: ServiceRow) => ToUiService(q, links);
    MapFilterAppend(a, b, ActiveIn(salonId), f);
    MapFilterOne(r, ActiveIn(salonId), f);
  }

  /** Every listed service is an active service of the salon, shown with its first link's professional. */
  lemma LoadServicesShows(services: seq<ServiceRow>, links: seq<LinkRow>, salonId: string, i: int)
    requires 0 <= i < |LoadServices(services, links, salonId)|
    ensures var u := LoadServices(services, links, salonId)[i];
      exists r :: r in services && r.salonId == salonId && r.isActive && r.id == u.id &&
        u.professionalId == FirstLinkOf(links, r.id).GetOr("")
  {
    var kept := Filter(services, ActiveIn(salonId));
    var r := kept[i];
    assert r in services && ActiveIn(salonId)(r);
  }

  // ---- durations -----------------------------------------------------------------

  /**
   * `formatDuration`: under an hour the minutes and "min"; otherwise the
   * whole hours and "h", then the remaining minutes and "min" when there
   * are any.
   */
  function FormatDuration(minutes: int): (r: string)
    ensures minutes < 60 ==> |r| > 3 && r[..|r| - 3] == IntString(minutes) && r[|r| - 3..] == "min"
    ensures minutes >= 60 ==>
      var h := Decimal(minutes / 60);
      |r| > |h| && r[..|h| + 1] == h + "h" && (minutes % 60 == 0 <==> |r| == |h| + 1)
  {
    if minutes < 60 then IntString(minutes) + "min"
    else
      var hours := minutes / 60;
      var mins := minutes % 60;
      if mins > 0 then Decimal(hours) + "h " + Decimal(mins) + "min" else Decimal(hours) + "h"
  }

  lemma DurationExamplesShort()
    ensures FormatDuration(45) == "45min"
    ensures FormatDuration(60) == "1h"
  {
  }

  lemma DurationExamplesLong()
    ensures FormatDuration(90) == "1h 30min"
    ensures FormatDuration(125) == "2h 5min"
  {
  }

  predicate NoLetterH(s: string)
  {
    forall i :: 0 <= i < |s| ==> s[i] != 'h'
  }

  lemma IntStringHasNoH(n: int)
    ensures NoLetterH(IntString(n))
  {
    if n < 0 {
      var d := Decimal(-n);
      assert IntString(n) == "-" + d;
      assert forall i :: 0 < i < |IntString(n)| ==> IntString(n)[i] == d[i - 1];
    }
  }

  /** Two splits into a digit string and a tail that starts with a non-digit cut at the same place. */
  lemma DigitPrefixLength(x: string, rest: string, y: string, tail: string)
    requires AllDigits(x) && AllDigits(y) && rest != [] && tail != []
    requires !IsDigit(rest[0]) && !IsDigit(tail[0])
    requires x + rest == y + tail
    ensures |x| == |y|
  {
    var k := if |x| < |y| then |x| else |y|;
    assert CharAt(x + rest, k) == if k < |x| then CharAt(x, k) else CharAt(rest, 0);
    assert CharAt(y + tail, k) == if k < |y| then CharAt(y, k) else CharAt(tail, 0);
  }

  /** The character at `k`, or a space past either end. */
  function CharAt(s: string, k: int): char
  {
    if 0 <= k < |s| then s[k] else ' '
  }

  /** Two digit strings followed by tails that start with a non-digit line up. */
  lemma DigitsThenMark(x: string, rest: string, y: string, tail: string)
    requires AllDigits(x) && AllDigits(y) && rest != [] && tail != []
    requires !IsDigit(rest[0]) && !IsDigit(tail[0])
    requires x + rest == y + tail
    ensures x == y && rest == tail
  {
    DigitPrefixLength(x, rest, y, tail);
    assert x == (x + rest)[..|x|] && y == (y + tail)[..|y|];
    assert rest == (x + rest)[|x|..] && tail == (y + tail)[|y|..];
  }

  lemma StripSuffix(a: string, b: string, suffix: string)
    requires a + suffix == b + suffix
    ensures a == b
  {
    assert a == (a + suffix)[..|a|];
    assert |a| == |b|;
    assert b == (b + suffix)[..|b|];
  }

  /** Whether a printed duration contains an `h` depends only on the minutes being 60 or more. */
  lemma HasHourMark(minutes: int)
    ensures minutes >= 60 <==> !NoLetterH(FormatDuration(minutes))
  {
    var s := FormatDuration(minutes);
    if minutes < 60 {
      IntStringHasNoH(minutes);
      var d := IntString(minutes);
      assert s == d + "min";
      forall i | 0 <= i < |s|
        ensures s[i] != 'h'
      {
        if i < |d| {
          assert s[i] == d[i];
        } else {
          assert s[i] == "min"[i - |d|];
        }
      }
    } else {
      var d := Decimal(minutes / 60);
      assert s[|d|] == 'h';
    }
  }

  /** From an hour on, a printed duration ends in `h` exactly when it is a whole number of hours. */
  lemma EndsInHour(minutes: int)
    requires minutes >= 60
    ensures var s := FormatDuration(minutes);
      s != [] && (s[|s| - 1] == 'h' <==> minutes % 60 == 0)
  {
  }

  /** Under an hour: the minutes are printed as they are. */
  lemma InjectiveUnderAnHour(a: int, b: int)
    requires a < 60 && b < 60 && FormatDuration(a) == FormatDuration(b)
    ensures a == b
  {
    StripSuffix(IntString(a), IntString(b), "min");
    IntStringInjective(a, b);
  }

  /** Whole hours: the hours are printed before `h`. */
  lemma InjectiveWholeHours(a: int, b: int)
    requires a >= 60 && b >= 60 && a % 60 == 0 && b % 60 == 0
    requires FormatDuration(a) == FormatDuration(b)
    ensures a == b
  {
    var ha: nat, hb: nat := a / 60, b / 60;
    assert FormatDuration(a) == Decimal(ha) + "h";
    assert FormatDuration(b) == Decimal(hb) + "h";
    StripSuffix(Decimal(ha), Decimal(hb), "h");
    DecimalRoundTrip(ha);
    DecimalRoundTrip(hb);
  }

  lemma HoursAndMinutesShape(m: int)
    requires m >= 60 && m % 60 > 0
    ensures FormatDuration(m) == Decimal(m / 60) + ("h " + Decimal(m % 60) + "min")
  {
  }

  /** Hours and minutes: both numbers are read back from either side of `h `. */
  lemma InjectiveHoursAndMinutes(a: int, b: int)
    requires a >= 60 && b >= 60 && a % 60 > 0 && b % 60 > 0
    requires FormatDuration(a) == FormatDuration(b)
    ensures a == b
  {
    var ha: nat, ma: nat, hb: nat, mb: nat := a / 60, a % 60, b / 60, b % 60;
    var ra := "h " + Decimal(ma) + "min";
    var rb := "h " + Decimal(mb) + "min";
    HoursAndMinutesShape(a);
    HoursAndMinutesShape(b);
    DigitsThenMark(Decimal(ha), ra, Decimal(hb), rb);
    assert Decimal(ma) + "min" == ra[2..] && Decimal(mb) + "min" == rb[2..];
    StripSuffix(Decimal(ma), Decimal(mb), "min");
    DecimalRoundTrip(ha);
    DecimalRoundTrip(hb);
    DecimalRoundTrip(ma);
    DecimalRoundTrip(mb);
    assert a == 60 * ha + ma && b == 60 * hb + mb;
  }

  /** Distinct durations print differently. */
  lemma FormatDurationInjective(a: int, b: int)
    requires FormatDuration(a) == FormatDuration(b)
    ensures a == b
  {
    HasHourMark(a);
    HasHourMark(b);
    if a < 60 {
      InjectiveUnderAnHour(a, b);
    } else {
      EndsInHour(a);
      EndsInHour(b);
      if a % 60 == 0 {
        InjectiveWholeHours(a, b);
      } else {
        InjectiveHoursAndMinutes(a, b);
      }
    }
  }

  // ---- save and delete -----------------------------------------------------------

  /** The dialog's fields; price and duration are already numbers here. */
  datatype ServiceFormData = ServiceFormData(
    name: string,
    priceCents: int,
    duration: int,
    professionalId: string,
    category: string)

  function NewServiceRow(id: string, salonId: string, f: ServiceFormData): (row: ServiceRow)
    ensures row.id == id && row.salonId == salonId && row.isActive
    ensures row.name == f.name && row.priceCents == f.priceCents && row.duration == f.duration
    ensures row.category.Some? && row.category.value != ""
    ensures f.category != "" ==> row.category == Some(f.category)
  {
    ServiceRow(id, salonId, f.name, f.priceCents, f.duration, Some(CategoryOrDefault(f.category)), true)
  }

  /** The update, scoped by id and salon; it leaves `is_active` as it was. */
  function EditServiceRow(id: string, salonId: string, f: ServiceFormData): (edit: ServiceRow -> ServiceRow)
    ensures forall r: ServiceRow :: r.id != id || r.salonId != salonId ==> edit(r) == r
    ensures forall r: ServiceRow :: r.id == id && r.salonId == salonId ==> edit(r) == NewServiceRow(id, salonId, f).(isActive := r.isActive)
  {
    (r: ServiceRow) =>
      if r.id == id && r.salonId == salonId then
        r.(name := f.name, priceCents := f.priceCents, duration := f.duration,
           category := Some(CategoryOrDefault(f.category)))
      else r
  }

  /** Deleting every link of a service, then linking the chosen professional, if any. */
  function ReplaceServiceLinks(links: seq<LinkRow>, serviceId: string, professionalId: string): (r: seq<LinkRow>)
    ensures forall l :: l in r && l.serviceId != serviceId <==> l in links && l.serviceId != serviceId
    ensures forall l :: l in r && l.serviceId == serviceId ==> l == LinkRow(professionalId, serviceId) && professionalId != ""
    ensures professionalId != "" ==> LinkRow(professionalId, serviceId) in r
  {
    Filter(links, Not(ForService(serviceId)))
      + (if professionalId == "" then [] else [LinkRow(professionalId, serviceId)])
  }

  /**
   * After the replacement the service has at most one link, to the chosen
   * professional, so reloading shows that professional (or none); every
   * other service keeps its first link.
   */
  lemma ReplaceServiceLinksEffect(links: seq<LinkRow>, serviceId: string, professionalId: string, other: string)
    requires other != serviceId
    ensures var after := ReplaceServiceLinks(links, serviceId, professionalId);
      Filter(after, ForService(serviceId)) == (if professionalId == "" then [] else [LinkRow(professionalId, serviceId)]) &&
      FirstLinkOf(after, serviceId).GetOr("") == professionalId &&
      FirstLinkOf(after, other) == FirstLinkOf(links, other)
  {
    var kept := Filter(links, Not(ForService(serviceId)));
    var added: seq<LinkRow> := if professionalId == "" then [] else [LinkRow(professionalId, serviceId)];
    FilterAppend(kept, added, ForService(serviceId));
    FilterNone(kept, ForService(serviceId));
    FilterAll(added, ForService(serviceId));
    FindAppend(kept, added, ForService(serviceId));
    assert Find(kept, ForService(serviceId)).None?;
    FindAppend(kept, added, ForService(other));
    FindInFilter(links, Not(ForService(serviceId)), ForService(other));
  }

  /** `handleSubmit`; `freshId` is the id the insert returns. */
  method SaveService(db: Database, salonId: Option<string>, editing: Option<string>,
                     f: ServiceFormData, freshId: string) returns (saved: Option<string>)
    modifies db
    ensures saved.None? <==> !HasSalon(salonId)
    ensures saved.None? ==> db.services == old(db.services) && db.links == old(db.links)
    ensures saved.Some? ==>
      saved.value == (if editing.Some? && editing.value != "" then editing.value else freshId)
    ensures saved.Some? && editing.Some? && editing.value != "" ==>
      db.services == Map(old(db.services), EditServiceRow(saved.value, salonId.value, f))
    ensures saved.Some? && !(editing.Some? && editing.value != "") ==>
      db.services == old(db.services) + [NewServiceRow(freshId, salonId.value, f)]
    ensures saved.Some? ==>
      db.links == if saved.value == "" then old(db.links)
                  else ReplaceServiceLinks(old(db.links), saved.value, f.professionalId)
    ensures db.salons == old(db.salons) && db.subscriptions == old(db.subscriptions)
    ensures db.professionals == old(db.professionals) && db.appointments == old(db.appointments)
  {
    if !HasSalon(salonId) {
      return None;
    }
    var sid := salonId.value;
    var serviceId: string;
    if editing.Some? && editing.value != "" {
      serviceId := editing.value;
      db.services := Map(db.services, EditServiceRow(serviceId, sid, f));
    } else {
      db.services := db.services + [NewServiceRow(freshId, sid, f)];
      serviceId := freshId;
    }
    if serviceId != "" {
      db.links := Filter(db.links, Not(ForService(serviceId)));
      if f.professionalId != "" {
        db.links := db.links + [LinkRow(f.professionalId, serviceId)];
      }
    }
    saved := Some(serviceId);
  }

  function InSalonWithId(salonId: string, serviceId: string): ServiceRow -> bool
  {
    (r: ServiceRow) => r.id == serviceId && r.salonId == salonId
  }

  /** `handleDelete`: the links are deleted by service id alone, the row within the salon. */
  method DeleteService(db: Database, salonId: Option<string>, serviceId: string)
    modifies db
    ensures !HasSalon(salonId) ==> db.services == old(db.services) && db.links == old(db.links)
    ensures HasSalon(salonId) ==>
      db.links == Filter(old(db.links), Not(ForService(serviceId))) &&
      db.services == Filter(old(db.services), Not(InSalonWithId(salonId.value, serviceId)))
    ensures db.salons == old(db.salons) && db.subscriptions == old(db.subscriptions)
    ensures db.professionals == old(db.professionals) && db.appointments == old(db.appointments)
  {
    if !HasSalon(salonId) {
      return;
    }
    db.links := Filter(db.links, Not(ForService(serviceId)));
    db.services := Filter(db.services, Not(InSalonWithId(salonId.value, serviceId)));
  }

  /**
   * After a delete no link of the service is left, in any salon, and no row
   * of this salon has its id; a row with that id in another salon stays.
   */
  lemma DeleteServiceEffect(links: seq<LinkRow>, services: seq<ServiceRow>, salonId: string, serviceId: string, r: ServiceRow)
    ensures forall l :: l in Filter(links, Not(ForService(serviceId))) ==> l.serviceId != serviceId
    ensures r in Filter(services, Not(InSalonWithId(salonId, serviceId))) <==>
      r in services && !(r.id == serviceId && r.salonId == salonId)
  {
    var kept := Filter(services, Not(InSalonWithId(salonId, serviceId)));
    if r in kept {
      var i :| 0 <= i < |kept| && kept[i] == r;
    }
    if r in services && !(r.id == serviceId && r.salonId == salonId) {
      var i :| 0 <= i < |services| && services[i] == r;
      assert Not(InSalonWithId(salonId, serviceId))(services[i]);
    }
    forall l | l in Filter(links, Not(ForService(serviceId)))
      ensures l.serviceId != serviceId
    {
      var kl := Filter(links, Not(ForService(serviceId)));
      var i :| 0 <= i < |kl| && kl[i] == l;
    }
  }
}

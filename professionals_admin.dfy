/**
 * The admin professionals screen: each professional row read into the
 * form the rest of the app uses (with defaults for missing columns), the
 * two links an owner copies for a professional, and the delete.
 */
module ProfessionalsAdmin {
  import opened Wrappers
  import opened Text
  import opened Seqs
  import opened SalonTypes
  import opened Db
  import opened ProfessionalForm

  /** `value || fallback` on a text column: null and `''` both fall back. */
  function OrDefault(value: Option<string>, fallback: string): (r: string)
    ensures value.Some? && value.value != "" ==> r == value.value
    ensures value.None? || value.value == "" ==> r == fallback
  {
    if value.Some? && value.value != "" then value.value else fallback
  }

  const DefaultDays: seq<int> := [1, 2, 3, 4, 5, 6]

  /** The row's hours; a missing object, and each missing or empty end, fall back separately. */
  function HoursOf(h: Option<HoursRow>): (r: Hours)
    ensures h.Some? && h.value.start.Some? && h.value.start.value != "" ==> r.start == h.value.start.value
    ensures h.None? || h.value.start.None? || h.value.start.value == "" ==> r.start == "09:00"
    ensures h.Some? && h.value.end.Some? && h.value.end.value != "" ==> r.end == h.value.end.value
    ensures h.None? || h.value.end.None? || h.value.end.value == "" ==> r.end == "18:00"
  {
    match h
    case None => Hours("09:00", "18:00")
    case Some(row) => Hours(OrDefault(row.start, "09:00"), OrDefault(row.end, "18:00"))
  }

  /** One row of `loadAll`'s mapping. */
  function ToUiProfessional(p: ProfessionalRow, links: seq<LinkRow>): (u: Professional)
    ensures u.id == p.id && u.name == p.name
    ensures u.services == ServiceIdsOf(links, p.id)
    ensures p.availableDays.None? ==> u.availableDays == DefaultDays
    ensures p.availableDays.Some? ==> u.availableDays == p.availableDays.value
    ensures p.specialty.Some? && p.specialty.value != "" ==> u.specialty == p.specialty.value
    ensures p.specialty.None? || p.specialty.value == "" ==> u.specialty == ""
    ensures p.photo.Some? && p.photo.value != "" ==> u.photo == p.photo.value
    ensures p.photo.None? || p.photo.value == "" ==> u.photo == Placeholder
    ensures u.availableHours == HoursOf(p.availableHours)
    ensures u.photo != "" && u.availableHours.start != "" && u.availableHours.end != ""
  {
    Professional(p.id, p.name, OrDefault(p.specialty, ""), OrDefault(p.photo, Placeholder),
                 ServiceIdsOf(links, p.id), p.availableDays.GetOr(DefaultDays), HoursOf(p.availableHours))
  }

  /** Each end of the hours defaults on its own: a stored start survives a missing end. */
  lemma HoursDefaultIndependently(start: string)
    requires start != ""
    ensures HoursOf(Some(HoursRow(Some(start), None))) == Hours(start, "18:00")
    ensures HoursOf(Some(HoursRow(None, Some(start)))) == Hours("09:00", start)
    ensures HoursOf(None) == Hours("09:00", "18:00")
  {
  }

  function ActiveIn(salonId: string): ProfessionalRow -> bool
  {
    (p: ProfessionalRow) => p.salonId == salonId && p.isActive
  }

  /** `loadAll`: the salon's active professionals in table order. */
  function LoadProfessionals(rows: seq<ProfessionalRow>, links: seq<LinkRow>, salonId: string): (ui: seq<Professional>)
    ensures |ui| <= |rows|
    ensures forall u :: u in ui ==>
      exists p :: p in rows && ActiveIn(salonId)(p) && u == ToUiProfessional(p, links)
    ensures forall p :: p in rows && ActiveIn(salonId)(p) ==> ToUiProfessional(p, links) in ui
  {
    MapFilterMembers(rows, ActiveIn(salonId), (p: ProfessionalRow) => ToUiProfessional(p, links));
    Map(Filter(rows, ActiveIn(salonId)), (p: ProfessionalRow) => ToUiProfessional(p, links))
  }

  /**
   * The list keeps the table's order: splitting the rows splits the list the
   * same way, and a single row is listed, mapped, exactly when it is an
   * active professional of the salon.
   */
  lemma LoadProfessionalsInOrder(a: seq<ProfessionalRow>, b: seq<ProfessionalRow>, p: ProfessionalRow,
                                 links: seq<LinkRow>, salonId: string)
    ensures LoadProfessionals(a + b, links, salonId) == LoadProfessionals(a, links, salonId) + LoadProfessionals(b, links, salonId)
    ensures LoadProfessionals([p], links, salonId) ==
      if p.salonId == salonId && p.isActive then [ToUiProfessional(p, links)] else []
  {
    var f := (q: ProfessionalRow) => ToUiProfessional(q, links);
    MapFilterAppend(a, b, ActiveIn(salonId), f);
    MapFilterOne(p, ActiveIn(salonId), f);
  }

  /**
   * Saving a new professional from the dialog and reading it back gives the
   * trimmed name and specialty, the ticked services in order, the days, and
   * the hours and photo with the screen's defaults for empty fields.
   */
  lemma SaveThenLoad(id: string, salonId: string, f: ProfessionalFormData, links: seq<LinkRow>)
    ensures ToUiProfessional(NewRow(id, salonId, f), ReplaceProfessionalLinks(links, id, f.selectedServices))
      == Professional(id, Trim(f.name), Trim(f.specialty), if f.photo == "" then Placeholder else f.photo,
                      f.selectedServices, f.availableDays,
                      Hours(OrDefault(Some(f.availableHoursStart), "09:00"), OrDefault(Some(f.availableHoursEnd), "18:00")))
  {
    ReplaceProfessionalLinksExact(links, id, f.selectedServices);
  }

  /**
   * When the saved form had a photo and both hours, opening the edit dialog
   * on the reloaded professional shows the form again, with name and
   * specialty trimmed.
   */
  lemma SaveThenReopen(id: string, salonId: string, f: ProfessionalFormData, links: seq<LinkRow>)
    requires f.photo != "" && f.availableHoursStart != "" && f.availableHoursEnd != ""
    ensures OpenForm(Some(ToUiProfessional(NewRow(id, salonId, f), ReplaceProfessionalLinks(links, id, f.selectedServices))))
      == f.(name := Trim(f.name), specialty := Trim(f.specialty))
  {
    SaveThenLoad(id, salonId, f, links);
  }

  // ---- links -------------------------------------------------------------------

  /**
   * `getClientLink`: the slug route when the salon has a slug, else the id
   * route (with `null` printed for an unknown salon); each route is its
   * segments joined with `/`.
   */
  function ClientLink(origin: string, slug: Option<string>, salonId: Option<string>, professionalId: string): (link: string)
    ensures |origin| + |professionalId| + 2 < |link|
    ensures link[..|origin| + 1] == origin + "/"
    ensures link[|link| - |professionalId| - 1..] == "/" + professionalId
  {
    var route := ClientRoute(slug, salonId, professionalId);
    RouteJoin(route[1], route[2], route[3], professionalId);
    SlashEnds(origin, route[1] + "/" + route[2] + "/" + route[3], professionalId);
    origin + Join(route, '/')
  }

  /** A five-segment route with an empty first segment joins to `/<a>/<b>/<c>/<id>`. */
  lemma RouteJoin(a: string, b: string, c: string, id: string)
    ensures Join(["", a, b, c, id], '/') == "/" + (a + "/" + b + "/" + c) + "/" + id
  {
    JoinFive("", a, b, c, id, '/');
  }

  /** `<origin>/<mid>/<id>` begins with the origin and a slash and ends with a slash and the id. */
  lemma SlashEnds(origin: string, mid: string, id: string)
    ensures var link := origin + ("/" + mid + "/" + id);
      |link| == |origin| + |mid| + |id| + 2 &&
      link[..|origin| + 1] == origin + "/" && link[|link| - |id| - 1..] == "/" + id
  {
    var link := origin + ("/" + mid + "/" + id);
    assert link == (origin + "/") + (mid + "/" + id);
    assert link == (origin + "/" + mid) + ("/" + id);
  }

  function ClientRoute(slug: Option<string>, salonId: Option<string>, professionalId: string): (route: seq<string>)
    ensures |route| == 5 && route == ["", route[1], route[2], route[3], professionalId] && |route[1]| == 5
  {
    if slug.Some? && slug.value != "" then ["", "salao", slug.value, "profissional", professionalId]
    else ["", "salon", salonId.GetOr("null"), "professional", professionalId]
  }

  /** `getDashboardLink`. */
  function DashboardLink(origin: string, professionalId: string): (link: string)
    ensures |link| == |origin| + 14 + |professionalId|
    ensures link[..|origin| + 1] == origin + "/"
    ensures link[|link| - |professionalId| - 1..] == "/" + professionalId
  {
    JoinThree("", "profissional", professionalId, '/');
    var link := origin + Join(["", "profissional", professionalId], '/');
    assert link == (origin + "/") + ("profissional" + "/" + professionalId);
    assert link == (origin + "/" + "profissional") + ("/" + professionalId);
    link
  }

  /** With a slug the client link is `<origin>/salao/<slug>/profissional/<id>`. */
  lemma SlugLinkShape(origin: string, slug: string, salonId: Option<string>, professionalId: string)
    requires slug != ""
    ensures ClientLink(origin, Some(slug), salonId, professionalId) ==
      origin + "/salao/" + slug + "/profissional/" + professionalId
  {
    var sep := ['/'];
    JoinFiveAround(origin, "", "salao", slug, "profissional", professionalId, '/');
    assert "" + sep + "salao" + sep == "/salao/";
    assert sep + "profissional" + sep == "/profissional/";
  }

  /**
   * Without a slug it is `<origin>/salon/<salon id>/professional/<id>`,
   * with `null` for an unknown salon.
   */
  lemma IdLinkShape(origin: string, slug: Option<string>, salonId: Option<string>, professionalId: string)
    requires slug.None? || slug.value == ""
    ensures ClientLink(origin, slug, salonId, professionalId) ==
      origin + "/salon/" + salonId.GetOr("null") + "/professional/" + professionalId
  {
    var sep := ['/'];
    JoinFiveAround(origin, "", "salon", salonId.GetOr("null"), "professional", professionalId, '/');
    assert "" + sep + "salon" + sep == "/salon/";
    assert sep + "professional" + sep == "/professional/";
  }

  /** The dashboard link is `<origin>/profissional/<id>`. */
  lemma DashboardLinkShape(origin: string, professionalId: string)
    ensures DashboardLink(origin, professionalId) == origin + "/profissional/" + professionalId
  {
    var sep := ['/'];
    JoinThree("", "profissional", professionalId, '/');
    assert "" + sep + "profissional" + sep == "/profissional/";
  }

  /**
   * The path after the origin splits back into the route's segments, so the
   * slug (or the salon id) and the professional id come back whole.
   */
  lemma ClientLinkSegments(origin: string, slug: Option<string>, salonId: Option<string>, professionalId: string)
    requires slug.Some? ==> '/' !in slug.value
    requires salonId.Some? ==> '/' !in salonId.value
    requires '/' !in professionalId
    ensures var link := ClientLink(origin, slug, salonId, professionalId);
      |origin| <= |link| && link[..|origin|] == origin &&
      Split(link[|origin|..], '/') ==
        if slug.Some? && slug.value != "" then ["", "salao", slug.value, "profissional", professionalId]
        else ["", "salon", salonId.GetOr("null"), "professional", professionalId]
  {
    var route := ClientRoute(slug, salonId, professionalId);
    var link := ClientLink(origin, slug, salonId, professionalId);
    assert link[|origin|..] == Join(route, '/');
    assert "salao" == ['s', 'a', 'l', 'a', 'o'] && "profissional"[0] == 'p';
    forall i | 0 <= i < |route|
      ensures '/' !in route[i]
    {
    }
    SplitJoin(route, '/');
  }

  // ---- delete ------------------------------------------------------------------

  function InSalonWithId(salonId: string, professionalId: string): ProfessionalRow -> bool
  {
    (p: ProfessionalRow) => p.id == professionalId && p.salonId == salonId
  }

  /** `handleConfirmDelete`: the links go by professional id alone, the row within the salon. */
  method DeleteProfessional(db: Database, salonId: Option<string>, target: Option<Professional>)
    modifies db
    ensures target.None? || !HasSalon(salonId) ==>
      db.professionals == old(db.professionals) && db.links == old(db.links)
    ensures target.Some? && HasSalon(salonId) ==>
      db.links == Filter(old(db.links), Not(ForProfessional(target.value.id))) &&
      db.professionals == Filter(old(db.professionals), Not(InSalonWithId(salonId.value, target.value.id)))
    ensures db.salons == old(db.salons) && db.subscriptions == old(db.subscriptions)
    ensures db.services == old(db.services) && db.appointments == old(db.appointments)
  {
    if target.None? || !HasSalon(salonId) {
      return;
    }
    db.links := Filter(db.links, Not(ForProfessional(target.value.id)));
    db.professionals := Filter(db.professionals, Not(InSalonWithId(salonId.value, target.value.id)));
  }

  /** After the delete the professional has no services left and other professionals keep theirs. */
  lemma DeleteLeavesNoLinks(links: seq<LinkRow>, professionalId: string, other: string)
    requires other != professionalId
    ensures ServiceIdsOf(Filter(links, Not(ForProfessional(professionalId))), professionalId) == []
    ensures ServiceIdsOf(Filter(links, Not(ForProfessional(professionalId))), other) == ServiceIdsOf(links, other)
  {
    var kept := Filter(links, Not(ForProfessional(professionalId)));
    FilterNone(kept, ForProfessional(professionalId));
    FilterOfFilter(links, Not(ForProfessional(professionalId)), ForProfessional(other));
  }
}

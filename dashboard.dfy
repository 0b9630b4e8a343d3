/**
 * The professional's own dashboard: the period filter over the loaded
 * appointments, the confirmed ones, the revenue they bring, the per-service
 * statistics and the short list of upcoming appointments.
 */
module Dashboard {
  import opened Text
  import opened Seqs
  import opened Wrappers
  import opened SalonTypes

  /** A service as the dashboard loads it; prices are integer cents. */
  datatype DashService = DashService(id: string, name: string, priceCents: int, duration: int)

  /** An appointment as the dashboard holds it: its service, or none when the row had no known service. */
  datatype DashAppointment = DashAppointment(
    id: string,
    date: string,
    time: string,
    status: Status,
    clientName: string,
    service: Option<DashService>)

  datatype Period = Today | Month

  // ---- period filter -----------------------------------------------------------

  function OnDay(day: string): DashAppointment -> bool
  {
    (a: DashAppointment) => a.date == day
  }

  /** `monthStart <= date <= monthEnd`, as JavaScript compares strings. */
  function InRange(first: string, last: string): DashAppointment -> bool
  {
    (a: DashAppointment) => !LexLess(a.date, first) && !LexLess(last, a.date)
  }

  /** `filteredAppointments`. */
  function FilteredAppointments(appts: seq<DashAppointment>, period: Period, today: string,
                                monthStart: string, monthEnd: string): (r: seq<DashAppointment>)
    ensures |r| <= |appts|
    ensures forall i :: 0 <= i < |r| ==> r[i] in appts
    ensures period == Today ==> forall i :: 0 <= i < |r| ==> r[i].date == today
    ensures period == Month ==> forall i :: 0 <= i < |r| ==>
      !LexLess(r[i].date, monthStart) && !LexLess(monthEnd, r[i].date)
  {
    match period
    case Today => Filter(appts, OnDay(today))
    case Month => Filter(appts, InRange(monthStart, monthEnd))
  }

  /** 'today' keeps exactly the appointments of that day; 'month' exactly those between the two bounds. */
  lemma FilteredExactly(appts: seq<DashAppointment>, period: Period, today: string,
                        monthStart: string, monthEnd: string, a: DashAppointment)
    ensures var r := FilteredAppointments(appts, period, today, monthStart, monthEnd);
      (period == Today ==> (a in r <==> a in appts && a.date == today)) &&
      (period == Month ==> (a in r <==> a in appts && !LexLess(a.date, monthStart) && !LexLess(monthEnd, a.date)))
  {
    var r := FilteredAppointments(appts, period, today, monthStart, monthEnd);
    if a in r {
      var i :| 0 <= i < |r| && r[i] == a;
    }
    if a in appts {
      var i :| 0 <= i < |appts| && appts[i] == a;
    }
  }

  // ---- confirmed and revenue ---------------------------------------------------

  predicate Counts(s: Status)
  {
    s == Confirmed || s == Completed
  }

  function IsCounted(a: DashAppointment): bool
  {
    Counts(a.status)
  }

  /** `confirmedAppointments`: confirmed or completed. */
  function ConfirmedAppointments(filtered: seq<DashAppointment>): (r: seq<DashAppointment>)
    ensures forall i :: 0 <= i < |r| ==> r[i].status == Confirmed || r[i].status == Completed
  {
    Filter(filtered, IsCounted)
  }

  /** Pending, cancelled and unknown statuses never make it into the confirmed list. */
  lemma ConfirmedExactly(filtered: seq<DashAppointment>, a: DashAppointment)
    ensures a in ConfirmedAppointments(filtered) <==> a in filtered && (a.status == Confirmed || a.status == Completed)
  {
    var r := ConfirmedAppointments(filtered);
    if a in r {
      var i :| 0 <= i < |r| && r[i] == a;
    }
    if a in filtered && IsCounted(a) {
      var i :| 0 <= i < |filtered| && filtered[i] == a;
    }
  }

  /** `a.service?.price || 0`. */
  function PriceOf(a: DashAppointment): (price: int)
    ensures a.service.None? ==> price == 0
    ensures price != 0 ==> a.service.Some? && price == a.service.value.priceCents
  {
    if a.service.Some? then a.service.value.priceCents else 0
  }

  /** `totalRevenue`: the prices summed from the first appointment on, a missing service adding 0. */
  function TotalRevenue(appts: seq<DashAppointment>): (total: int)
    ensures (forall i :: 0 <= i < |appts| ==> PriceOf(appts[i]) >= 0) ==> total >= 0
    ensures (forall i :: 0 <= i < |appts| ==> appts[i].service.None?) ==> total == 0
    decreases |appts|
  {
    if appts == [] then 0 else TotalRevenue(appts[..|appts| - 1]) + PriceOf(appts[|appts| - 1])
  }

  function HasService(a: DashAppointment): bool
  {
    a.service.Some?
  }

  /** How many appointments name a service. */
  function WithService(appts: seq<DashAppointment>): nat
    decreases |appts|
  {
    if appts == [] then 0
    else WithService(appts[..|appts| - 1]) + (if HasService(appts[|appts| - 1]) then 1 else 0)
  }

  // ---- per-service statistics --------------------------------------------------

  /** One value of the `stats` record, with the service id it is filed under. */
  datatype ServiceStat = ServiceStat(serviceId: string, name: string, count: int, revenue: int)

  /** The position of a service's entry, or the length when it has none. */
  function IndexOf(stats: seq<ServiceStat>, serviceId: string): (k: nat)
    ensures k <= |stats|
    ensures k < |stats| ==> stats[k].serviceId == serviceId
    ensures forall j :: 0 <= j < k ==> stats[j].serviceId != serviceId
  {
    if stats == [] then 0
    else if stats[0].serviceId == serviceId then 0
    else 1 + IndexOf(stats[1..], serviceId)
  }

  /** One step of the `forEach`: file the appointment under its service, adding the entry on first sight. */
  function Tally(stats: seq<ServiceStat>, a: DashAppointment): seq<ServiceStat>
  {
    match a.service
    case None => stats
    case Some(s) =>
      var k := IndexOf(stats, s.id);
      if k < |stats| then
        stats[k := stats[k].(count := stats[k].count + 1, revenue := stats[k].revenue + s.priceCents)]
      else
        stats + [ServiceStat(s.id, s.name, 1, s.priceCents)]
  }

  /** The record after the whole `forEach`, entries in the order services were first seen. */
  function TallyAll(appts: seq<DashAppointment>): seq<ServiceStat>
    decreases |appts|
  {
    if appts == [] then [] else Tally(TallyAll(appts[..|appts| - 1]), appts[|appts| - 1])
  }

  /** The statistics loop, entry by entry, starting each new entry at zero as the page does. */
  method ServiceStatsTable(confirmed: seq<DashAppointment>) returns (stats: seq<ServiceStat>)
    ensures stats == TallyAll(confirmed)
  {
    stats := [];
    var i := 0;
    while i < |confirmed|
      invariant 0 <= i <= |confirmed|
      invariant stats == TallyAll(confirmed[..i])
    {
      var a := confirmed[i];
      assert confirmed[..i + 1][..i] == confirmed[..i];
      if a.service.Some? {
        var s := a.service.value;
        var k := 0;
        while k < |stats| && stats[k].serviceId != s.id
          invariant 0 <= k <= |stats|
          invariant forall j :: 0 <= j < k ==> stats[j].serviceId != s.id
        {
          k := k + 1;
        }
        assert k == IndexOf(stats, s.id) by {
          IndexOfFirst(stats, s.id, k);
        }
        if k == |stats| {
          stats := stats + [ServiceStat(s.id, s.name, 0, 0)];
        }
        stats := stats[k := stats[k].(count := stats[k].count + 1)];
        stats := stats[k := stats[k].(revenue := stats[k].revenue + s.priceCents)];
      }
      i := i + 1;
    }
    assert confirmed[..i] == confirmed;
  }

  /** The first matching position is the one `IndexOf` gives. */
  lemma {:induction false} IndexOfFirst(stats: seq<ServiceStat>, serviceId: string, k: int)
    requires 0 <= k <= |stats|
    requires forall j :: 0 <= j < k ==> stats[j].serviceId != serviceId
    requires k < |stats| ==> stats[k].serviceId == serviceId
    ensures IndexOf(stats, serviceId) == k
  {
    if k > 0 {
      IndexOfFirst(stats[1..], serviceId, k - 1);
    }
  }

  predicate DistinctServices(stats: seq<ServiceStat>)
  {
    forall i, j :: 0 <= i < j < |stats| ==> stats[i].serviceId != stats[j].serviceId
  }

  function SumCounts(stats: seq<ServiceStat>): int
  {
    if stats == [] then 0 else stats[0].count + SumCounts(stats[1..])
  }

  function SumRevenues(stats: seq<ServiceStat>): int
  {
    if stats == [] then 0 else stats[0].revenue + SumRevenues(stats[1..])
  }

  lemma {:induction false} SumsAppend(stats: seq<ServiceStat>, x: ServiceStat)
    ensures SumCounts(stats + [x]) == SumCounts(stats) + x.count
    ensures SumRevenues(stats + [x]) == SumRevenues(stats) + x.revenue
  {
    if stats == [] {
      assert stats + [x] == [x];
    } else {
      assert (stats + [x])[1..] == stats[1..] + [x];
      SumsAppend(stats[1..], x);
    }
  }

  lemma {:induction false} SumsUpdate(stats: seq<ServiceStat>, k: int, x: ServiceStat)
    requires 0 <= k < |stats|
    ensures SumCounts(stats[k := x]) == SumCounts(stats) - stats[k].count + x.count
    ensures SumRevenues(stats[k := x]) == SumRevenues(stats) - stats[k].revenue + x.revenue
  {
    if k == 0 {
      assert stats[k := x][1..] == stats[1..];
    } else {
      assert stats[k := x][1..] == stats[1..][k - 1 := x];
      SumsUpdate(stats[1..], k - 1, x);
    }
  }

  /** One step adds one to the counts and the appointment's price to the revenues, keeping services distinct. */
  lemma TallyStep(stats: seq<ServiceStat>, a: DashAppointment)
    requires DistinctServices(stats)
    ensures DistinctServices(Tally(stats, a))
    ensures SumCounts(Tally(stats, a)) == SumCounts(stats) + (if HasService(a) then 1 else 0)
    ensures SumRevenues(Tally(stats, a)) == SumRevenues(stats) + PriceOf(a)
    ensures a.service.Some? ==> exists j :: 0 <= j < |Tally(stats, a)| && Tally(stats, a)[j].serviceId == a.service.value.id
  {
    if a.service.Some? {
      var s := a.service.value;
      var k := IndexOf(stats, s.id);
      if k < |stats| {
        SumsUpdate(stats, k, stats[k].(count := stats[k].count + 1, revenue := stats[k].revenue + s.priceCents));
        assert Tally(stats, a)[k].serviceId == s.id;
      } else {
        SumsAppend(stats, ServiceStat(s.id, s.name, 1, s.priceCents));
        assert Tally(stats, a)[k].serviceId == s.id;
      }
    }
  }

  /**
   * The table holds one entry per distinct service; its counts add up to
   * the appointments that have a service and its revenues to the total
   * revenue.
   */
  lemma {:induction false} TallyAllSums(appts: seq<DashAppointment>)
    ensures var stats := TallyAll(appts);
      DistinctServices(stats) &&
      SumCounts(stats) == WithService(appts) &&
      SumRevenues(stats) == TotalRevenue(appts)
    decreases |appts|
  {
    if appts != [] {
      TallyAllSums(appts[..|appts| - 1]);
      TallyStep(TallyAll(appts[..|appts| - 1]), appts[|appts| - 1]);
    }
  }

  /** Every appointment with a service has an entry for it. */
  lemma {:induction false} TallyAllCovers(appts: seq<DashAppointment>, i: int)
    requires 0 <= i < |appts| && appts[i].service.Some?
    ensures exists j :: 0 <= j < |TallyAll(appts)| && TallyAll(appts)[j].serviceId == appts[i].service.value.id
    decreases |appts|
  {
    var n := |appts| - 1;
    var before := TallyAll(appts[..n]);
    assert TallyAll(appts) == Tally(before, appts[n]);
    TallyAllSums(appts[..n]);
    if i == n {
      TallyStep(before, appts[n]);
    } else {
      assert appts[..n][i] == appts[i];
      TallyAllCovers(appts[..n], i);
      var j :| 0 <= j < |before| && before[j].serviceId == appts[i].service.value.id;
      TallyKeeps(before, appts[n], j);
    }
  }

  /** A step never drops or renames an entry. */
  lemma TallyKeeps(stats: seq<ServiceStat>, a: DashAppointment, j: int)
    requires 0 <= j < |stats|
    ensures j < |Tally(stats, a)| && Tally(stats, a)[j].serviceId == stats[j].serviceId
  {
  }

  // ---- sorting by count --------------------------------------------------------

  /** Counts never increase along the list. */
  predicate ByCountDescending(stats: seq<ServiceStat>)
  {
    forall i :: 0 < i < |stats| ==> stats[i - 1].count >= stats[i].count
  }

  /** Place an entry before the first one whose count is not larger (earlier entries first on ties). */
  function InsertByCount(x: ServiceStat, stats: seq<ServiceStat>): (r: seq<ServiceStat>)
    ensures multiset(r) == multiset(stats) + multiset{x}
    ensures |r| == |stats| + 1
    ensures r[0] == x || (stats != [] && r[0] == stats[0])
  {
    if stats == [] || stats[0].count <= x.count then [x] + stats
    else
      var h, t := stats[0], stats[1..];
      assert stats == [h] + t;
      [h] + InsertByCount(x, t)
  }

  /** `.sort((a, b) => b.count - a.count)`. */
  function SortByCount(stats: seq<ServiceStat>): (r: seq<ServiceStat>)
    ensures multiset(r) == multiset(stats)
    ensures |r| == |stats|
  {
    if stats == [] then []
    else
      assert stats == [stats[0]] + stats[1..];
      InsertByCount(stats[0], SortByCount(stats[1..]))
  }

  lemma {:induction false} InsertByCountSorted(x: ServiceStat, stats: seq<ServiceStat>)
    requires ByCountDescending(stats)
    ensures ByCountDescending(InsertByCount(x, stats))
  {
    if stats != [] && stats[0].count > x.count {
      InsertByCountSorted(x, stats[1..]);
    }
  }

  lemma {:induction false} InsertByCountSums(x: ServiceStat, stats: seq<ServiceStat>)
    ensures SumCounts(InsertByCount(x, stats)) == SumCounts(stats) + x.count
    ensures SumRevenues(InsertByCount(x, stats)) == SumRevenues(stats) + x.revenue
  {
    if stats != [] && stats[0].count > x.count {
      InsertByCountSums(x, stats[1..]);
      assert InsertByCount(x, stats)[1..] == InsertByCount(x, stats[1..]);
    }
  }

  /** The sorted table is ordered by count, holds the same entries and keeps both sums. */
  lemma {:induction false} SortByCountSpec(stats: seq<ServiceStat>)
    ensures ByCountDescending(SortByCount(stats))
    ensures SumCounts(SortByCount(stats)) == SumCounts(stats)
    ensures SumRevenues(SortByCount(stats)) == SumRevenues(stats)
  {
    if stats != [] {
      SortByCountSpec(stats[1..]);
      InsertByCountSorted(stats[0], SortByCount(stats[1..]));
      InsertByCountSums(stats[0], SortByCount(stats[1..]));
    }
  }

  /** `serviceStats`: the table filled by the loop, then sorted by count. */
  method ServiceStats(confirmed: seq<DashAppointment>) returns (stats: seq<ServiceStat>)
    ensures stats == SortByCount(TallyAll(confirmed))
    ensures ByCountDescending(stats)
    ensures SumCounts(stats) == WithService(confirmed)
    ensures SumRevenues(stats) == TotalRevenue(confirmed)
  {
    var table := ServiceStatsTable(confirmed);
    stats := SortByCount(table);
    SortByCountSpec(table);
    TallyAllSums(confirmed);
  }

  // ---- upcoming ----------------------------------------------------------------

  function IsUpcoming(today: string): DashAppointment -> bool
  {
    (a: DashAppointment) => !LexLess(a.date, today) && (a.status == Confirmed || a.status == Pending)
  }

  /** `upcomingAppointments`: the first five from today on that are confirmed or pending, in loaded order. */
  function UpcomingAppointments(appts: seq<DashAppointment>, today: string): (r: seq<DashAppointment>)
    ensures |r| <= 5
    ensures forall i :: 0 <= i < |r| ==>
      r[i] in appts && !LexLess(r[i].date, today) && (r[i].status == Confirmed || r[i].status == Pending)
  {
    var due := Filter(appts, IsUpcoming(today));
    if |due| <= 5 then due else due[..5]
  }

  lemma UpcomingSpec(appts: seq<DashAppointment>, today: string)
    ensures var r := UpcomingAppointments(appts, today);
      var due := Filter(appts, IsUpcoming(today));
      |r| <= 5 && |r| == (if |due| < 5 then |due| else 5) && r == due[..|r|] &&
      forall i :: 0 <= i < |r| ==>
        r[i] in appts && !LexLess(r[i].date, today) && (r[i].status == Confirmed || r[i].status == Pending)
  {
    var due := Filter(appts, IsUpcoming(today));
    var r := UpcomingAppointments(appts, today);
    forall i | 0 <= i < |r|
      ensures r[i] in appts && IsUpcoming(today)(r[i])
    {
      assert r[i] == due[i];
    }
  }
}

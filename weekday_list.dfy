/**
 * The weekday lists the admin forms edit (`workingDays` of the salon,
 * `available_days` of a professional) and their checkbox toggle: a present
 * day is filtered out; an absent day is appended and the list re-sorted with
 * `Array.prototype.sort()` and no comparator, which orders numbers by their
 * `String` forms.
 */
module WeekDayList {
  import opened Text
  import opened Seqs

  /** `a` comes before `b` under the default sort: `String(a) < String(b)`. */
  predicate JsBefore(a: int, b: int)
  {
    LexLess(IntString(a), IntString(b))
  }

  /** For single digits, and so for the weekdays 0..6, the default sort is numeric order. */
  lemma JsBeforeOnDigits(a: int, b: int)
    requires 0 <= a < 10 && 0 <= b < 10
    ensures JsBefore(a, b) <==> a < b
  {
    var x, y := IntString(a), IntString(b);
    assert x == [DigitChar(a)] && y == [DigitChar(b)];
    if a == b {
      LexLessIrreflexive(x);
    } else {
      assert DigitChar(a) != DigitChar(b) by {
        assert DigitValue(DigitChar(a)) == a && DigitValue(DigitChar(b)) == b;
      }
    }
  }

  /** With more than one digit it is not: 10 sorts before 9. */
  lemma TenBeforeNine()
    ensures JsBefore(10, 9)
  {
    assert IntString(10) == Decimal(1) + [DigitChar(0)];
    assert IntString(10)[0] == '1' && IntString(9) == ['9'];
  }

  lemma JsBeforeTransitive(a: int, b: int, c: int)
    requires JsBefore(a, b) && JsBefore(b, c)
    ensures JsBefore(a, c)
  {
    LexLessTransitive(IntString(a), IntString(b), IntString(c));
  }

  lemma JsBeforeAsymmetric(a: int, b: int)
    requires JsBefore(a, b)
    ensures !JsBefore(b, a) && a != b
  {
    LexLessAsymmetric(IntString(a), IntString(b));
  }

  /** Of two different numbers one sorts first. */
  lemma JsBeforeTotal(a: int, b: int)
    requires a != b
    ensures JsBefore(a, b) || JsBefore(b, a)
  {
    if IntString(a) == IntString(b) {
      IntStringInjective(a, b);
    }
    LexLessTotal(IntString(a), IntString(b));
  }

  /** Neighbours never sort backwards. */
  predicate Sorted(s: seq<int>)
  {
    forall i :: 0 < i < |s| ==> !JsBefore(s[i], s[i - 1])
  }

  /** Neighbours sort strictly forwards: sorted and without repeats. */
  predicate StrictlySorted(s: seq<int>)
  {
    forall i :: 0 < i < |s| ==> JsBefore(s[i - 1], s[i])
  }

  /** `x` placed before the first element that does not sort before it. */
  function Insert(x: int, s: seq<int>): (r: seq<int>)
    ensures multiset(r) == multiset(s) + multiset{x}
    ensures r[0] == x || (s != [] && r[0] == s[0])
  {
    if s == [] || !JsBefore(s[0], x) then [x] + s
    else
      var h, t := s[0], s[1..];
      assert multiset(s) == multiset{h} + multiset(t) by { assert s == [h] + t; }
      [h] + Insert(x, t)
  }

  lemma {:induction false} InsertSorted(x: int, s: seq<int>)
    requires Sorted(s)
    ensures Sorted(Insert(x, s))
  {
    if s != [] && JsBefore(s[0], x) {
      InsertSorted(x, s[1..]);
      var t := Insert(x, s[1..]);
      JsBeforeAsymmetric(s[0], x);
      assert !JsBefore(t[0], s[0]);
    }
  }

  /** The default sort: a sorted rearrangement of its input. */
  function JsSort(s: seq<int>): (r: seq<int>)
    ensures multiset(r) == multiset(s) && |r| == |s|
  {
    if s == [] then []
    else
      assert s == [s[0]] + s[1..];
      Insert(s[0], JsSort(s[1..]))
  }

  lemma {:induction false} JsSortSorted(s: seq<int>)
    ensures Sorted(JsSort(s))
  {
    if s != [] {
      JsSortSorted(s[1..]);
      InsertSorted(s[0], JsSort(s[1..]));
    }
  }

  /** In a strictly sorted list the head sorts before every later element. */
  lemma {:induction false} HeadFirst(s: seq<int>, k: int)
    requires StrictlySorted(s) && 0 < k < |s|
    ensures JsBefore(s[0], s[k])
    decreases k
  {
    if k > 1 {
      HeadFirst(s, k - 1);
      JsBeforeTransitive(s[0], s[k - 1], s[k]);
    }
  }

  /** Strictly sorted lists hold every number at most once. */
  lemma {:induction false} StrictlySortedOnce(s: seq<int>, x: int)
    requires StrictlySorted(s)
    ensures multiset(s)[x] <= 1
  {
    if s != [] {
      assert s == [s[0]] + s[1..];
      StrictlySortedOnce(s[1..], x);
      if x == s[0] && x in s[1..] {
        var k :| 0 <= k < |s[1..]| && s[1..][k] == x;
        HeadFirst(s, k + 1);
        JsBeforeAsymmetric(s[0], s[k + 1]);
      }
    }
  }

  lemma NeighbourCount(s: seq<int>, i: int)
    requires 0 < i < |s|
    ensures multiset(s)[s[i]] >= multiset{s[i - 1], s[i]}[s[i]]
  {
    assert s == s[..i - 1] + [s[i - 1], s[i]] + s[i + 1..];
    assert multiset(s) == multiset(s[..i - 1]) + multiset{s[i - 1], s[i]} + multiset(s[i + 1..]);
  }

  /** A sorted list that holds no number twice is strictly sorted. */
  lemma SortedOnceIsStrict(s: seq<int>)
    requires Sorted(s) && forall x :: multiset(s)[x] <= 1
    ensures StrictlySorted(s)
  {
    forall i | 0 < i < |s|
      ensures JsBefore(s[i - 1], s[i])
    {
      NeighbourCount(s, i);
      JsBeforeTotal(s[i - 1], s[i]);
    }
  }

  lemma TailStrictlySorted(s: seq<int>)
    requires StrictlySorted(s) && s != []
    ensures StrictlySorted(s[1..])
  {
    forall i | 0 < i < |s| - 1
      ensures JsBefore(s[1..][i - 1], s[1..][i])
    {
      assert s[1..][i - 1] == s[i] && s[1..][i] == s[i + 1];
    }
  }

  lemma SameHead(a: seq<int>, b: seq<int>)
    requires StrictlySorted(a) && StrictlySorted(b) && multiset(a) == multiset(b) && a != [] && b != []
    ensures a[0] == b[0]
  {
    assert a[0] in multiset(b) && b[0] in multiset(a);
    var k :| 0 <= k < |b| && b[k] == a[0];
    var m :| 0 <= m < |a| && a[m] == b[0];
    if k > 0 && m > 0 {
      HeadFirst(b, k);
      HeadFirst(a, m);
      JsBeforeAsymmetric(a[0], b[0]);
    }
  }

  /** Two strictly sorted lists with the same elements are the same list. */
  lemma {:induction false} StrictlySortedUnique(a: seq<int>, b: seq<int>)
    requires StrictlySorted(a) && StrictlySorted(b) && multiset(a) == multiset(b)
    ensures a == b
  {
    if a != [] {
      assert |b| == |multiset(b)| == |a|;
      SameHead(a, b);
      assert a == [a[0]] + a[1..] && b == [b[0]] + b[1..];
      assert multiset(a) == multiset{a[0]} + multiset(a[1..]);
      assert multiset(b) == multiset{b[0]} + multiset(b[1..]);
      assert multiset(a[1..]) == multiset(a) - multiset{a[0]};
      assert multiset(b[1..]) == multiset(b) - multiset{b[0]};
      TailStrictlySorted(a);
      TailStrictlySorted(b);
      StrictlySortedUnique(a[1..], b[1..]);
    } else {
      assert |b| == |multiset(b)| == 0;
    }
  }

  /** `x => x !== day`. */
  function Other(day: int): int -> bool
  {
    x => x != day
  }

  /** Filtering a number out removes all its copies and nothing else. */
  lemma {:induction false} FilterOutCount(s: seq<int>, day: int)
    ensures multiset(Filter(s, Other(day))) == multiset(s)[day := 0]
  {
    if s != [] {
      assert s == [s[0]] + s[1..];
      FilterOutCount(s[1..], day);
    }
  }

  lemma ConsStrictlySorted(x: int, t: seq<int>)
    requires StrictlySorted(t) && (t != [] ==> JsBefore(x, t[0]))
    ensures StrictlySorted([x] + t)
  {
    var r := [x] + t;
    forall i | 0 < i < |r|
      ensures JsBefore(r[i - 1], r[i])
    {
      if i > 1 {
        assert r[i - 1] == t[i - 2] && r[i] == t[i - 1];
      }
    }
  }

  lemma {:induction false} FilterStrictlySorted(s: seq<int>, p: int -> bool)
    requires StrictlySorted(s)
    ensures StrictlySorted(Filter(s, p))
  {
    if s != [] {
      var t := Filter(s[1..], p);
      assert StrictlySorted(s[1..]);
      FilterStrictlySorted(s[1..], p);
      if p(s[0]) {
        assert Filter(s, p) == [s[0]] + t;
        if t != [] {
          assert t[0] in s[1..];
          var k :| 0 <= k < |s[1..]| && s[1..][k] == t[0];
          HeadFirst(s, k + 1);
        }
        ConsStrictlySorted(s[0], t);
      }
    }
  }

  /** `handleWorkingDayToggle` / `handleDayToggle`. */
  function ToggleDay(days: seq<int>, day: int): seq<int>
  {
    if day in days then Filter(days, Other(day)) else JsSort(days + [day])
  }

  /** Toggling a present day removes it and keeps every other day, in order. */
  lemma ToggleRemoves(days: seq<int>, day: int)
    requires day in days
    ensures ToggleDay(days, day) == Filter(days, Other(day))
    ensures forall x :: x in ToggleDay(days, day) <==> x in days && x != day
  {
    forall x | x in days && x != day
      ensures x in ToggleDay(days, day)
    {
      var i :| 0 <= i < |days| && days[i] == x;
      assert Other(day)(days[i]);
    }
  }

  /** Toggling an absent day adds exactly it and leaves the list sorted. */
  lemma ToggleAdds(days: seq<int>, day: int)
    requires day !in days
    ensures multiset(ToggleDay(days, day)) == multiset(days) + multiset{day}
    ensures Sorted(ToggleDay(days, day))
  {
    JsSortSorted(days + [day]);
  }

  /** A strictly sorted list stays strictly sorted. */
  lemma ToggleKeepsStrictlySorted(days: seq<int>, day: int)
    requires StrictlySorted(days)
    ensures StrictlySorted(ToggleDay(days, day))
  {
    if day in days {
      FilterStrictlySorted(days, Other(day));
    } else {
      var r := ToggleDay(days, day);
      ToggleAdds(days, day);
      forall x
        ensures multiset(r)[x] <= 1
      {
        StrictlySortedOnce(days, x);
      }
      SortedOnceIsStrict(r);
    }
  }

  /** On a strictly sorted list, toggling a day twice gives the list back. */
  lemma ToggleTwice(days: seq<int>, day: int)
    requires StrictlySorted(days)
    ensures ToggleDay(ToggleDay(days, day), day) == days
  {
    var once := ToggleDay(days, day);
    var twice := ToggleDay(once, day);
    ToggleKeepsStrictlySorted(days, day);
    ToggleKeepsStrictlySorted(once, day);
    if day in days {
      UntickThenTick(days, day);
    } else {
      TickThenUntick(days, day);
    }
    StrictlySortedUnique(twice, days);
  }

  lemma UntickThenTick(days: seq<int>, day: int)
    requires StrictlySorted(days) && day in days
    ensures multiset(ToggleDay(ToggleDay(days, day), day)) == multiset(days)
  {
    var once := ToggleDay(days, day);
    StrictlySortedOnce(days, day);
    ToggleRemoves(days, day);
    FilterOutCount(days, day);
    assert day !in once;
    assert multiset(days)[day] == 1;
  }

  lemma TickThenUntick(days: seq<int>, day: int)
    requires day !in days
    ensures multiset(ToggleDay(ToggleDay(days, day), day)) == multiset(days)
  {
    var once := ToggleDay(days, day);
    ToggleAdds(days, day);
    assert day in multiset(once);
    FilterOutCount(once, day);
    assert multiset(days)[day] == 0;
  }

  /** On weekdays the toggle's order is the numeric one: a sorted list of them ascends. */
  lemma WeekDaysAscend(s: seq<int>)
    requires forall i :: 0 <= i < |s| ==> 0 <= s[i] <= 6
    ensures StrictlySorted(s) <==> forall i :: 0 < i < |s| ==> s[i - 1] < s[i]
  {
    forall i | 0 < i < |s|
      ensures JsBefore(s[i - 1], s[i]) <==> s[i - 1] < s[i]
    {
      JsBeforeOnDigits(s[i - 1], s[i]);
    }
  }

  /** An absent day lands in the one strictly sorted place for it. */
  lemma ToggleIntoPlace(days: seq<int>, day: int, want: seq<int>)
    requires StrictlySorted(days) && day !in days
    requires StrictlySorted(want) && multiset(want) == multiset(days) + multiset{day}
    ensures ToggleDay(days, day) == want
  {
    ToggleKeepsStrictlySorted(days, day);
    ToggleAdds(days, day);
    StrictlySortedUnique(ToggleDay(days, day), want);
  }
}

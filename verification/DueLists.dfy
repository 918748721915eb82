/** The dues of a list of costs in a window: the one definition the three summaries are held against. */
module DueLists {
  import opened Prelude
  import opened Recurrence

  datatype Due = Due(item: Cost, day: int)

  /** Costs of nothing are not counted at all; a cost without a known schedule is counted as unknown. */
  predicate Scheduled(c: Cost) {
    c.amount > 0 && Exact(c)
  }

  predicate Unscheduled(c: Cost) {
    c.amount > 0 && !Exact(c)
  }

  function Tag(c: Cost, days: seq<int>): (r: seq<Due>)
    ensures |r| == |days| && forall i :: 0 <= i < |r| ==> r[i] == Due(c, days[i])
  {
    seq(|days|, i requires 0 <= i < |days| => Due(c, days[i]))
  }

  function DuesOf(c: Cost, from: int, end: int): seq<Due> {
    if Scheduled(c) then Tag(c, Window(ScheduleOf(c), from, end)) else []
  }

  function Dues(items: seq<Cost>, from: int, end: int): seq<Due> {
    if items == [] then [] else Dues(items[..|items| - 1], from, end) + DuesOf(items[|items| - 1], from, end)
  }

  function Unknown(items: seq<Cost>): nat {
    if items == [] then 0 else Unknown(items[..|items| - 1]) + if Unscheduled(items[|items| - 1]) then 1 else 0
  }

  function Known(items: seq<Cost>): nat {
    if items == [] then 0 else Known(items[..|items| - 1]) + if Scheduled(items[|items| - 1]) then 1 else 0
  }

  function Total(dues: seq<Due>): int {
    if dues == [] then 0 else Total(dues[..|dues| - 1]) + dues[|dues| - 1].item.amount
  }

  /** A due is listed exactly when it is an occurrence, in the window, of a listed cost with a known schedule. */
  lemma {:induction false} DuesMembers(items: seq<Cost>, from: int, end: int, x: Due)
    ensures x in Dues(items, from, end) <==>
            x.item in items && Scheduled(x.item) && from <= x.day < end && OccursOn(ScheduleOf(x.item), x.day)
  {
    hide Exact, OccursOn, Window, ScheduleOf;
    if items != [] {
      var c := items[|items| - 1];
      DuesMembers(items[..|items| - 1], from, end, x);
      if Scheduled(c) {
        WindowMembers(ScheduleOf(c), from, end, x.day);
        TagMembers(c, Window(ScheduleOf(c), from, end), x);
      }
      assert items == items[..|items| - 1] + [c];
    }
  }

  lemma TagMembers(c: Cost, days: seq<int>, x: Due)
    ensures x in Tag(c, days) <==> x.item == c && x.day in days
  {
    if x.item == c && x.day in days {
      var i :| 0 <= i < |days| && days[i] == x.day;
      assert Tag(c, days)[i] == x;
    }
  }

  lemma {:induction false} TotalJoins(a: seq<Due>, b: seq<Due>)
    ensures Total(a + b) == Total(a) + Total(b)
  {
    if b == [] {
      assert a + b == a;
    } else {
      TotalJoins(a, b[..|b| - 1]);
      assert (a + b)[..|a + b| - 1] == a + b[..|b| - 1];
    }
  }

  lemma {:induction false} TotalOfTag(c: Cost, days: seq<int>)
    ensures Total(Tag(c, days)) == c.amount * |days|
  {
    if days != [] {
      TotalOfTag(c, days[..|days| - 1]);
      assert Tag(c, days)[..|days| - 1] == Tag(c, days[..|days| - 1]);
    }
  }

  lemma {:induction false} TotalNotNegative(items: seq<Cost>, from: int, end: int)
    ensures Total(Dues(items, from, end)) >= 0
  {
    hide Exact, Window, ScheduleOf, Total;
    if items == [] {
      assert Total([]) == 0 by {
        TotalOfNothing();
      }
    } else {
      var c := items[|items| - 1];
      TotalNotNegative(items[..|items| - 1], from, end);
      TotalJoins(Dues(items[..|items| - 1], from, end), DuesOf(c, from, end));
      if Scheduled(c) {
        TotalOfTag(c, Window(ScheduleOf(c), from, end));
      } else {
        TotalOfNothing();
      }
    }
  }

  lemma TotalOfNothing()
    ensures Total([]) == 0
  {
  }

  // ----- Joining lists -----

  lemma {:induction false} DuesJoin(a: seq<Cost>, b: seq<Cost>, from: int, end: int)
    ensures Dues(a + b, from, end) == Dues(a, from, end) + Dues(b, from, end)
    ensures Known(a + b) == Known(a) + Known(b)
    ensures Unknown(a + b) == Unknown(a) + Unknown(b)
  {
    hide Exact, DuesOf;
    if b == [] {
      assert a + b == a;
    } else {
      DuesJoin(a, b[..|b| - 1], from, end);
      assert (a + b)[..|a + b| - 1] == a + b[..|b| - 1];
    }
  }

  /** Nothing known means nothing due. */
  lemma {:induction false} NothingKnownNothingDue(items: seq<Cost>, from: int, end: int)
    requires Known(items) == 0
    ensures Dues(items, from, end) == []
  {
    if items != [] {
      NothingKnownNothingDue(items[..|items| - 1], from, end);
    }
  }

  /** Within 30 days no list has more than two dues for each of its known schedules. */
  lemma {:induction false} AtMostTwoEach(items: seq<Cost>, from: int)
    ensures |Dues(items, from, from + 30)| <= 2 * Known(items)
  {
    hide Exact, Window, ScheduleOf;
    if items != [] {
      AtMostTwoEach(items[..|items| - 1], from);
      if Scheduled(items[|items| - 1]) {
        AtMostTwo(ScheduleOf(items[|items| - 1]), from);
      }
    }
  }
}

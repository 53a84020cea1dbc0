/**
 * The `renew_subscriptions` management command: every row whose end date has
 * come is charged once, and each successful charge adds a new row for the same
 * user and plan starting today. The charge outcomes, random in the command, are
 * given as a sequence with one entry per row charged, in the order charged.
 */
module RenewCommand {
  import opened Optional
  import opened Dates
  import opened Models
  import opened Views

  /** The filter `end_date__lte=today`: a row with no end date never matches it. */
  predicate IsDue(s: Subscription, today: Date) {
    s.endDate.Some? && NotAfter(s.endDate.value, today)
  }

  /** The rows the command charges, in store order. */
  function Due(subs: seq<Subscription>, today: Date): (r: seq<Subscription>)
    ensures forall s :: s in r <==> s in subs && IsDue(s, today)
    ensures |r| <= |subs|
  {
    if subs == [] then []
    else
      var n := |subs| - 1;
      assert subs == subs[..n] + [subs[n]];
      Due(subs[..n], today) + (if IsDue(subs[n], today) then [subs[n]] else [])
  }

  /**
   * The filter keeps every copy of a due row and no copy of any other row:
   * identical rows are charged as often as they are stored.
   */
  lemma {:induction false} DueCount(subs: seq<Subscription>, s: Subscription, today: Date)
    ensures multiset(Due(subs, today))[s] == if IsDue(s, today) then multiset(subs)[s] else 0
  {
    if subs != [] {
      var n := |subs| - 1;
      assert subs == subs[..n] + [subs[n]];
      DueCount(subs[..n], s, today);
    }
  }

  /** The row written for a charged row whose payment went through. */
  function Renewal(s: Subscription, today: Date): (r: Subscription)
    ensures r.user == s.user && r.plan == s.plan && r.startDate == Some(today) && r.status == Active
    ensures r.endDate == Some(AddMonths(today, s.plan.durationMonths))
  {
    Saved(NewSubscription(s.user, s.plan, today))
  }

  function CountTrue(paid: seq<bool>): nat {
    if paid == [] then 0
    else CountTrue(paid[..|paid| - 1]) + (if paid[|paid| - 1] then 1 else 0)
  }

  /** The rows written, in order: one for each charged row whose payment succeeded. */
  function Renewals(due: seq<Subscription>, paid: seq<bool>, today: Date): seq<Subscription>
    requires |paid| == |due|
  {
    if due == [] then []
    else
      var n := |due| - 1;
      Renewals(due[..n], paid[..n], today) + (if paid[n] then [Renewal(due[n], today)] else [])
  }

  /** As many rows are written as payments succeed, and never more than rows charged. */
  lemma {:induction false} RenewalsCount(due: seq<Subscription>, paid: seq<bool>, today: Date)
    requires |paid| == |due|
    ensures |Renewals(due, paid, today)| == CountTrue(paid) <= |due|
  {
    if due != [] {
      RenewalsCount(due[..|due| - 1], paid[..|paid| - 1], today);
    }
  }

  /**
   * A row is written exactly for the charged rows whose payment succeeded, and it
   * copies that row's user and plan and starts today; a failed payment writes nothing.
   */
  lemma {:induction false} RenewalsExactly(due: seq<Subscription>, paid: seq<bool>, today: Date, r: Subscription)
    requires |paid| == |due|
    ensures r in Renewals(due, paid, today) <==>
              exists i :: 0 <= i < |due| && paid[i] && r == Renewal(due[i], today)
  {
    if due != [] {
      var n := |due| - 1;
      RenewalsExactly(due[..n], paid[..n], today, r);
      if r in Renewals(due, paid, today) && r !in Renewals(due[..n], paid[..n], today) {
        assert paid[n] && r == Renewal(due[n], today);
      }
      if exists i :: 0 <= i < |due| && paid[i] && r == Renewal(due[i], today) {
        var i :| 0 <= i < |due| && paid[i] && r == Renewal(due[i], today);
        if i < n {
          assert due[..n][i] == due[i] && paid[..n][i] == paid[i];
        }
      }
    }
  }

  /**
   * `Command.handle`. The command returns nothing; `renewed`, the number of rows
   * written, is an output of the model only.
   */
  method RenewExpired(store: Store, today: Date, paid: seq<bool>) returns (renewed: nat)
    requires store.Valid()
    requires |paid| == |Due(store.subscriptions, today)|
    modifies store
    ensures store.Valid()
    ensures store.subscriptions
            == old(store.subscriptions) + Renewals(Due(old(store.subscriptions), today), paid, today)
    ensures store.plans == old(store.plans) && store.payments == old(store.payments)
    ensures renewed == CountTrue(paid)
  {
    // The query set is read once, when the loop starts; rows written by the loop are not revisited.
    var due := Due(store.subscriptions, today);
    renewed := 0;
    for i := 0 to |due|
      invariant store.Valid()
      invariant store.subscriptions == old(store.subscriptions) + Renewals(due[..i], paid[..i], today)
      invariant store.plans == old(store.plans) && store.payments == old(store.payments)
      invariant renewed == CountTrue(paid[..i])
    {
      assert due[..i + 1][..i] == due[..i] && paid[..i + 1][..i] == paid[..i];
      assert due[i] in old(store.subscriptions);
      if paid[i] {
        store.SaveSubscription(NewSubscription(due[i].user, due[i].plan, today));
        renewed := renewed + 1;
      }
    }
    assert due[..|due|] == due && paid[..|paid|] == paid;
  }

  /** The due rows of a concatenation are the due rows of each part. */
  lemma {:induction false} DueAppend(a: seq<Subscription>, b: seq<Subscription>, today: Date)
    ensures Due(a + b, today) == Due(a, today) + Due(b, today)
  {
    if b == [] {
      assert a + b == a;
    } else {
      var n := |b| - 1;
      assert (a + b)[..|a + b| - 1] == a + b[..n];
      assert (a + b)[|a + b| - 1] == b[n];
      DueAppend(a, b[..n], today);
    }
  }

  /** A renewal on a plan of at least one month ends after today, so it is not due today. */
  lemma {:induction false} RenewalsNotDue(due: seq<Subscription>, paid: seq<bool>, today: Date)
    requires |paid| == |due|
    requires forall i :: 0 <= i < |due| ==> due[i].plan.durationMonths >= 1
    ensures Due(Renewals(due, paid, today), today) == []
  {
    if due != [] {
      var n := |due| - 1;
      RenewalsNotDue(due[..n], paid[..n], today);
      var done := Renewals(due[..n], paid[..n], today);
      if paid[n] {
        var r := Renewal(due[n], today);
        AddMonthsNotBefore(today, due[n].plan.durationMonths);
        NotAfterTotal(r.endDate.value, today);
        assert !IsDue(r, today);
        assert [r][..0] == [];
        assert Due([r], today) == [];
        DueAppend(done, [r], today);
        assert Renewals(due, paid, today) == done + [r];
      } else {
        assert Renewals(due, paid, today) == done + [];
        assert done + [] == done;
      }
    }
  }

  /**
   * The command is not idempotent: after one run, the rows due are the same rows
   * as before, so a second run the same day with the same outcomes charges the
   * same rows again and writes the same renewals a second time.
   */
  lemma {:induction false} SecondRunRenewsAgain(subs: seq<Subscription>, paid: seq<bool>, today: Date)
    requires |paid| == |Due(subs, today)|
    requires forall s :: s in subs && IsDue(s, today) ==> s.plan.durationMonths >= 1
    ensures var after := subs + Renewals(Due(subs, today), paid, today);
            Due(after, today) == Due(subs, today)
  {
    var due := Due(subs, today);
    forall i | 0 <= i < |due| ensures due[i].plan.durationMonths >= 1 {
      assert due[i] in due;
    }
    RenewalsNotDue(due, paid, today);
    DueAppend(subs, Renewals(due, paid, today), today);
  }

  /**
   * A row that ends today is both still active and charged: the command and the
   * `is_active` property overlap on the last day.
   */
  lemma EndingTodayIsActiveAndDue(s: Subscription, today: Date)
    requires s.status == Active && s.endDate == Some(today)
    ensures IsActive(s, today) && IsDue(s, today)
  {
  }
}

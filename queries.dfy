/**
 * The ORM queries the endpoints run, over a store that is three sequences of
 * rows. A query's order is the store's order unless it says otherwise.
 */
module Queries {
  import opened Optional
  import opened Dates
  import opened Models

  /** The filter `end_date__gte=today`: a row with no end date never matches it. */
  predicate EndsOnOrAfter(s: Subscription, today: Date) {
    s.endDate.Some? && NotAfter(today, s.endDate.value)
  }

  /** `UserSubscription.objects.filter(user=user, end_date__gte=today).exists()` */
  predicate HasCurrent(subs: seq<Subscription>, user: UserId, today: Date) {
    exists i :: 0 <= i < |subs| && subs[i].user == user && EndsOnOrAfter(subs[i], today)
  }

  /** `Payment.objects.filter(user=user, is_verified=False)` is not empty. */
  predicate HasUnverified(payments: seq<Payment>, user: UserId) {
    exists i :: 0 <= i < |payments| && payments[i].user == user && !payments[i].isVerified
  }

  predicate IsUnverifiedOf(p: Payment, user: UserId) {
    p.user == user && !p.isVerified
  }

  /** How many unverified payments the user has. */
  function CountUnverified(payments: seq<Payment>, user: UserId): (n: nat)
    ensures n <= |payments|
    ensures n == 0 <==> !HasUnverified(payments, user)
  {
    if payments == [] then 0
    else
      var rest := CountUnverified(payments[..|payments| - 1], user);
      assert forall i :: 0 <= i < |payments| - 1 ==> payments[..|payments| - 1][i] == payments[i];
      rest + (if IsUnverifiedOf(payments[|payments| - 1], user) then 1 else 0)
  }

  lemma {:induction false} CountUnverifiedAppend(payments: seq<Payment>, p: Payment, user: UserId)
    ensures CountUnverified(payments + [p], user)
            == CountUnverified(payments, user) + (if IsUnverifiedOf(p, user) then 1 else 0)
  {
    assert (payments + [p])[..|payments|] == payments;
  }

  /** `SubscriptionPlan.objects.get(id=id)`: the plan with that id, or none. */
  function FindPlan(plans: seq<Plan>, id: int): (r: Option<Plan>)
    ensures r.None? <==> forall i :: 0 <= i < |plans| ==> plans[i].id != id
    ensures r.Some? ==> r.value in plans && r.value.id == id
  {
    if plans == [] then None
    else if plans[0].id == id then Some(plans[0])
    else
      var r := FindPlan(plans[1..], id);
      assert forall i :: 1 <= i < |plans| ==> plans[i] == plans[1..][i - 1];
      r
  }

  /**
   * The order `order_by('-end_date')` puts rows in, read as "a comes no earlier
   * than b": a row without an end date sorts below every dated row.
   */
  predicate EndNotAfter(a: Subscription, b: Subscription) {
    a.endDate.None? || (b.endDate.Some? && NotAfter(a.endDate.value, b.endDate.value))
  }

  /**
   * `UserSubscription.objects.filter(user=user).order_by('-end_date').first()`:
   * the position of a row of the user whose end date no other row of the user
   * exceeds, or none when the user has no rows.
   */
  function LatestOf(subs: seq<Subscription>, user: UserId): (k: Option<nat>)
    ensures k.None? <==> forall i :: 0 <= i < |subs| ==> subs[i].user != user
    ensures k.Some? ==> k.value < |subs| && subs[k.value].user == user
    ensures k.Some? ==> forall j :: 0 <= j < |subs| && subs[j].user == user ==>
                          EndNotAfter(subs[j], subs[k.value])
  {
    if subs == [] then None
    else
      var n := |subs| - 1;
      var k := LatestOf(subs[..n], user);
      assert forall i :: 0 <= i < n ==> subs[..n][i] == subs[i];
      if subs[n].user != user then k
      else if k.None? then Some(n)
      else if EndNotAfter(subs[n], subs[k.value]) then k
      else
        assert forall j :: 0 <= j < |subs| && subs[j].user == user ==> EndNotAfter(subs[j], subs[n]) by {
          forall j | 0 <= j < |subs| && subs[j].user == user
            ensures EndNotAfter(subs[j], subs[n])
          {
            if j < n && subs[j].endDate.Some? {
              NotAfterTransitive(subs[j].endDate.value, subs[k.value].endDate.value, subs[n].endDate.value);
            }
          }
        }
        Some(n)
  }

  /** `filter(user__id=user)`: the user's rows in store order. */
  function OwnedBy(subs: seq<Subscription>, user: UserId): (r: seq<Subscription>)
    ensures forall s :: s in r <==> s in subs && s.user == user
    ensures forall s :: multiset(r)[s] == if s.user == user then multiset(subs)[s] else 0
  {
    if subs == [] then []
    else
      var rest := OwnedBy(subs[1..], user);
      assert subs == [subs[0]] + subs[1..];
      if subs[0].user == user then [subs[0]] + rest else rest
  }

  /** "a started no later than b", a row with no start date counting as earliest. */
  predicate StartNotAfter(a: Subscription, b: Subscription) {
    a.startDate.None? || (b.startDate.Some? && NotAfter(a.startDate.value, b.startDate.value))
  }

  predicate StartDescending(r: seq<Subscription>) {
    forall i, j :: 0 <= i < j < |r| ==> StartNotAfter(r[j], r[i])
  }

  /** Places x in front of the first row that started no later than it. */
  function InsertByStart(x: Subscription, r: seq<Subscription>): (res: seq<Subscription>)
    ensures multiset(res) == multiset(r) + multiset{x}
    ensures |res| == |r| + 1
    ensures StartDescending(r) ==> StartDescending(res)
  {
    if r == [] || StartNotAfter(r[0], x) then
      assert StartDescending(r) ==> StartDescending([x] + r) by {
        if StartDescending(r) && r != [] {
          forall j | 0 < j < |r| + 1 ensures StartNotAfter(([x] + r)[j], x) {
            StartNotAfterTransitive(r[j - 1], r[0], x);
          }
        }
      }
      [x] + r
    else
      var rest := InsertByStart(x, r[1..]);
      assert r == [r[0]] + r[1..];
      assert StartDescending(r) ==> StartDescending([r[0]] + rest) by {
        if StartDescending(r) {
          assert StartDescending(r[1..]);
          forall j | 0 <= j < |rest| ensures StartNotAfter(rest[j], r[0]) {
            assert rest[j] in multiset(rest);
            assert rest[j] == x || rest[j] in r[1..];
            StartNotAfterTotal(x, r[0]);
          }
        }
      }
      [r[0]] + rest
  }

  lemma StartNotAfterTransitive(a: Subscription, b: Subscription, c: Subscription)
    requires StartNotAfter(a, b) && StartNotAfter(b, c)
    ensures StartNotAfter(a, c)
  {
    if a.startDate.Some? {
      NotAfterTransitive(a.startDate.value, b.startDate.value, c.startDate.value);
    }
  }

  lemma StartNotAfterTotal(a: Subscription, b: Subscription)
    ensures StartNotAfter(a, b) || StartNotAfter(b, a)
  {
    if a.startDate.Some? && b.startDate.Some? {
      NotAfterTotal(a.startDate.value, b.startDate.value);
    }
  }

  /** `order_by('-start_date')`, by insertion. */
  function SortByStartDesc(s: seq<Subscription>): (r: seq<Subscription>)
    ensures multiset(r) == multiset(s)
    ensures StartDescending(r)
  {
    if s == [] then []
    else
      assert s == [s[0]] + s[1..];
      InsertByStart(s[0], SortByStartDesc(s[1..]))
  }
}

/**
 * The single-page client: the request interceptor that attaches the stored
 * token, the choice of the subscription to show, and the session and page state
 * of the `App` component. Server answers are passed in; the browser's
 * `localStorage` entry `authToken` is one optional string.
 */
module Client {
  import opened Optional
  import opened Dates
  import opened Models

  datatype Page = LoginPage | PlansPage | DashboardPage

  /** The body of `GET /api/user/`; `id` may be missing from it. */
  datatype UserInfo = UserInfo(id: Option<int>, username: string)

  datatype PlanInfo = PlanInfo(id: int, name: string, durationMonths: int)

  /** One element of `GET /api/users/<id>/subscriptions/`. */
  datatype SubRecord = SubRecord(
    planName: string,
    startDate: Option<Date>,
    endDate: Option<Date>,
    status: Status,
    isActive: bool)

  /** A request's result: the response data, or a rejected promise. */
  datatype Response<T> = Ok(data: T) | Failed

  /** The serializer's view of a row, `is_active` evaluated on the server's today. */
  function Serialize(s: Subscription, today: Date): (r: SubRecord)
    ensures r.isActive == IsActive(s, today)
    ensures r.endDate == s.endDate && r.status == s.status && r.planName == s.plan.name
  {
    SubRecord(s.plan.name, s.startDate, s.endDate, s.status, IsActive(s, today))
  }

  /** JavaScript truthiness of a stored string: present and not empty. */
  predicate Truthy(s: Option<string>) {
    s.Some? && s.value != ""
  }

  const Authorization := "Authorization"

  /** The request interceptor: `Authorization: Token <token>` when a token is stored. */
  function WithAuthHeader(headers: map<string, string>, stored: Option<string>): (r: map<string, string>)
    ensures Truthy(stored) ==> Authorization in r && r[Authorization] == "Token " + stored.value
    ensures !Truthy(stored) ==> r == headers
    ensures forall h :: h != Authorization ==> (h in r <==> h in headers)
    ensures forall h :: h != Authorization && h in headers ==> r[h] == headers[h]
  {
    if Truthy(stored) then headers[Authorization := "Token " + stored.value] else headers
  }

  /** Running the interceptor twice sets the same headers as running it once. */
  lemma {:induction false} WithAuthHeaderIdempotent(headers: map<string, string>, stored: Option<string>)
    ensures WithAuthHeader(WithAuthHeader(headers, stored), stored) == WithAuthHeader(headers, stored)
  {
    var once := WithAuthHeader(headers, stored);
    var twice := WithAuthHeader(once, stored);
    assert twice.Keys == once.Keys;
  }

  /**
   * The sort key `new Date(end_date)`, a time value; a null end date is
   * `new Date(null)`, the epoch.
   */
  function EndKey(r: SubRecord): int {
    Ordinal(if r.endDate.Some? then r.endDate.value else Epoch)
  }

  /** The comparator `(a, b) => new Date(b.end_date) - new Date(a.end_date)` is positive. */
  predicate EndsEarlier(a: SubRecord, b: SubRecord) {
    EndKey(a) < EndKey(b)
  }

  /** Ordering by the sort key is ordering by end date, a missing one counting as the epoch. */
  lemma {:induction false} EndsEarlierIsBefore(a: SubRecord, b: SubRecord)
    requires a.endDate.Some? && b.endDate.Some?
    ensures EndsEarlier(a, b) <==> Before(a.endDate.value, b.endDate.value)
  {
    OrdinalOrder(a.endDate.value, b.endDate.value);
  }

  predicate Descending(s: seq<SubRecord>) {
    forall i, j :: 0 <= i < j < |s| ==> !EndsEarlier(s[i], s[j])
  }

  /**
   * One step of a stable insertion sort: x, which came after everything in p,
   * moves left past the elements that end earlier than it and stops behind the
   * first that does not.
   */
  function InsertDesc(p: seq<SubRecord>, x: SubRecord): (r: seq<SubRecord>)
    ensures |r| == |p| + 1
  {
    if p == [] || !EndsEarlier(p[|p| - 1], x) then p + [x]
    else InsertDesc(p[..|p| - 1], x) + [p[|p| - 1]]
  }

  lemma {:induction false} InsertDescPermutes(p: seq<SubRecord>, x: SubRecord)
    ensures multiset(InsertDesc(p, x)) == multiset(p) + multiset{x}
  {
    if p != [] && EndsEarlier(p[|p| - 1], x) {
      var n := |p| - 1;
      InsertDescPermutes(p[..n], x);
      assert p == p[..n] + [p[n]];
    }
  }

  /** The result of sorting with the comparator above: a stable sort, latest end date first. */
  function SortDesc(s: seq<SubRecord>): (r: seq<SubRecord>)
    ensures |r| == |s|
  {
    if s == [] then []
    else InsertDesc(SortDesc(s[..|s| - 1]), s[|s| - 1])
  }

  /** Sorting only reorders the response. */
  lemma {:induction false} SortDescPermutes(s: seq<SubRecord>)
    ensures multiset(SortDesc(s)) == multiset(s)
  {
    if s != [] {
      var n := |s| - 1;
      SortDescPermutes(s[..n]);
      InsertDescPermutes(SortDesc(s[..n]), s[n]);
      assert s == s[..n] + [s[n]];
    }
  }

  lemma {:induction false} InsertDescKeepsOrder(p: seq<SubRecord>, x: SubRecord)
    requires Descending(p)
    ensures Descending(InsertDesc(p, x))
    ensures InsertDesc(p, x)[0] == if p != [] && !EndsEarlier(p[0], x) then p[0] else x
  {
    var r := InsertDesc(p, x);
    if p == [] || !EndsEarlier(p[|p| - 1], x) {
      forall i | 0 <= i < |p| ensures !EndsEarlier(p[i], x) {
        if i < |p| - 1 {
        }
      }
      if p != [] {
        assert !EndsEarlier(p[0], x);
      }
    } else {
      var n := |p| - 1;
      var q := InsertDesc(p[..n], x);
      InsertDescKeepsOrder(p[..n], x);
      InsertDescPermutes(p[..n], x);
      assert r == q + [p[n]];
      forall i | 0 <= i < |q| ensures !EndsEarlier(q[i], p[n]) {
        assert q[i] in multiset(q);
        if q[i] != x {
          assert q[i] in multiset(p[..n]);
          var k :| 0 <= k < n && p[..n][k] == q[i];
        }
      }
      if n == 0 {
        assert p[0] == p[n];
      } else if EndsEarlier(p[0], x) {
        assert p[..n][0] == p[0];
      } else {
        assert p[..n][0] == p[0];
      }
    }
  }

  lemma {:induction false} SortDescIsDescending(s: seq<SubRecord>)
    ensures Descending(SortDesc(s))
  {
    if s != [] {
      SortDescIsDescending(s[..|s| - 1]);
      InsertDescKeepsOrder(SortDesc(s[..|s| - 1]), s[|s| - 1]);
    }
  }

  /** The first position whose end date no other element exceeds. */
  function FirstLatest(s: seq<SubRecord>): (k: nat)
    requires s != []
    ensures k < |s|
    ensures forall j :: 0 <= j < |s| ==> !EndsEarlier(s[k], s[j])
    ensures forall j :: 0 <= j < k ==> EndsEarlier(s[j], s[k])
  {
    if |s| == 1 then 0
    else
      var n := |s| - 1;
      var k := FirstLatest(s[..n]);
      assert forall j :: 0 <= j < n ==> s[..n][j] == s[j];
      if EndsEarlier(s[k], s[n]) then
        n
      else
        k
  }

  /**
   * `sort(...)[0]` is the first element, in response order, of those with the
   * latest end date: the stable sort sends ties to the earliest position.
   */
  lemma {:induction false} SortDescHead(s: seq<SubRecord>)
    requires s != []
    ensures SortDesc(s)[0] == s[FirstLatest(s)]
  {
    var n := |s| - 1;
    if n == 0 {
      assert SortDesc(s) == InsertDesc([], s[0]);
    } else {
      var p := SortDesc(s[..n]);
      SortDescHead(s[..n]);
      SortDescIsDescending(s[..n]);
      InsertDescKeepsOrder(p, s[n]);
      assert s[..n][FirstLatest(s[..n])] == s[FirstLatest(s[..n])];
    }
  }

  /** `InsertDesc` places x at the position where the shifting loop stops. */
  lemma {:induction false} InsertDescAt(p: seq<SubRecord>, x: SubRecord, j: nat)
    requires j <= |p|
    requires forall k :: j <= k < |p| ==> EndsEarlier(p[k], x)
    requires j == 0 || !EndsEarlier(p[j - 1], x)
    ensures InsertDesc(p, x) == p[..j] + [x] + p[j..]
  {
    if j < |p| {
      var n := |p| - 1;
      InsertDescAt(p[..n], x, j);
      assert p[..n][..j] == p[..j];
      assert p[..n][j..] + [p[n]] == p[j..];
    } else {
      assert p[..j] == p && p[j..] == [];
    }
  }

  /**
   * Moves `a[i]` left past the elements before it that end earlier, shifting them
   * right by one; `j` is where it lands.
   */
  method InsertIntoPrefix(a: array<SubRecord>, i: nat)
    requires i < a.Length
    modifies a
    ensures a[..i + 1] == InsertDesc(old(a[..i]), old(a[i]))
    ensures forall k :: i < k < a.Length ==> a[k] == old(a[k])
  {
    ghost var p := a[..i];
    var x := a[i];
    var j := i;
    while j > 0 && EndsEarlier(a[j - 1], x)
      invariant 0 <= j <= i
      invariant forall k :: 0 <= k < j ==> a[k] == old(a[k])
      invariant forall k :: j < k <= i ==> a[k] == old(a[k - 1])
      invariant forall k :: i < k < a.Length ==> a[k] == old(a[k])
      invariant forall k :: j <= k < i ==> EndsEarlier(old(a[k]), x)
    {
      a[j] := a[j - 1];
      j := j - 1;
    }
    a[j] := x;
    ghost var inserted := p[..j] + [x] + p[j..];
    forall k | 0 <= k <= i ensures a[k] == inserted[k] {
      if k > j {
        assert inserted[k] == p[j..][k - j - 1];
      }
    }
    assert a[..i + 1] == inserted;
    InsertDescAt(p, x, j);
  }

  /** Sorting one more element of the response is inserting it into the sorted prefix. */
  lemma SortDescSnoc(s: seq<SubRecord>, i: nat)
    requires i < |s|
    ensures SortDesc(s[..i + 1]) == InsertDesc(SortDesc(s[..i]), s[i])
  {
    assert s[..i + 1][..i] == s[..i];
  }

  /** `response.data.sort(...)`, which the client runs in place; an insertion sort. */
  method SortByEndDesc(a: array<SubRecord>)
    modifies a
    ensures a[..] == SortDesc(old(a[..]))
  {
    ghost var s := a[..];
    for i := 0 to a.Length
      invariant a[..i] == SortDesc(s[..i])
      invariant forall k :: i <= k < a.Length ==> a[k] == s[k]
    {
      InsertIntoPrefix(a, i);
      SortDescSnoc(s, i);
    }
    assert s[..a.Length] == s;
  }

  /** The dashboard offers "Renew Subscription" when a subscription is shown and is not active. */
  function OffersRenew(shown: Option<SubRecord>): bool {
    shown.Some? && !shown.value.isActive
  }

  /**
   * For a row the server lists, Renew is offered exactly when `is_active` is
   * false: for every PENDING, EXPIRED or CANCELED row, and for an ACTIVE row
   * whose end date has passed.
   */
  lemma {:induction false} RenewOfferedIffInactive(s: Subscription, today: Date)
    ensures OffersRenew(Some(Serialize(s, today))) <==> !IsActive(s, today)
    ensures s.status != Active ==> OffersRenew(Some(Serialize(s, today)))
  {
    OnlyActiveStatusIsActive(s, today);
  }

  /** Everything the `App` component's handlers read or write. */
  datatype View = View(
    token: Option<string>,
    user: Option<UserInfo>,
    plans: seq<PlanInfo>,
    subscription: Option<SubRecord>,
    message: string,
    currentPage: Page,
    storedToken: Option<string>)

  const LoginFailedMessage := "Login failed. Please check your credentials."
  const StatusFailedMessage := "Failed to fetch subscription status."
  const PlansFailedMessage := "Failed to load plans."

  /** The `App` component's state. `storedToken` is the `authToken` entry of `localStorage`. */
  class App {
    var token: Option<string>
    var user: Option<UserInfo>
    var plans: seq<PlanInfo>
    var subscription: Option<SubRecord>
    var message: string
    var currentPage: Page
    var storedToken: Option<string>

    function Snapshot(): View
      reads this
    {
      View(token, user, plans, subscription, message, currentPage, storedToken)
    }

    /** The signed-out state that logout leads to. */
    predicate SignedOut()
      reads this
    {
      token == None && user == None && subscription == None && storedToken == None
      && currentPage == LoginPage
    }

    /** The first render, with whatever the browser had stored. */
    constructor (stored: Option<string>)
      ensures Snapshot() == View(None, None, [], None, "", LoginPage, stored)
    {
      token, user, plans, subscription := None, None, [], None;
      message, currentPage, storedToken := "", LoginPage, stored;
    }

    /**
     * The mount effect: a stored token is taken into the state, and the caller
     * then fetches the user (`fetchUser`).
     */
    method Restore() returns (fetchUser: bool)
      modifies this
      ensures fetchUser == Truthy(storedToken)
      ensures Snapshot() == if fetchUser then old(Snapshot()).(token := storedToken) else old(Snapshot())
    {
      fetchUser := Truthy(storedToken);
      if fetchUser {
        token := storedToken;
      }
    }

    /** `fetchUserData`: success shows the plans; failure drops the token and stays on the page. */
    method FetchUserData(response: Response<UserInfo>)
      modifies this
      ensures response.Ok? ==>
                Snapshot() == old(Snapshot()).(user := Some(response.data), currentPage := PlansPage)
      ensures response.Failed? ==>
                Snapshot() == old(Snapshot()).(storedToken := None, token := None)
    {
      match response
      case Ok(data) =>
        user := Some(data);
        currentPage := PlansPage;
      case Failed =>
        storedToken := None;
        token := None;
    }

    /** `fetchPlans` */
    method FetchPlans(response: Response<seq<PlanInfo>>)
      modifies this
      ensures response.Ok? ==> Snapshot() == old(Snapshot()).(plans := response.data)
      ensures response.Failed? ==> Snapshot() == old(Snapshot()).(message := PlansFailedMessage)
    {
      match response
      case Ok(data) => plans := data;
      case Failed => message := PlansFailedMessage;
    }

    /**
     * `fetchSubscriptionStatus`: without a user id no request is made and nothing
     * changes (`requested` is the id asked for). A non-empty list shows the first
     * element with the latest end date on the dashboard; an empty list or a
     * failure clears the subscription and shows the plans.
     */
    method FetchSubscriptionStatus(response: Response<seq<SubRecord>>) returns (requested: Option<int>)
      modifies this
      ensures requested == if user.Some? && user.value.id.Some? && user.value.id.value != 0
                           then user.value.id else None
      ensures requested.None? ==> Snapshot() == old(Snapshot())
      ensures requested.Some? && response.Ok? && response.data != [] ==>
                && subscription == Some(response.data[FirstLatest(response.data)])
                && Snapshot() == old(Snapshot()).(subscription := subscription, currentPage := DashboardPage)
      ensures requested.Some? && response.Ok? && response.data == [] ==>
                Snapshot() == old(Snapshot()).(subscription := None, currentPage := PlansPage)
      ensures requested.Some? && response.Failed? ==>
                Snapshot() == old(Snapshot()).(subscription := None, currentPage := PlansPage,
                                               message := StatusFailedMessage)
    {
      if user.None? || user.value.id.None? || user.value.id.value == 0 {
        return None;
      }
      requested := user.value.id;
      match response
      case Ok(data) =>
        if |data| > 0 {
          var sorted := new SubRecord[|data|](i requires 0 <= i < |data| => data[i]);
          assert sorted[..] == data;
          SortByEndDesc(sorted);
          SortDescHead(data);
          subscription := Some(sorted[0]);
          currentPage := DashboardPage;
        } else {
          subscription := None;
          currentPage := PlansPage;
        }
      case Failed =>
        message := StatusFailedMessage;
        subscription := None;
        currentPage := PlansPage;
    }

    /**
     * `handleLogin`: a token from the server goes into the state and the storage,
     * and the caller then fetches the user; a failure only sets the message.
     */
    method HandleLogin(response: Response<string>)
      modifies this
      ensures response.Ok? ==>
                Snapshot() == old(Snapshot()).(token := Some(response.data), storedToken := Some(response.data))
      ensures response.Failed? ==> Snapshot() == old(Snapshot()).(message := LoginFailedMessage)
    {
      match response
      case Ok(t) =>
        token := Some(t);
        storedToken := Some(t);
      case Failed =>
        message := LoginFailedMessage;
    }

    /**
     * `handleLogout`: clears the session and the stored token and shows the login
     * page; plans and message stay. A second logout changes nothing.
     */
    method HandleLogout()
      modifies this
      ensures SignedOut()
      ensures plans == old(plans) && message == old(message)
      ensures old(SignedOut()) ==> Snapshot() == old(Snapshot())
    {
      token := None;
      user := None;
      subscription := None;
      storedToken := None;
      currentPage := LoginPage;
    }
  }
}

/** Tenant headroom and exceeded reservations of a Host quota, with quantities whose big values share a heap object
    (internal/provider/host/quota.go:26-75, internal/controller/virtualcluster_controller.go:427-450). */
module Quota {
  import opened Api
  import Resolution
  import Text

  // ---- accounting, on amounts --------------------------------------------------------------------

  /** The reservation that applies to a quota key: its own entry, or the one of the resource behind its prefix. */
  function ReservedFor(reservation: ResourceList, key: string): Option<int> {
    if key in reservation then Some(reservation[key])
    else if Text.HasPrefix(key, Resolution.REQUESTS) && Text.TrimPrefix(key, Resolution.REQUESTS) in reservation
    then Some(reservation[Text.TrimPrefix(key, Resolution.REQUESTS)])
    else if Text.HasPrefix(key, Resolution.LIMITS) && Text.TrimPrefix(key, Resolution.LIMITS) in reservation
    then Some(reservation[Text.TrimPrefix(key, Resolution.LIMITS)])
    else None
  }

  function ReservedAmount(reservation: ResourceList, key: string): int {
    if ReservedFor(reservation, key).Some? then ReservedFor(reservation, key).value else 0
  }

  /** What is left of a key before the floor at zero. */
  function Left(hard: ResourceList, used: ResourceList, reservation: ResourceList, key: string): int
    requires key in hard
  {
    hard[key] - At(used, key) - ReservedAmount(reservation, key)
  }

  function Headroom(hard: ResourceList, used: ResourceList, reservation: ResourceList): ResourceList {
    map key | key in hard :: Max(Left(hard, used, reservation, key), 0)
  }

  predicate Exceeded(hard: ResourceList, used: ResourceList, reservation: ResourceList) {
    exists key :: key in used && key in hard && used[key] > hard[key] - ReservedAmount(reservation, key)
  }

  /** A reservation of a resource applies to the quota of its requests and of its limits, unless those have their own. */
  lemma ReservationApplies(reservation: ResourceList, resource: string)
    ensures ReservedAmount(reservation, "requests." + resource)
      == if "requests." + resource in reservation then reservation["requests." + resource] else if resource in reservation then reservation[resource] else 0
    ensures ReservedAmount(reservation, "limits." + resource)
      == if "limits." + resource in reservation then reservation["limits." + resource] else if resource in reservation then reservation[resource] else 0
  {
    var requests, limits := Resolution.REQUESTS + resource, Resolution.LIMITS + resource;
    assert requests[0] == 'r' && limits[0] == 'l' && Resolution.REQUESTS[0] == 'r' && Resolution.LIMITS[0] == 'l';
    assert Text.TrimPrefix(requests, Resolution.REQUESTS) == resource && Text.TrimPrefix(limits, Resolution.LIMITS) == resource;
  }

  /** So with the platform's reservations 600 milli of CPU are taken off both the request and the limit quota. */
  lemma PlatformHeadroom(hard: ResourceList, used: ResourceList)
    ensures var left := Headroom(hard, used, Combined(CONTROL_PLANE_RESERVATION, REFLECTED_SYSTEM_RESERVATION));
      && left.Keys == hard.Keys
      && (forall key :: key in {"requests.cpu", "limits.cpu"} && key in hard ==> left[key] == Max(0, hard[key] - At(used, key) - 600))
      && (forall key :: key in {"requests.memory", "limits.memory"} && key in hard ==> left[key] == Max(0, hard[key] - At(used, key) - 1342177280000))
  {
    var reserved := Combined(CONTROL_PLANE_RESERVATION, REFLECTED_SYSTEM_RESERVATION);
    KeysAre();
    ReservationApplies(reserved, "cpu");
    ReservationApplies(reserved, "memory");
  }

  lemma KeysAre()
    ensures "requests." + "cpu" == "requests.cpu" && "limits." + "cpu" == "limits.cpu"
    ensures "requests." + "memory" == "requests.memory" && "limits." + "memory" == "limits.memory"
    ensures var reserved := Combined(CONTROL_PLANE_RESERVATION, REFLECTED_SYSTEM_RESERVATION);
      && reserved == map["cpu" := 600, "memory" := 1342177280000]
      && forall key :: key in {"requests.cpu", "limits.cpu", "requests.memory", "limits.memory"} ==> key !in reserved
  {
    assert |"cpu"| == 3 && |"memory"| == 6 && |"requests.cpu"| == 12 && |"limits.cpu"| == 10 && |"requests.memory"| == 15 && |"limits.memory"| == 13;
  }

  /** Nothing is lost between the two: a reservation is exceeded exactly when a used key was floored from below zero, and
      otherwise headroom, usage and reservation add up to the quota. */
  lemma AccountsBalance(hard: ResourceList, used: ResourceList, reservation: ResourceList)
    ensures Exceeded(hard, used, reservation) <==> exists key :: key in hard && key in used && Left(hard, used, reservation, key) < 0
    ensures !Exceeded(hard, used, reservation) ==> forall key :: key in hard && key in used ==>
      Headroom(hard, used, reservation)[key] + used[key] + ReservedAmount(reservation, key) == hard[key]
  {
    forall key | key in hard && key in used
      ensures used[key] > hard[key] - ReservedAmount(reservation, key) <==> Left(hard, used, reservation, key) < 0
    {
    }
    if Exceeded(hard, used, reservation) {
      var key :| key in used && key in hard && used[key] > hard[key] - ReservedAmount(reservation, key);
      assert Left(hard, used, reservation, key) < 0;
    }
  }

  // ---- quantities on the heap --------------------------------------------------------------------

  class Dec {
    var value: int

    constructor (v: int)
      ensures value == v
    {
      value := v;
    }
  }

  /** A small amount is held in place; a big one points to a Dec, which copies of the quantity share. */
  datatype Amount = Small(n: int) | Big(dec: Dec)

  function Value(q: Amount): int
    reads if q.Big? then {q.dec} else {}
  {
    if q.Big? then q.dec.value else q.n
  }

  type Table = map<string, Amount>

  function Decs(t: Table): set<Dec> {
    set key | key in t && t[key].Big? :: t[key].dec
  }

  const INT64_LIMIT := 0x8000_0000_0000_0000

  predicate Fits(n: int) {
    -INT64_LIMIT <= n < INT64_LIMIT
  }

  method DeepCopy(q: Amount) returns (r: Amount)
    ensures Value(r) == Value(q) && (r.Big? ==> fresh(r.dec))
  {
    if q.Small? {
      return q;
    }
    var d := new Dec(q.dec.value);
    r := Big(d);
  }

  /** Subtracts in place: a big receiver changes the object that all its copies share. */
  method Sub(q: Amount, y: Amount) returns (r: Amount)
    modifies if q.Big? then {q.dec} else {}
    ensures Value(r) == old(Value(q)) - old(Value(y))
    ensures r.Big? ==> fresh(r.dec) || (q.Big? && r.dec == q.dec)
    ensures q.Big? ==> r == q
  {
    if q.Small? && y.Small? && Fits(q.n - y.n) {
      return Small(q.n - y.n);
    }
    if q.Small? {
      var d := new Dec(q.n - Value(y));
      return Big(d);
    }
    q.dec.value := q.dec.value - Value(y);
    r := q;
  }

  method Add(q: Amount, y: Amount) returns (r: Amount)
    modifies if q.Big? then {q.dec} else {}
    ensures Value(r) == old(Value(q)) + old(Value(y))
    ensures r.Big? ==> fresh(r.dec) || (q.Big? && r.dec == q.dec)
    ensures q.Big? ==> r == q
  {
    if q.Small? && y.Small? && Fits(q.n + y.n) {
      return Small(q.n + y.n);
    }
    if q.Small? {
      var d := new Dec(q.n + Value(y));
      return Big(d);
    }
    q.dec.value := q.dec.value + Value(y);
    r := q;
  }

  /** The table holds these amounts. */
  ghost predicate Holds(t: Table, amounts: ResourceList)
    reads Decs(t)
  {
    t.Keys == amounts.Keys && forall key :: key in t ==> Value(t[key]) == amounts[key]
  }

  /** The table entry that ReservedFor picks. */
  method ReservationForQuotaKey(reservation: Table, key: string, ghost amounts: ResourceList) returns (r: Option<Amount>)
    requires Holds(reservation, amounts)
    ensures r.None? <==> ReservedFor(amounts, key).None?
    ensures r.Some? ==> Value(r.value) == ReservedFor(amounts, key).value
  {
    if key in reservation {
      return Some(reservation[key]);
    }
    var prefixes := [Resolution.REQUESTS, Resolution.LIMITS];
    for i := 0 to 2
      invariant forall j :: 0 <= j < i ==> !(Text.HasPrefix(key, prefixes[j]) && Text.TrimPrefix(key, prefixes[j]) in reservation)
    {
      if Text.HasPrefix(key, prefixes[i]) && Text.TrimPrefix(key, prefixes[i]) in reservation {
        return Some(reservation[Text.TrimPrefix(key, prefixes[i])]);
      }
    }
    assert prefixes[0] == Resolution.REQUESTS && prefixes[1] == Resolution.LIMITS;
    r := None;
  }

  // ---- the two functions, which change no quantity of their callers ------------------------------

  method HeadroomOf(limit: Amount, key: string, used: Table, reservation: Table, ghost u: ResourceList, ghost s: ResourceList)
    returns (r: Amount)
    requires Holds(used, u) && Holds(reservation, s)
    ensures Value(r) == Max(Value(limit) - At(u, key) - ReservedAmount(s, key), 0)
    ensures r.Big? ==> fresh(r.dec)
  {
    var reserved := ReservationForQuotaKey(reservation, key, s);
    ghost var amount := Value(limit);
    r := DeepCopy(limit);
    if key in used {
      r := Sub(r, used[key]);
    }
    assert Value(r) == amount - At(u, key);
    if reserved.Some? {
      assert Value(reserved.value) == ReservedAmount(s, key);
      r := Sub(r, reserved.value);
    }
    assert Value(r) == amount - At(u, key) - ReservedAmount(s, key);
    if Value(r) < 0 {
      r := Small(0);
    }
  }

  method FillHeadroom(hard: Table, used: Table, reservation: Table, ghost u: ResourceList, ghost s: ResourceList, ghost target: ResourceList)
    returns (result: Table)
    requires Holds(used, u) && Holds(reservation, s) && target.Keys == hard.Keys
    requires forall key :: key in hard ==> target[key] == Max(Value(hard[key]) - At(u, key) - ReservedAmount(s, key), 0)
    ensures Holds(result, target)
    ensures forall key :: key in result && result[key].Big? ==> fresh(result[key].dec)
  {
    result := map[];
    var left := hard.Keys;
    while left != {}
      invariant left <= hard.Keys && result.Keys == hard.Keys - left
      invariant forall key :: key in result && result[key].Big? ==> fresh(result[key].dec)
      invariant forall key :: key in result ==> Value(result[key]) == target[key]
      decreases left
    {
      var key :| key in left;
      left := left - {key};
      var value := HeadroomOf(hard[key], key, used, reservation, u, s);
      result := result[key := value];
    }
  }

  /** Without a modifies clause: hard, used and reservation keep their amounts although Sub works in place. */
  method TenantHeadroom(hard: Table, used: Table, reservation: Table, ghost h: ResourceList, ghost u: ResourceList, ghost s: ResourceList)
    returns (result: Table)
    requires Holds(hard, h) && Holds(used, u) && Holds(reservation, s)
    ensures Holds(result, Headroom(h, u, s))
    ensures Holds(hard, h) && Holds(used, u) && Holds(reservation, s)
    ensures forall key :: key in result && result[key].Big? ==> fresh(result[key].dec)
  {
    result := FillHeadroom(hard, used, reservation, u, s, Headroom(h, u, s));
  }

  method KeyExceeded(limit0: Amount, current: Amount, key: string, reservation: Table, ghost s: ResourceList) returns (r: bool)
    requires Holds(reservation, s)
    ensures r == (Value(current) > Value(limit0) - ReservedAmount(s, key))
  {
    var reserved := ReservationForQuotaKey(reservation, key, s);
    var amount := if reserved.Some? then reserved.value else Small(0);
    assert Value(amount) == ReservedAmount(s, key);
    var limit := DeepCopy(limit0);
    limit := Sub(limit, amount);
    r := Value(current) > Value(limit);
  }

  method ReservationExceeded(hard: Table, used: Table, reservation: Table, ghost h: ResourceList, ghost u: ResourceList, ghost s: ResourceList)
    returns (r: bool)
    requires Holds(hard, h) && Holds(used, u) && Holds(reservation, s)
    ensures r == Exceeded(h, u, s)
    ensures Holds(hard, h) && Holds(used, u) && Holds(reservation, s)
  {
    var left := used.Keys;
    while left != {}
      invariant left <= used.Keys
      invariant forall key :: key in u && key in h && key !in left ==> u[key] <= h[key] - ReservedAmount(s, key)
      decreases left
    {
      var key :| key in left;
      left := left - {key};
      if key in hard {
        assert Value(used[key]) == u[key] && Value(hard[key]) == h[key];
        var exceeded := KeyExceeded(hard[key], used[key], key, reservation, s);
        if exceeded {
          return true;
        }
      }
    }
    r := false;
  }

  // ---- the observation of a cluster --------------------------------------------------------------

  /** Both reservations, added where they overlap. */
  function Combined(a: ResourceList, b: ResourceList): ResourceList {
    map key | key in a.Keys + b.Keys :: At(a, key) + At(b, key)
  }

  /** No two entries share a Dec. */
  ghost predicate Separate(t: Table) {
    forall j, k :: j in t && k in t && j != k && t[j].Big? && t[k].Big? ==> t[j].dec != t[k].dec
  }

  method CopyTable(a: Table, ghost x: ResourceList) returns (r: Table)
    requires Holds(a, x)
    ensures Holds(r, x) && Separate(r)
    ensures forall key :: key in r && r[key].Big? ==> fresh(r[key].dec)
  {
    r := map[];
    var left := a.Keys;
    while left != {}
      invariant left <= a.Keys && r.Keys == a.Keys - left
      invariant Separate(r)
      invariant forall key :: key in r && r[key].Big? ==> fresh(r[key].dec)
      invariant forall key :: key in r ==> Value(r[key]) == x[key]
      decreases left
    {
      var key :| key in left;
      left := left - {key};
      var copy := DeepCopy(a[key]);
      r := r[key := copy];
    }
  }

  /** Adding an entry of b into a separate table leaves the table's other entries and b alone. */
  method AddEntry(t: Table, key: string, b: Table, ghost m: ResourceList, ghost y: ResourceList) returns (r: Table)
    requires Separate(t) && Holds(t, m) && Holds(b, y) && key in b
    requires key in t && t[key].Big? ==> t[key].dec !in Decs(b)
    modifies if key in t && t[key].Big? then {t[key].dec} else {}
    ensures key in r && r == t[key := r[key]] && Separate(r) && Holds(r, m[key := At(m, key) + y[key]]) && Holds(b, y)
    ensures r[key].Big? ==> fresh(r[key].dec) || (key in t && r[key] == t[key])
  {
    var current := if key in t then t[key] else Small(0);
    current := Add(current, b[key]);
    r := t[key := current];
  }

  /** What is left of b is not added yet. */
  predicate PartlyAdded(m: ResourceList, x: ResourceList, y: ResourceList, left: set<string>) {
    m.Keys == x.Keys + (y.Keys - left) && forall key :: key in m ==> m[key] == At(x, key) + if key in left then 0 else At(y, key)
  }

  lemma OneMore(m: ResourceList, x: ResourceList, y: ResourceList, left: set<string>, key: string)
    requires PartlyAdded(m, x, y, left) && key in left && left <= y.Keys
    ensures PartlyAdded(m[key := At(m, key) + y[key]], x, y, left - {key})
  {
  }

  lemma AllAdded(m: ResourceList, x: ResourceList, y: ResourceList)
    requires PartlyAdded(m, x, y, {})
    ensures m == Combined(x, y)
  {
  }

  method Combine(a: Table, b: Table, ghost x: ResourceList, ghost y: ResourceList) returns (combined: Table)
    requires Holds(a, x) && Holds(b, y)
    ensures Holds(combined, Combined(x, y))
    ensures forall key :: key in combined && combined[key].Big? ==> fresh(combined[key].dec)
  {
    combined := CopyTable(a, x);
    ghost var m := x;
    var left := b.Keys;
    while left != {}
      invariant left <= b.Keys && left <= y.Keys && Holds(b, y) && PartlyAdded(m, x, y, left)
      invariant Holds(combined, m) && Separate(combined)
      invariant forall key :: key in combined && combined[key].Big? ==> fresh(combined[key].dec)
      decreases left
    {
      var key :| key in left;
      combined := AddEntry(combined, key, b, m, y);
      OneMore(m, x, y, left, key);
      m := m[key := At(m, key) + y[key]];
      left := left - {key};
    }
    AllAdded(m, x, y);
  }

  method Observe(hard: Table, used: Table, controlPlane: Table, reflectedSystem: Table,
                 ghost h: ResourceList, ghost u: ResourceList, ghost c: ResourceList, ghost s: ResourceList)
    returns (headroom: Table, reservation: Table, exceeded: bool)
    requires Holds(hard, h) && Holds(used, u) && Holds(controlPlane, c) && Holds(reflectedSystem, s)
    ensures Holds(reservation, Combined(c, s)) && Holds(headroom, Headroom(h, u, Combined(c, s))) && exceeded == Exceeded(h, u, Combined(c, s))
  {
    reservation := Combine(controlPlane, reflectedSystem, c, s);
    ghost var combined := Combined(c, s);
    exceeded := ReservationExceeded(hard, used, reservation, h, u, combined);
    headroom := TenantHeadroom(hard, used, reservation, h, u, combined);
  }

  class HostObservation {
    var quotaReady: bool
    var headroom: Table
    var reservation: Table
    var exceeded: bool

    method Set(left: Table, reserved: Table, over: bool, ghost l: ResourceList, ghost r: ResourceList)
      requires Holds(left, l) && Holds(reserved, r)
      modifies this
      ensures quotaReady && headroom == left && reservation == reserved && exceeded == over
      ensures Holds(headroom, l) && Holds(reservation, r)
    {
      quotaReady, headroom, reservation, exceeded := true, left, reserved, over;
    }

    /** projectHostQuota: only the observation changes, no quantity of the caller does. */
    method ProjectHostQuota(
        hard: Table, used: Table, controlPlane: Table, reflectedSystem: Table,
        ghost h: ResourceList, ghost u: ResourceList, ghost c: ResourceList, ghost s: ResourceList)
      requires Holds(hard, h) && Holds(used, u) && Holds(controlPlane, c) && Holds(reflectedSystem, s)
      modifies this
      ensures quotaReady == (hard != map[] && used != map[])
      ensures !quotaReady ==> headroom == map[] && reservation == map[] && !exceeded
      ensures quotaReady ==>
        && Holds(reservation, Combined(c, s))
        && Holds(headroom, Headroom(h, u, Combined(c, s)))
        && exceeded == Exceeded(h, u, Combined(c, s))
    {
      if |hard| == 0 || |used| == 0 {
        quotaReady, headroom, reservation, exceeded := false, map[], map[], false;
        return;
      }
      var left, reserved, over := Observe(hard, used, controlPlane, reflectedSystem, h, u, c, s);
      Set(left, reserved, over, Headroom(h, u, Combined(c, s)), Combined(c, s));
    }
  }
}

/**
 * DefaultNotificationRegistry: a map from notification to identifier plus a
 * counter that only grows. The mutex, the state flow and the atomic integer
 * of the source are sequentialised: every operation is a step from one
 * registry value to the next.
 */
module NotificationRegistry {
  import opened Wrappers
  import opened Notifications

  datatype Registry = Registry(fwd: map<Notification, NotificationId>, counter: int)

  /** The state the registry starts in: no entries, counter 0. */
  const Initial: Registry := Registry(map[], 0)

  datatype Registered = Registered(registry: Registry, id: NotificationId)

  /** No two notifications share an identifier. */
  ghost predicate Injective(m: map<Notification, NotificationId>) {
    forall x, y {:trigger m[x], m[y]} :: x in m && y in m && x != y ==> m[x] != m[y]
  }

  /** Every stored identifier has been handed out by the counter. */
  ghost predicate IdsIssued(r: Registry) {
    forall n :: n in r.fwd ==> 1 <= r.fwd[n].value <= r.counter
  }

  /** The invariant every reachable registry keeps. */
  ghost predicate Valid(r: Registry) {
    && r.counter >= 0
    && Injective(r.fwd)
    && IdsIssued(r)
  }

  lemma InitialValid()
    ensures Valid(Initial)
    ensures Initial.fwd == map[] && Initial.counter == 0
  {
  }

  /** Forward lookup `get(notification)`. */
  function Get(r: Registry, n: Notification): (id: Option<NotificationId>)
    ensures id.Some? <==> n in r.fwd
    ensures id.Some? ==> r.fwd[n] == id.value
  {
    if n in r.fwd then Some(r.fwd[n]) else None
  }

  /** `contains(notification)`: the forward map has a key for it. */
  function Contains(r: Registry, n: Notification): (b: bool)
    ensures b <==> Get(r, n).Some?
  {
    n in r.fwd
  }

  /** `contains(notificationId)`: some entry carries this identifier. */
  function ContainsId(r: Registry, id: NotificationId): (b: bool)
    ensures b <==> exists n :: n in r.fwd && r.fwd[n] == id
  {
    id in r.fwd.Values
  }

  /**
   * `register(notification)`: an existing entry's identifier is returned
   * unchanged; otherwise the counter is incremented first and its new value
   * becomes the identifier of exactly one new entry.
   */
  function Register(r: Registry, n: Notification): (res: Registered)
    ensures n in r.fwd ==> res.registry == r && res.id == r.fwd[n]
    ensures n !in r.fwd ==>
              && res.registry.counter == r.counter + 1
              && res.id == NotificationId(r.counter + 1)
              && res.registry.fwd == r.fwd[n := res.id]
    ensures res.registry.counter >= r.counter
    ensures n in res.registry.fwd && res.registry.fwd[n] == res.id
    ensures Valid(r) ==> Valid(res.registry)
  {
    match Get(r, n)
    case Some(existing) => Registered(r, existing)
    case None =>
      var id := NotificationId(r.counter + 1);
      Registered(Registry(r.fwd[n := id], r.counter + 1), id)
  }

  /** `unregister(notification)`: drop that key, if any; the counter stays. */
  function Unregister(r: Registry, n: Notification): (r': Registry)
    ensures r'.counter == r.counter
    ensures r'.fwd.Keys == r.fwd.Keys - {n}
    ensures forall m :: m in r'.fwd ==> r'.fwd[m] == r.fwd[m]
    ensures n !in r.fwd ==> r' == r
    ensures Valid(r) ==> Valid(r')
  {
    Registry(r.fwd - {n}, r.counter)
  }

  /**
   * Reverse lookup `get(notificationId)`: a scan of the current entries for
   * one whose identifier matches.
   */
  method GetById(r: Registry, id: NotificationId) returns (found: Option<Notification>)
    ensures found.Some? ==> found.value in r.fwd && r.fwd[found.value] == id
    ensures found.None? <==> !ContainsId(r, id)
    ensures Valid(r) && found.Some? ==>
              forall m :: m in r.fwd && r.fwd[m] == id ==> m == found.value
  {
    var remaining := r.fwd.Keys;
    while remaining != {}
      invariant remaining <= r.fwd.Keys
      invariant forall m :: m in r.fwd.Keys - remaining ==> r.fwd[m] != id
      decreases remaining
    {
      var m :| m in remaining;
      if r.fwd[m] == id {
        return Some(m);
      }
      remaining := remaining - {m};
    }
    return None;
  }

  /**
   * `unregister(notificationId)`: look the notification up by identifier and
   * unregister it; an unknown identifier leaves the registry as it is.
   */
  method UnregisterById(r: Registry, id: NotificationId) returns (r': Registry)
    ensures !ContainsId(r, id) ==> r' == r
    ensures ContainsId(r, id) ==>
              exists n :: n in r.fwd && r.fwd[n] == id && r' == Unregister(r, n)
    ensures r'.counter == r.counter
    ensures Valid(r) ==> Valid(r') && !ContainsId(r', id)
    ensures Valid(r) ==> r'.fwd.Keys == r.fwd.Keys - (set n | n in r.fwd && r.fwd[n] == id)
  {
    var found := GetById(r, id);
    match found
    case None =>
      r' := r;
    case Some(n) =>
      r' := Unregister(r, n);
  }

  /**
   * The `registrar` view: identifier to notification, built from the forward
   * map by swapping every entry.
   */
  method Registrar(r: Registry) returns (view: map<NotificationId, Notification>)
    ensures view.Keys == r.fwd.Values
    ensures forall id :: id in view ==> view[id] in r.fwd && r.fwd[view[id]] == id
    ensures Injective(r.fwd) ==> forall n :: n in r.fwd ==> view[r.fwd[n]] == n
  {
    view := map[];
    var remaining := r.fwd.Keys;
    while remaining != {}
      invariant remaining <= r.fwd.Keys
      invariant view.Keys == set m | m in r.fwd.Keys - remaining :: r.fwd[m]
      invariant forall id :: id in view ==> view[id] in r.fwd.Keys - remaining && r.fwd[view[id]] == id
      invariant Injective(r.fwd) ==> forall m :: m in r.fwd.Keys - remaining ==> view[r.fwd[m]] == m
      decreases remaining
    {
      var m :| m in remaining;
      view := view[r.fwd[m] := m];
      remaining := remaining - {m};
    }
  }

  /** Registering twice in a row changes nothing the second time. */
  lemma RegisterIdempotent(r: Registry, n: Notification)
    ensures Register(Register(r, n).registry, n) == Register(r, n)
  {
  }

  /**
   * Round trip: the identifier `register` returns is found by both lookups.
   */
  lemma RegisterThenGet(r: Registry, n: Notification)
    requires Valid(r)
    ensures var res := Register(r, n);
            && Get(res.registry, n) == Some(res.id)
            && ContainsId(res.registry, res.id)
            && forall m :: m in res.registry.fwd && res.registry.fwd[m] == res.id ==> m == n
  {
  }

  /**
   * Identifiers are never reused: whatever happened between two
   * registrations, as long as the counter did not go back (no operation
   * lowers it), a fresh registration gets an identifier above every one
   * handed out before.
   */
  lemma FreshIdExceedsEarlier(r1: Registry, n1: Notification, r2: Registry, n2: Notification)
    requires Valid(r1)
    requires Register(r1, n1).registry.counter <= r2.counter
    requires n2 !in r2.fwd
    ensures Register(r2, n2).id.value > Register(r1, n1).id.value
  {
  }

  /**
   * Registering a batch one after another: equal notifications share one
   * identifier, distinct ones get distinct identifiers, and notifications
   * that were not registered before get identifiers above the old counter.
   */
  method RegisterAll(r: Registry, ns: seq<Notification>) returns (r': Registry, ids: seq<NotificationId>)
    requires Valid(r)
    ensures Valid(r')
    ensures |ids| == |ns|
    ensures forall i :: 0 <= i < |ns| ==> ns[i] in r'.fwd && r'.fwd[ns[i]] == ids[i]
    ensures forall i, j :: 0 <= i < |ns| && 0 <= j < |ns| ==> (ids[i] == ids[j] <==> ns[i] == ns[j])
    ensures forall i :: 0 <= i < |ns| && ns[i] !in r.fwd ==> ids[i].value > r.counter
    ensures forall m :: m in r.fwd ==> m in r'.fwd && r'.fwd[m] == r.fwd[m]
  {
    r' := r;
    ids := [];
    var i := 0;
    while i < |ns|
      invariant 0 <= i <= |ns| && |ids| == i
      invariant Valid(r') && r'.counter >= r.counter
      invariant forall k :: 0 <= k < i ==> ns[k] in r'.fwd && r'.fwd[ns[k]] == ids[k]
      invariant forall k :: 0 <= k < i && ns[k] !in r.fwd ==> ids[k].value > r.counter
      invariant forall m :: m in r.fwd ==> m in r'.fwd && r'.fwd[m] == r.fwd[m]
      invariant forall m :: m in r'.fwd && m !in r.fwd ==> r'.fwd[m].value > r.counter
    {
      var res := Register(r', ns[i]);
      r' := res.registry;
      ids := ids + [res.id];
      i := i + 1;
    }
  }

  /**
   * A worked scenario, from the initial registry: A gets 1,
   * A again gets 1, B gets 2; after unregistering 1, A is gone and its next
   * registration gets 3, not a reused identifier.
   */
  method Scenario(a: Notification, b: Notification) returns (ids: seq<int>, containsAAfterRemoval: bool)
    requires a != b
    ensures ids == [1, 1, 2, 3]
    ensures !containsAAfterRemoval
  {
    InitialValid();
    var s1 := Register(Initial, a);
    var s2 := Register(s1.registry, a);
    var s3 := Register(s2.registry, b);
    var removed := UnregisterById(s3.registry, NotificationId(1));
    containsAAfterRemoval := Contains(removed, a);
    var s4 := Register(removed, a);
    ids := [s1.id.value, s2.id.value, s3.id.value, s4.id.value];
  }
}

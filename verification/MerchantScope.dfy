/** Which merchants an actor may act for: the upward walk from a store and the downward search from
    the actor, over parent links that may contain cycles. */
module MerchantScope {
  import opened Options

  type Id = nat
  datatype Merchant = Merchant(parent: Option<Id>, active: bool)
  datatype Store = Store(merchant: Id, active: bool)
  datatype ScopeError = StoreNotFound | Forbidden

  const DEPTH: nat := 16

  // ---- The relation both algorithms are about ----

  /** One step up; an inactive or unknown merchant leads nowhere. */
  function Parent(ms: map<Id, Merchant>, x: Id): Option<Id> {
    if x in ms && ms[x].active then ms[x].parent else None
  }

  /** The merchant k steps above x, if every merchant below it on the way is active. */
  function Up(ms: map<Id, Merchant>, x: Id, k: nat): Option<Id> {
    if k == 0 then Some(x)
    else
      var below := Up(ms, x, k - 1);
      if below.None? then None else Parent(ms, below.value)
  }

  ghost predicate Within(ms: map<Id, Merchant>, x: Id, actor: Id, n: nat) {
    exists k :: 0 <= k <= n && Up(ms, x, k) == Some(actor)
  }

  /** A way up, written out: each merchant but the last is known and active, and the next is its parent. */
  predicate Climbs(ms: map<Id, Merchant>, path: seq<Id>, x: Id, actor: Id) {
    && path != [] && path[0] == x && path[|path| - 1] == actor
    && forall i | 0 <= i < |path| - 1 :: path[i] in ms && ms[path[i]].active && ms[path[i]].parent == Some(path[i + 1])
  }

  lemma {:induction false} PathUp(ms: map<Id, Merchant>, x: Id, k: nat) returns (path: seq<Id>)
    requires Up(ms, x, k).Some?
    ensures Climbs(ms, path, x, Up(ms, x, k).value) && |path| == k + 1
  {
    if k == 0 {
      path := [x];
    } else {
      path := PathUp(ms, x, k - 1);
      path := path + [Up(ms, x, k).value];
    }
  }

  lemma {:induction false} PathReaches(ms: map<Id, Merchant>, path: seq<Id>, x: Id, actor: Id)
    requires Climbs(ms, path, x, actor)
    ensures Up(ms, x, |path| - 1) == Some(actor)
  {
    if |path| > 1 {
      PathReaches(ms, path[..|path| - 1], x, path[|path| - 2]);
    }
  }

  /** A merchant is within n steps exactly when there is a way up of at most n steps. */
  lemma WithinIsPath(ms: map<Id, Merchant>, x: Id, actor: Id, n: nat)
    ensures Within(ms, x, actor, n) <==> exists path :: Climbs(ms, path, x, actor) && |path| <= n + 1
  {
    if Within(ms, x, actor, n) {
      var k :| 0 <= k <= n && Up(ms, x, k) == Some(actor);
      var path := PathUp(ms, x, k);
    }
    if path :| Climbs(ms, path, x, actor) && |path| <= n + 1 {
      PathReaches(ms, path, x, actor);
    }
  }

  lemma {:induction false} UpFromParent(ms: map<Id, Merchant>, x: Id, k: nat)
    ensures Up(ms, x, k + 1) == (if Parent(ms, x).None? then None else Up(ms, Parent(ms, x).value, k))
  {
    if k == 0 {
      assert Up(ms, x, 1) == Parent(ms, x);
    } else {
      UpFromParent(ms, x, k - 1);
    }
  }

  lemma WithinStep(ms: map<Id, Merchant>, x: Id, actor: Id, n: nat)
    ensures Within(ms, x, actor, n + 1) <==>
            Within(ms, x, actor, 0) || (Parent(ms, x).Some? && Within(ms, Parent(ms, x).value, actor, n))
  {
    if Within(ms, x, actor, n + 1) {
      var k :| 0 <= k <= n + 1 && Up(ms, x, k) == Some(actor);
      if k > 0 {
        UpFromParent(ms, x, k - 1);
        assert Within(ms, Parent(ms, x).value, actor, n);
      }
    }
    if Parent(ms, x).Some? && Within(ms, Parent(ms, x).value, actor, n) {
      var k :| 0 <= k <= n && Up(ms, Parent(ms, x).value, k) == Some(actor);
      UpFromParent(ms, x, k);
      assert Up(ms, x, k + 1) == Some(actor);
    }
    if Within(ms, x, actor, 0) {
      assert Up(ms, x, 0) == Some(actor);
    }
  }

  // ---- The upward walk ----

  /** Once the walk has met a merchant twice it goes round in a circle. */
  lemma {:induction false} Circular(ms: map<Id, Merchant>, x: Id, i: nat, j: nat, k: nat)
    requires i < j <= k && Up(ms, x, i) == Up(ms, x, j)
    ensures exists h :: i <= h < j && Up(ms, x, k) == Up(ms, x, h)
  {
    if k > j {
      Circular(ms, x, i, j, k - 1);
      var h :| i <= h < j && Up(ms, x, k - 1) == Up(ms, x, h);
      assert Up(ms, x, k) == Up(ms, x, h + 1);
    }
  }

  lemma {:induction false} DeadEnd(ms: map<Id, Merchant>, x: Id, j: nat, k: nat)
    requires j <= k && Up(ms, x, j) == None
    ensures Up(ms, x, k) == None
  {
    if j < k {
      DeadEnd(ms, x, j, k - 1);
    }
  }

  /** The merchants met in the first n positions of the walk. */
  function Met(ms: map<Id, Merchant>, x: Id, n: nat): set<Id> {
    if n == 0 then {}
    else Met(ms, x, n - 1) + (var at := Up(ms, x, n - 1); if at.Some? then {at.value} else {})
  }

  lemma {:induction false} WhereMet(ms: map<Id, Merchant>, x: Id, n: nat, v: Id) returns (i: nat)
    requires v in Met(ms, x, n)
    ensures i < n && Up(ms, x, i) == Some(v)
  {
    if v in Met(ms, x, n - 1) {
      i := WhereMet(ms, x, n - 1, v);
    } else {
      i := n - 1;
    }
  }

  lemma {:induction false} MetAt(ms: map<Id, Merchant>, x: Id, n: nat, i: nat)
    requires i < n && Up(ms, x, i).Some?
    ensures Up(ms, x, i).value in Met(ms, x, n)
  {
    if i < n - 1 {
      MetAt(ms, x, n - 1, i);
    }
  }

  /** The walk has met v among its first n positions exactly when v is within n - 1 steps. */
  lemma MetMeansWithin(ms: map<Id, Merchant>, x: Id, n: nat, v: Id)
    requires n > 0
    ensures v in Met(ms, x, n) <==> Within(ms, x, v, n - 1)
  {
    if v in Met(ms, x, n) {
      var i := WhereMet(ms, x, n, v);
    }
    if Within(ms, x, v, n - 1) {
      var i: nat :| 0 <= i <= n - 1 && Up(ms, x, i) == Some(v);
      MetAt(ms, x, n, i);
    }
  }

  lemma NothingNew(ms: map<Id, Merchant>, x: Id, actor: Id, n: nat)
    requires actor !in Met(ms, x, n)
    requires Up(ms, x, n).None? || Up(ms, x, n).value in Met(ms, x, n)
    ensures forall k: nat :: !Within(ms, x, actor, k)
  {
    forall k: nat
      ensures Up(ms, x, k) != Some(actor)
    {
      if k < n {
        if Up(ms, x, k).Some? { MetAt(ms, x, n, k); }
      } else if Up(ms, x, n).None? {
        DeadEnd(ms, x, n, k);
      } else {
        var i := WhereMet(ms, x, n, Up(ms, x, n).value);
        Circular(ms, x, i, n, k);
        var h :| i <= h < n && Up(ms, x, k) == Up(ms, x, h);
        if Up(ms, x, h).Some? { MetAt(ms, x, n, h); }
      }
    }
  }

  /** `authorizeStore`: accepts exactly when the store is active and the actor is at most 15 steps above its
      merchant, every merchant strictly below the actor being active. */
  method AuthorizeStore(ms: map<Id, Merchant>, stores: map<Id, Store>, actor: Id, storeId: Id)
    returns (r: Result<Store, ScopeError>)
    ensures storeId !in stores || !stores[storeId].active ==> r == Err(StoreNotFound)
    ensures storeId in stores && stores[storeId].active ==>
              r == if exists path :: Climbs(ms, path, stores[storeId].merchant, actor) && |path| - 1 <= 15 then Ok(stores[storeId]) else Err(Forbidden)
  {
    if storeId !in stores || !stores[storeId].active {
      return Err(StoreNotFound);
    }
    var store := stores[storeId];
    WithinIsPath(ms, store.merchant, actor, DEPTH - 1);
    var accepted := Walk(ms, store.merchant, actor);
    return if accepted then Ok(store) else Err(Forbidden);
  }

  /** The walk from the store's merchant. */
  method Walk(ms: map<Id, Merchant>, merchant: Id, actor: Id) returns (accepted: bool)
    ensures accepted <==> Within(ms, merchant, actor, DEPTH - 1)
  {
    var current := Some(merchant);
    var visited: set<Id> := {};
    var depth := 0;
    while current.Some? && depth < DEPTH
      invariant depth <= DEPTH
      invariant current == Up(ms, merchant, depth)
      invariant visited == Met(ms, merchant, depth)
      invariant actor !in visited
    {
      if current.value == actor {
        assert Within(ms, merchant, actor, DEPTH - 1);
        return true;
      }
      if current.value in visited {
        break;
      }
      visited := visited + {current.value};
      current := if current.value in ms && ms[current.value].active then ms[current.value].parent else None;
      depth := depth + 1;
    }
    if current.None? || current.value in visited {
      NothingNew(ms, merchant, actor, depth);
    } else {
      MetMeansWithin(ms, merchant, DEPTH, actor);
    }
    return false;
  }

  // ---- The downward search ----

  lemma {:induction false} Saturated(ms: map<Id, Merchant>, actor: Id, d: nat, n: nat, x: Id)
    requires forall y :: Within(ms, y, actor, d + 1) ==> Within(ms, y, actor, d)
    requires d <= n && Within(ms, x, actor, n)
    ensures Within(ms, x, actor, d)
  {
    if d < n {
      WithinStep(ms, x, actor, n - 1);
      if Parent(ms, x).Some? && Within(ms, Parent(ms, x).value, actor, n - 1) {
        Saturated(ms, actor, d, n - 1, Parent(ms, x).value);
        WithinStep(ms, x, actor, d);
      }
    }
  }

  /** `authorizedMerchantIds`: exactly the merchants with the actor at most 16 steps above them, every
      merchant strictly below the actor being active. */
  method AuthorizedMerchantIds(ms: map<Id, Merchant>, actor: Id) returns (authorized: set<Id>)
    ensures forall x :: x in authorized <==> exists path :: Climbs(ms, path, x, actor) && |path| - 1 <= 16
  {
    authorized := Search(ms, actor);
    forall x
      ensures x in authorized <==> exists path :: Climbs(ms, path, x, actor) && |path| - 1 <= 16
    {
      WithinIsPath(ms, x, actor, DEPTH);
    }
  }

  /** The search from the actor. */
  method Search(ms: map<Id, Merchant>, actor: Id) returns (authorized: set<Id>)
    ensures forall x :: x in authorized <==> Within(ms, x, actor, DEPTH)
  {
    authorized := {actor};
    var frontier := {actor};
    var depth := 0;
    assert forall x :: Within(ms, x, actor, 0) <==> Up(ms, x, 0) == Some(actor);
    while frontier != {} && depth < DEPTH
      invariant depth <= DEPTH
      invariant forall x :: x in authorized <==> Within(ms, x, actor, depth)
      invariant forall x :: x in frontier <==> Within(ms, x, actor, depth) && (depth > 0 ==> !Within(ms, x, actor, depth - 1))
      decreases DEPTH - depth
    {
      var children := set id | id in ms && ms[id].active && ms[id].parent.Some? && ms[id].parent.value in frontier;
      ghost var before, parents := authorized, frontier;
      frontier := set id | id in children && id !in authorized;
      authorized := authorized + frontier;
      forall x
        ensures x in authorized <==> Within(ms, x, actor, depth + 1)
      {
        WithinStep(ms, x, actor, depth);
        if depth > 0 { WithinStep(ms, x, actor, depth - 1); }
        WithinGrows(ms, x, actor, depth);
      }
      depth := depth + 1;
    }
    if frontier == {} {
      forall x
        ensures Within(ms, x, actor, DEPTH) <==> Within(ms, x, actor, depth)
      {
        if Within(ms, x, actor, DEPTH) { Saturated(ms, actor, depth - 1, DEPTH, x); WithinGrows(ms, x, actor, depth - 1); }
      }
    }
  }

  lemma WithinGrows(ms: map<Id, Merchant>, x: Id, actor: Id, n: nat)
    ensures Within(ms, x, actor, n) ==> Within(ms, x, actor, n + 1)
  {
  }

  // ---- How the two answers compare ----

  /** Every store accepted is listed; a store listed and refused is one whose merchant has the actor
      exactly 16 steps above it and no nearer. */
  lemma AcceptedIsListed(ms: map<Id, Merchant>, actor: Id, x: Id)
    ensures Within(ms, x, actor, 15) ==> Within(ms, x, actor, 16)
    ensures Within(ms, x, actor, 16) && !Within(ms, x, actor, 15) <==>
            Up(ms, x, 16) == Some(actor) && actor !in Met(ms, x, 16)
  {
    MetMeansWithin(ms, x, 16, actor);
    if Within(ms, x, actor, 16) && !Within(ms, x, actor, 15) {
      var k :| 0 <= k <= 16 && Up(ms, x, k) == Some(actor);
      assert k == 16;
    }
    if Up(ms, x, 16) == Some(actor) { assert Within(ms, x, actor, 16); }
  }

  /** `rank` is a depth for every merchant: no cycles, and no path longer than its top value. */
  ghost predicate Ranked(ms: map<Id, Merchant>, rank: Id -> nat) {
    forall x :: Parent(ms, x).Some? ==> rank(Parent(ms, x).value) < rank(x)
  }

  lemma {:induction false} ClimbLowersRank(ms: map<Id, Merchant>, rank: Id -> nat, x: Id, k: nat)
    requires Ranked(ms, rank) && Up(ms, x, k).Some?
    ensures rank(Up(ms, x, k).value) + k <= rank(x)
  {
    if k > 0 {
      ClimbLowersRank(ms, rank, x, k - 1);
    }
  }

  /** On hierarchies at most 15 levels deep the two algorithms give the same answer. */
  lemma ShallowHierarchiesAgree(ms: map<Id, Merchant>, rank: Id -> nat, actor: Id, x: Id)
    requires Ranked(ms, rank) && forall y :: rank(y) <= 15
    ensures Within(ms, x, actor, 16) <==> Within(ms, x, actor, 15)
  {
    if Within(ms, x, actor, 16) {
      var k :| 0 <= k <= 16 && Up(ms, x, k) == Some(actor);
      ClimbLowersRank(ms, rank, x, k);
      assert Up(ms, x, k) == Some(actor) && k <= 15;
    }
  }

  function Chain(n: nat): (ms: map<Id, Merchant>)
    ensures forall x: Id :: x in ms <==> x <= n
    ensures forall x: Id :: x in ms ==> ms[x] == Merchant(if x == 0 then None else Some(x - 1), true)
  {
    (if n == 0 then map[] else Chain(n - 1))[n := Merchant(if n == 0 then None else Some(n - 1), true)]
  }

  lemma {:induction false} ChainUp(n: nat, k: nat)
    requires k <= n
    ensures Up(Chain(n), n, k) == Some(n - k)
  {
    if k > 0 {
      ChainUp(n, k - 1);
    }
  }

  /** A chain of 17 merchants: the bottom one is listed for the top one and its stores are refused. */
  lemma DeepChainDisagrees()
    ensures Within(Chain(16), 16, 0, 16) && !Within(Chain(16), 16, 0, 15)
  {
    ChainUp(16, 16);
    forall k | 0 <= k < 16
      ensures Up(Chain(16), 16, k) != Some(0)
    {
      ChainUp(16, k);
    }
  }
}

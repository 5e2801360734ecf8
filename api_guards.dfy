/**
 * The client's registry of API calls in progress: a map from guard key to
 * `true`, shared through a lazily created singleton, and the helper that
 * builds guard keys from a call's kind and parameters.
 */
module ApiGuards {
  import opened Wrappers

  class APIGuards {
    /** `guards`: the keys of the calls in progress (each mapped to true). */
    var guards: map<string, bool>

    constructor ()
      ensures guards == map[]
    {
      guards := map[];
    }

    /** `isCallInProgress`: whether the key is present. */
    predicate IsCallInProgress(key: string)
      reads this
    {
      key in guards
    }

    /** `startCall`: marks the key as in progress. */
    method StartCall(key: string)
      modifies this
      ensures guards == old(guards)[key := true]
      ensures IsCallInProgress(key)
      ensures forall k :: k != key ==> IsCallInProgress(k) == old(IsCallInProgress(k))
    {
      guards := guards[key := true];
    }

    /** `completeCall`: removes the key and no other. */
    method CompleteCall(key: string)
      modifies this
      ensures guards == old(guards) - {key}
      ensures !IsCallInProgress(key)
      ensures forall k :: k != key ==> IsCallInProgress(k) == old(IsCallInProgress(k))
    {
      guards := guards - {key};
    }

    /** `clearAll`: empties the registry. */
    method ClearAll()
      modifies this
      ensures guards == map[]
      ensures forall k :: !IsCallInProgress(k)
    {
      guards := map[];
    }
  }

  /** Starting a call twice is the same as starting it once. */
  method StartCallIdempotent(g: APIGuards, key: string)
    modifies g
    ensures g.guards == old(g.guards)[key := true]
  {
    g.StartCall(key);
    var once := g.guards;
    g.StartCall(key);
    assert g.guards == once;
  }

  /** The class's static `instance` field. */
  class Registry {
    var instance: APIGuards?

    constructor ()
      ensures instance == null
    {
      instance := null;
    }

    /** `getInstance`: creates the registry on first use and returns the same one ever after. */
    method GetInstance() returns (g: APIGuards)
      modifies this
      ensures old(instance) != null ==> g == old(instance)
      ensures old(instance) == null ==> fresh(g) && g.guards == map[]
      ensures instance == g
    {
      if instance == null {
        instance := new APIGuards();
      }
      g := instance;
    }
  }

  /** Two calls of `getInstance` return the same object. */
  method GetInstanceTwice(r: Registry) returns (g1: APIGuards, g2: APIGuards)
    modifies r
    ensures g1 == g2 == r.instance
  {
    g1 := r.GetInstance();
    g2 := r.GetInstance();
  }

  /**
   * `createGuardKey(type, params)`: the kind alone when there are no
   * parameters, else the kind, a colon and the serialised parameters. Every
   * call site passes either nothing or an object, and an object is truthy,
   * so `params` is an option; `stringify` stands for JSON.stringify.
   */
  function CreateGuardKey<P>(kind: string, params: Option<P>, stringify: P -> string): (key: string)
    ensures |key| >= |kind| && key[..|kind|] == kind
  {
    match params
    case None => kind
    case Some(p) => kind + ":" + stringify(p)
  }

  /**
   * Distinct calls get distinct keys: when kinds contain no colon and the
   * serialisation is injective, equal keys mean equal kinds and equal
   * parameters.
   */
  lemma GuardKeyInjective<P>(k1: string, p1: Option<P>, k2: string, p2: Option<P>, stringify: P -> string)
    requires ':' !in k1 && ':' !in k2
    requires forall a, b :: stringify(a) == stringify(b) ==> a == b
    requires CreateGuardKey(k1, p1, stringify) == CreateGuardKey(k2, p2, stringify)
    ensures k1 == k2 && p1 == p2
  {
    var key := CreateGuardKey(k1, p1, stringify);
    KindLength(k1, p1, stringify);
    KindLength(k2, p2, stringify);
    assert k1 == key[..|k1|] == k2;
    if p1.Some? && p2.Some? {
      assert stringify(p1.value) == key[|k1| + 1..] == stringify(p2.value);
    }
  }

  /** The position of the first colon, or the length when there is none. */
  function ColonIndex(s: string): (i: nat)
    ensures i <= |s|
  {
    if s == [] || s[0] == ':' then 0 else 1 + ColonIndex(s[1..])
  }

  lemma {:induction false} ColonIndexAfter(a: string, b: string)
    requires ':' !in a
    ensures ColonIndex(a + b) == |a| + ColonIndex(b)
  {
    if a != [] {
      assert (a + b)[1..] == a[1..] + b;
      ColonIndexAfter(a[1..], b);
    } else {
      assert a + b == b;
    }
  }

  /** The kind of a key is the text before its first colon. */
  lemma KindLength<P>(kind: string, params: Option<P>, stringify: P -> string)
    requires ':' !in kind
    ensures ColonIndex(CreateGuardKey(kind, params, stringify)) == |kind|
  {
    match params
    case None =>
      ColonIndexAfter(kind, "");
      assert kind + "" == kind;
    case Some(p) =>
      ColonIndexAfter(kind, ":" + stringify(p));
      assert kind + ":" + stringify(p) == kind + (":" + stringify(p));
  }

  /**
   * The guarded body shared by the fetch thunks: when the key is present the
   * call is refused with `busy`; otherwise the key is started, the request
   * (whose outcome `response` is) runs, and the key is completed whether it
   * succeeded or failed. Either way the registry ends as it began.
   */
  method RunGuarded<T>(g: APIGuards, key: string, busy: Result<T, Option<string>>, response: Result<T, Option<string>>)
    returns (outcome: Result<T, Option<string>>)
    modifies g
    ensures outcome == if key in old(g.guards) then busy else response
    ensures g.guards == old(g.guards)
  {
    if g.IsCallInProgress(key) {
      return busy;
    }
    g.StartCall(key);
    outcome := response;
    g.CompleteCall(key);
    assert g.guards == old(g.guards);
  }
}

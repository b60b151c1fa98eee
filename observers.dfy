/**
 * The stateful half of CarUxRestrictionsUtil: a registry of client
 * listeners and the restrictions last reported by the platform manager.
 * Each call of a listener's `onRestrictionsChanged` is recorded as a
 * delivery in a ghost log, so that contracts can say who was told what.
 */
module UxRestrictionsObservers {
  import opened Wrappers
  import opened UxRestrictions

  /** A client listener, identified by an opaque id. */
  type ListenerId = nat

  /** One call `listener.onRestrictionsChanged(restrictions)`. */
  datatype Delivery = Delivery(listener: ListenerId, restrictions: Option<CarUxRestrictions>)

  /** The listeners called, in the order of the log. */
  function Recipients(log: seq<Delivery>): (r: seq<ListenerId>)
  {
    seq(|log|, i requires 0 <= i < |log| => log[i].listener)
  }

  /**
   * `batch` calls every listener of `observers` exactly once, each time with
   * `value`, and calls no other listener.
   */
  ghost predicate IsBroadcast(batch: seq<Delivery>, observers: set<ListenerId>, value: Option<CarUxRestrictions>)
  {
    multiset(Recipients(batch)) == multiset(observers) &&
    forall i :: 0 <= i < |batch| ==> batch[i].restrictions == value
  }

  /** The value most recently delivered to `l` in `log`, or None if it was never called. */
  function LastDelivered(log: seq<Delivery>, l: ListenerId): (r: Option<Option<CarUxRestrictions>>)
  {
    if log == [] then None
    else if log[|log| - 1].listener == l then Some(log[|log| - 1].restrictions)
    else LastDelivered(log[..|log| - 1], l)
  }

  /** Deliveries to other listeners do not change what `l` last received. */
  lemma {:induction false} LastDeliveredSkipsOthers(log: seq<Delivery>, batch: seq<Delivery>, l: ListenerId)
    requires l !in Recipients(batch)
    ensures LastDelivered(log + batch, l) == LastDelivered(log, l)
    decreases |batch|
  {
    if batch != [] {
      var last := |batch| - 1;
      assert Recipients(batch)[last] != l;
      assert (log + batch)[|log + batch| - 1] == batch[last];
      assert (log + batch)[..|log + batch| - 1] == log + batch[..last];
      assert Recipients(batch[..last]) == Recipients(batch)[..last];
      LastDeliveredSkipsOthers(log, batch[..last], l);
    } else {
      assert log + batch == log;
    }
  }

  /** After a batch that reaches `l` and carries only `value`, `l` last received `value`. */
  lemma {:induction false} LastDeliveredUniform(log: seq<Delivery>, batch: seq<Delivery>,
                                                l: ListenerId, value: Option<CarUxRestrictions>)
    requires l in Recipients(batch)
    requires forall i :: 0 <= i < |batch| ==> batch[i].restrictions == value
    ensures LastDelivered(log + batch, l) == Some(value)
    decreases |batch|
  {
    var last := |batch| - 1;
    if batch[last].listener != l {
      assert (log + batch)[..|log + batch| - 1] == log + batch[..last];
      assert Recipients(batch[..last]) == Recipients(batch)[..last];
      assert Recipients(batch) == Recipients(batch[..last]) + [batch[last].listener];
      LastDeliveredUniform(log, batch[..last], l, value);
    }
  }

  /** A broadcast leaves every observer with `value` and every other listener as it was. */
  lemma BroadcastEffect(log: seq<Delivery>, batch: seq<Delivery>, observers: set<ListenerId>,
                        value: Option<CarUxRestrictions>, l: ListenerId)
    requires IsBroadcast(batch, observers, value)
    ensures l in observers ==> LastDelivered(log + batch, l) == Some(value)
    ensures l !in observers ==> LastDelivered(log + batch, l) == LastDelivered(log, l)
  {
    assert l in Recipients(batch) <==> l in multiset(observers);
    if l in observers {
      LastDeliveredUniform(log, batch, l, value);
    } else {
      LastDeliveredSkipsOthers(log, batch, l);
    }
  }

  /** The restrictions helper: registered listeners and the last restrictions reported. */
  class CarUxRestrictionsUtil {
    var carUxRestrictions: Option<CarUxRestrictions>
    var observers: set<ListenerId>
    /** Every `onRestrictionsChanged` call made so far. */
    ghost var deliveries: seq<Delivery>

    /** Every registered listener was last told the stored restrictions. */
    ghost predicate Valid()
      reads this
    {
      forall l :: l in observers ==> LastDelivered(deliveries, l) == Some(carUxRestrictions)
    }

    /**
     * The helper as built once the platform manager is bound: no listeners
     * yet, and the manager's current restrictions (None when the car is not
     * connected) as the stored value.
     */
    constructor (initial: Option<CarUxRestrictions>)
      ensures Valid()
      ensures carUxRestrictions == initial && observers == {} && deliveries == []
    {
      carUxRestrictions := initial;
      observers := {};
      deliveries := [];
    }

    /** Calls every registered listener once with `value`, in no particular order. */
    method Notify(value: Option<CarUxRestrictions>)
      modifies this`deliveries
      ensures |old(deliveries)| <= |deliveries| && deliveries[..|old(deliveries)|] == old(deliveries)
      ensures IsBroadcast(deliveries[|old(deliveries)|..], observers, value)
    {
      var remaining := observers;
      ghost var batch: seq<Delivery> := [];
      while remaining != {}
        invariant remaining <= observers
        invariant deliveries == old(deliveries) + batch
        invariant multiset(Recipients(batch)) + multiset(remaining) == multiset(observers)
        invariant forall i :: 0 <= i < |batch| ==> batch[i].restrictions == value
        decreases remaining
      {
        var l :| l in remaining;
        deliveries := deliveries + [Delivery(l, value)];
        assert Recipients(batch + [Delivery(l, value)]) == Recipients(batch) + [l];
        batch := batch + [Delivery(l, value)];
        assert multiset(remaining - {l}) + multiset{l} == multiset(remaining);
        remaining := remaining - {l};
      }
      assert deliveries[|old(deliveries)|..] == batch;
    }

    /**
     * The callback registered with the platform manager: stores the new
     * restrictions, then tells every registered listener.
     */
    method OnUxRestrictionsChanged(value: Option<CarUxRestrictions>)
      requires Valid()
      modifies this
      ensures Valid()
      ensures carUxRestrictions == value && observers == old(observers)
      ensures |old(deliveries)| <= |deliveries| && deliveries[..|old(deliveries)|] == old(deliveries)
      ensures IsBroadcast(deliveries[|old(deliveries)|..], observers, value)
    {
      carUxRestrictions := value;
      Notify(value);
      forall l | l in observers
        ensures LastDelivered(deliveries, l) == Some(carUxRestrictions)
      {
        var log, batch := old(deliveries), deliveries[|old(deliveries)|..];
        assert deliveries == log + batch;
        BroadcastEffect(log, batch, observers, value, l);
      }
    }

    /**
     * Adds `listener` (a no-op on the set when it is already there) and
     * immediately tells it, and only it, the stored restrictions.
     */
    method Register(listener: ListenerId)
      requires Valid()
      modifies this
      ensures Valid()
      ensures observers == old(observers) + {listener}
      ensures carUxRestrictions == old(carUxRestrictions)
      ensures deliveries == old(deliveries) + [Delivery(listener, carUxRestrictions)]
    {
      observers := observers + {listener};
      deliveries := deliveries + [Delivery(listener, carUxRestrictions)];
    }

    /** Removes `listener`; nothing is delivered and the stored restrictions stay. */
    method Unregister(listener: ListenerId)
      requires Valid()
      modifies this
      ensures Valid()
      ensures observers == old(observers) - {listener}
      ensures carUxRestrictions == old(carUxRestrictions) && deliveries == old(deliveries)
    {
      observers := observers - {listener};
    }
  }

  /** The holder of the static singleton field `sInstance`. */
  class InstanceHolder {
    var instance: CarUxRestrictionsUtil?

    /** The cached helper, once built, keeps its own invariant. */
    ghost predicate Valid()
      reads this, instance
    {
      instance != null ==> instance.Valid()
    }

    constructor ()
      ensures Valid() && instance == null
    {
      instance := null;
    }

    /**
     * The one helper of the process: built on the first call from the
     * manager's current restrictions, returned unchanged on every later call.
     */
    method GetInstance(initial: Option<CarUxRestrictions>) returns (util: CarUxRestrictionsUtil)
      requires Valid()
      modifies this
      ensures Valid() && util.Valid()
      ensures instance == util
      ensures old(instance) != null ==> util == old(instance)
      ensures old(instance) == null ==>
                fresh(util) && util.Valid() &&
                util.carUxRestrictions == initial && util.observers == {} && util.deliveries == []
    {
      if instance == null {
        instance := new CarUxRestrictionsUtil(initial);
      }
      util := instance;
    }
  }

  /**
   * A client's usual call, `getInstance(context).register(listener)`: the
   * listener is registered with the one helper and has been told its stored
   * restrictions.
   */
  method RegisterWithInstance(holder: InstanceHolder, initial: Option<CarUxRestrictions>, listener: ListenerId)
    returns (util: CarUxRestrictionsUtil)
    requires holder.Valid()
    modifies holder, holder.instance
    ensures holder.Valid() && holder.instance == util
    ensures LastDelivered(util.deliveries, listener) == Some(util.carUxRestrictions)
    ensures old(holder.instance) != null ==>
              util == old(holder.instance) &&
              util.observers == old(holder.instance.observers) + {listener} &&
              util.carUxRestrictions == old(holder.instance.carUxRestrictions) &&
              util.deliveries == old(holder.instance.deliveries) + [Delivery(listener, util.carUxRestrictions)]
    ensures old(holder.instance) == null ==>
              fresh(util) && util.observers == {listener} && util.carUxRestrictions == initial &&
              util.deliveries == [Delivery(listener, initial)]
  {
    util := holder.GetInstance(initial);
    util.Register(listener);
  }
}

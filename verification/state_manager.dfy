/**
 * The shared state registry: for each device IP the set of subscribed
 * callbacks and the last state a device published. Callbacks are opaque
 * identifiers; "calling" one is recorded as a `Call` carrying the state it
 * was called with.
 */
module StateManagement {
  import opened Common

  type CallbackId = nat

  datatype Call = Call(callback: CallbackId, state: LightState)

  /** The subscribers of `ip`, the empty set for an IP never registered. */
  function SubscribersOf(subscribers: map<string, set<CallbackId>>, ip: string): set<CallbackId> {
    if ip in subscribers then subscribers[ip] else {}
  }

  /** The subscriber map after `register_light(ip, cb)`. */
  function Registered(subscribers: map<string, set<CallbackId>>, ip: string, cb: CallbackId): (r: map<string, set<CallbackId>>)
    ensures r.Keys == subscribers.Keys + {ip}
    ensures r[ip] == SubscribersOf(subscribers, ip) + {cb}
    ensures forall other :: other in subscribers && other != ip ==> r[other] == subscribers[other]
  {
    subscribers[ip := SubscribersOf(subscribers, ip) + {cb}]
  }

  /** The subscriber map after `unregister_light(ip, cb)`: the key stays, even when its set empties. */
  function Unregistered(subscribers: map<string, set<CallbackId>>, ip: string, cb: CallbackId): (r: map<string, set<CallbackId>>)
    ensures r.Keys == subscribers.Keys
    ensures ip in subscribers ==> r[ip] == subscribers[ip] - {cb}
    ensures forall other :: other in subscribers && other != ip ==> r[other] == subscribers[other]
  {
    if ip in subscribers then subscribers[ip := subscribers[ip] - {cb}] else subscribers
  }

  /** Registering the same callback twice is the same as registering it once. */
  lemma RegisterIdempotent(subscribers: map<string, set<CallbackId>>, ip: string, cb: CallbackId)
    ensures Registered(Registered(subscribers, ip, cb), ip, cb) == Registered(subscribers, ip, cb)
  {
  }

  /** Unregistering a callback that is not subscribed (or an unknown IP) changes nothing. */
  lemma UnregisterAbsentIsNoOp(subscribers: map<string, set<CallbackId>>, ip: string, cb: CallbackId)
    requires cb !in SubscribersOf(subscribers, ip)
    ensures Unregistered(subscribers, ip, cb) == subscribers
  {
    if ip in subscribers {
      assert subscribers[ip] - {cb} == subscribers[ip];
    }
  }

  /**
   * Unregistering right after registering a new callback gives back the
   * previous subscribers of that IP, but the IP now stays a key.
   */
  lemma RegisterThenUnregister(subscribers: map<string, set<CallbackId>>, ip: string, cb: CallbackId)
    requires cb !in SubscribersOf(subscribers, ip)
    ensures var r := Unregistered(Registered(subscribers, ip, cb), ip, cb);
      && r.Keys == subscribers.Keys + {ip}
      && r[ip] == SubscribersOf(subscribers, ip)
      && forall other :: other in subscribers && other != ip ==> r[other] == subscribers[other]
  {
  }

  /** The callbacks a list of calls reached. */
  function Callees(calls: seq<Call>): set<CallbackId> {
    set k | 0 <= k < |calls| :: calls[k].callback
  }

  lemma CalleesSnoc(calls: seq<Call>, c: Call)
    ensures Callees(calls + [c]) == Callees(calls) + {c.callback}
  {
    var longer := calls + [c];
    forall x | x in Callees(longer)
      ensures x in Callees(calls) + {c.callback}
    {
      var k :| 0 <= k < |longer| && longer[k].callback == x;
      if k < |calls| {
        assert calls[k].callback == x;
      }
    }
    forall x | x in Callees(calls) + {c.callback}
      ensures x in Callees(longer)
    {
      if x in Callees(calls) {
        var k :| 0 <= k < |calls| && calls[k].callback == x;
        assert longer[k].callback == x;
      } else {
        assert longer[|calls|].callback == x;
      }
    }
  }

  /**
   * The registry itself. `states` and `subscribers` are the two
   * dictionaries the single shared instance owns.
   */
  class StateManager {
    var states: map<string, LightState>
    var subscribers: map<string, set<CallbackId>>

    constructor ()
      ensures states == map[] && subscribers == map[]
    {
      states := map[];
      subscribers := map[];
    }

    method RegisterLight(ip: string, cb: CallbackId)
      modifies this
      ensures subscribers == Registered(old(subscribers), ip, cb)
      ensures states == old(states)
    {
      if ip !in subscribers {
        subscribers := subscribers[ip := {}];
      }
      subscribers := subscribers[ip := subscribers[ip] + {cb}];
    }

    method UnregisterLight(ip: string, cb: CallbackId)
      modifies this
      ensures subscribers == Unregistered(old(subscribers), ip, cb)
      ensures states == old(states)
    {
      if ip in subscribers {
        subscribers := subscribers[ip := subscribers[ip] - {cb}];
      }
    }

    /**
     * Stores `state` for `ip`, leaving every other IP's state alone, and
     * calls each subscriber of `ip` once with it.
     */
    method UpdateState(ip: string, state: LightState) returns (calls: seq<Call>)
      modifies this
      ensures states == old(states)[ip := state]
      ensures subscribers == old(subscribers)
      ensures Callees(calls) == SubscribersOf(subscribers, ip)
      ensures forall k :: 0 <= k < |calls| ==> calls[k].state == state
      ensures forall i, j :: 0 <= i < j < |calls| ==> calls[i].callback != calls[j].callback
    {
      states := states[ip := state];
      calls := [];
      if ip in subscribers {
        calls := NotifyAll(subscribers[ip], state);
      }
    }
  }

  /** Calls every callback of `subscribers` once, in some order, with `state`. */
  method NotifyAll(subscribers: set<CallbackId>, state: LightState) returns (calls: seq<Call>)
    ensures Callees(calls) == subscribers
    ensures forall k :: 0 <= k < |calls| ==> calls[k].state == state
    ensures forall i, j :: 0 <= i < j < |calls| ==> calls[i].callback != calls[j].callback
  {
    calls := [];
    var remaining := subscribers;
    while remaining != {}
      invariant remaining <= subscribers
      invariant Callees(calls) == subscribers - remaining
      invariant forall k :: 0 <= k < |calls| ==> calls[k].state == state
      invariant forall i, j :: 0 <= i < j < |calls| ==> calls[i].callback != calls[j].callback
      decreases remaining
    {
      var cb :| cb in remaining;
      CalleesSnoc(calls, Call(cb, state));
      calls := calls + [Call(cb, state)];
      remaining := remaining - {cb};
    }
  }

  /**
   * The class object of the registry: `instance` is the class attribute
   * that `__new__` fills on first construction.
   */
  class StateManagerClass {
    var instance: StateManager?

    constructor ()
      ensures instance == null
    {
      instance := null;
    }

    /** `StateManager()`: the first call creates empty dictionaries, every later call returns that same object. */
    method New() returns (m: StateManager)
      modifies this
      ensures old(instance) != null ==> m == old(instance) && unchanged(m)
      ensures old(instance) == null ==> fresh(m) && m.states == map[] && m.subscribers == map[]
      ensures instance == m
    {
      if instance == null {
        instance := new StateManager();
      }
      m := instance;
    }

    /** Two constructions in a row give one shared object. */
    method NewTwice() returns (a: StateManager, b: StateManager)
      modifies this
      ensures a == b && instance == a
      ensures old(instance) == null ==> a.states == map[] && a.subscribers == map[]
    {
      a := New();
      b := New();
    }
  }
}

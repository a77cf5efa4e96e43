/**
 * The light-weight observer store (`miniprogram/core/store/index.js`): module
 * states keyed by module name, mutations bound under `module/key`, and
 * per-module subscriber lists notified after every committed mutation.
 *
 * Callbacks are modelled by their identity (`ListenerId`); calling one is
 * recorded in `delivered` as the pair of its identity and the state it saw.
 * A mutation is a pure function from the module state and its payload to
 * the new module state.
 */
module ObserverStore {
  import opened Wrappers

  type ListenerId = nat

  /** The first index of `x` in `s`, or -1 (`Array.prototype.indexOf`). */
  function IndexOf<T(==)>(s: seq<T>, x: T): (i: int)
    ensures -1 <= i < |s|
    ensures i == -1 <==> x !in s
    ensures 0 <= i ==> s[i] == x && x !in s[..i]
  {
    if s == [] then -1
    else if s[0] == x then 0
    else
      var j := IndexOf(s[1..], x);
      if j == -1 then -1
      else
        assert s[..j + 1] == [s[0]] + s[1..][..j];
        j + 1
  }

  /** `indexOf` followed by `splice(index, 1)` when found. */
  function RemoveFirst<T(==)>(s: seq<T>, x: T): (r: seq<T>)
    ensures x !in s ==> r == s
    ensures x in s ==> |r| == |s| - 1 && multiset(r) == multiset(s) - multiset{x}
    ensures x in s ==> r == s[..IndexOf(s, x)] + s[IndexOf(s, x) + 1..]
  {
    var i := IndexOf(s, x);
    if i == -1 then s
    else
      assert s == s[..i] + [s[i]] + s[i + 1..];
      s[..i] + s[i + 1..]
  }

  /** Unsubscribing right after subscribing a new callback restores the list. */
  lemma {:induction false} RemoveFirstAfterAppend<T>(s: seq<T>, x: T)
    requires x !in s
    ensures RemoveFirst(s + [x], x) == s
  {
    assert (s + [x])[..|s|] == s;
    assert IndexOf(s + [x], x) == |s| by {
      IndexOfAppendNew(s, x);
    }
  }

  lemma {:induction false} IndexOfAppendNew<T>(s: seq<T>, x: T)
    requires x !in s
    ensures IndexOf(s + [x], x) == |s|
  {
    if s != [] {
      assert (s + [x])[1..] == s[1..] + [x];
      IndexOfAppendNew(s[1..], x);
    }
  }

  /** A callback subscribed twice is removed once per unsubscribe; every other callback keeps its count. */
  lemma RemoveFirstKeepsOthers<T>(s: seq<T>, x: T)
    ensures forall y :: y != x ==> multiset(RemoveFirst(s, x))[y] == multiset(s)[y]
    ensures x in s ==> multiset(RemoveFirst(s, x))[x] == multiset(s)[x] - 1
  {
  }

  /**
   * The callbacks before the removed occurrence stay where they were, and
   * the ones after it move up by one, in their order.
   */
  lemma RemoveFirstKeepsOrder<T>(s: seq<T>, x: T)
    requires x in s
    ensures var r, i := RemoveFirst(s, x), IndexOf(s, x);
            |r| == |s| - 1 && r[..i] == s[..i] && r[i..] == s[i + 1..]
  {
    var r, i := RemoveFirst(s, x), IndexOf(s, x);
    assert r[..i] == s[..i];
  }

  /** The callback invocations `notify` makes: each listener, in order, with the state. */
  function Deliveries<S>(ids: seq<ListenerId>, state: S): (d: seq<(ListenerId, S)>)
    ensures |d| == |ids|
    ensures forall i :: 0 <= i < |d| ==> d[i] == (ids[i], state)
  {
    seq(|ids|, i requires 0 <= i < |ids| => (ids[i], state))
  }

  /** The mutations of one module as bound under `name/key`. */
  function Bindings<S, P>(name: string, mutations: map<string, (S, P) -> S>): (r: map<(string, string), (S, P) -> S>)
    ensures forall p :: p in r <==> p.0 == name && p.1 in mutations
    ensures forall k :: k in mutations ==> r[(name, k)] == mutations[k]
  {
    map k | k in mutations :: (name, k) := mutations[k]
  }

  /** A module definition: its initial state (absent means `{}`) and its mutations. */
  datatype ModuleDef<!S, !P> = ModuleDef(state: Option<S>, mutations: map<string, (S, P) -> S>)

  class Store<S, P> {
    /** `this.state`. */
    var state: map<string, S>
    /** `this.listeners`. */
    var listeners: map<string, seq<ListenerId>>
    /** The functions bound as `this['name/key']`, keyed by (module name, mutation key). */
    var bound: map<(string, string), (S, P) -> S>
    /** Every callback invocation so far. */
    var delivered: seq<(ListenerId, S)>
    /** The value `{}` used for a module without a state. */
    const blank: S

    /** Every bound mutation belongs to a registered module. */
    ghost predicate Valid()
      reads this
    {
      forall p :: p in bound ==> p.0 in state
    }

    constructor (blank: S)
      ensures Valid()
      ensures state == map[] && listeners == map[] && bound == map[] && delivered == []
      ensures this.blank == blank
    {
      this.blank := blank;
      state := map[];
      listeners := map[];
      bound := map[];
      delivered := [];
    }

    /** `registerModule`: sets the module state and binds every mutation under the module's name. */
    method RegisterModule(name: string, def: ModuleDef<S, P>)
      requires Valid()
      modifies this
      ensures Valid()
      ensures state == old(state)[name := def.state.GetOr(blank)]
      ensures bound == old(bound) + Bindings(name, def.mutations)
      ensures listeners == old(listeners) && delivered == old(delivered)
    {
      state := state[name := def.state.GetOr(blank)];
      bound := bound + Bindings(name, def.mutations);
    }

    /**
     * Calling `this['name/key'](payload)`: applies the mutation to the module
     * state, then notifies that module's subscribers. `ok` is false (the
     * call throws) when nothing is bound under that name.
     */
    method Commit(name: string, key: string, payload: P) returns (ok: bool)
      requires Valid()
      modifies this
      ensures Valid()
      ensures ok <==> (name, key) in old(bound)
      ensures !ok ==> state == old(state) && delivered == old(delivered)
      ensures ok ==> name in old(state)
                     && state == old(state)[name := old(bound)[(name, key)](old(state)[name], payload)]
                     && delivered == old(delivered) + Deliveries(ListenersOf(name), state[name])
      ensures listeners == old(listeners) && bound == old(bound)
    {
      if (name, key) !in bound {
        return false;
      }
      state := state[name := bound[(name, key)](state[name], payload)];
      Notify(name);
      ok := true;
    }

    /** The subscriber list of a module, empty when it has none. */
    function ListenersOf(name: string): seq<ListenerId>
      reads this
    {
      if name in listeners then listeners[name] else []
    }

    /**
     * `notify`: calls each subscriber of the module, in subscription order, with its state.
     * The program would call them with `undefined` for a module without state; commits only
     * reach registered modules, so the model delivers nothing in that case.
     */
    method Notify(name: string)
      modifies this
      ensures delivered == old(delivered)
              + (if name in listeners && name in state then Deliveries(listeners[name], state[name]) else [])
      ensures state == old(state) && listeners == old(listeners) && bound == old(bound)
    {
      if name !in listeners || name !in state {
        return;
      }
      var ids := listeners[name];
      var s := state[name];
      var i := 0;
      while i < |ids|
        invariant 0 <= i <= |ids|
        invariant delivered == old(delivered) + Deliveries(ids[..i], s)
        invariant state == old(state) && listeners == old(listeners) && bound == old(bound)
      {
        delivered := delivered + [(ids[i], s)];
        i := i + 1;
      }
      assert ids[..i] == ids;
    }

    /** `subscribe`: appends the callback to the module's list (creating it). */
    method Subscribe(name: string, id: ListenerId)
      modifies this
      ensures listeners == old(listeners)[name := old(ListenersOf(name)) + [id]]
      ensures state == old(state) && bound == old(bound) && delivered == old(delivered)
    {
      listeners := listeners[name := ListenersOf(name) + [id]];
    }

    /** The function `subscribe` returns: removes the first occurrence of the callback. */
    method Unsubscribe(name: string, id: ListenerId)
      requires name in listeners
      modifies this
      ensures listeners == old(listeners)[name := RemoveFirst(old(listeners)[name], id)]
      ensures state == old(state) && bound == old(bound) && delivered == old(delivered)
    {
      listeners := listeners[name := RemoveFirst(listeners[name], id)];
    }

    /** `getState(name)` for a module name; `None` is `undefined`. */
    method GetState(name: string) returns (s: Option<S>)
      ensures s.Some? <==> name in state
      ensures s.Some? ==> s.value == state[name]
    {
      s := if name in state then Some(state[name]) else None;
    }
  }
}

/** The JWT store behind `useJwt`: the current token of one host, kept in
    step with the storage area, and the set of subscribers notified of each
    update. */
module JwtStore {
  import opened Wrappers
  import opened Json
  import opened Storage

  /** One entry of a storage change event; `None` stands for `undefined`. */
  datatype StorageChange = StorageChange(oldValue: Option<Json>, newValue: Option<Json>)

  /** The value a change hands the store: a string is kept, anything else
      (a removed key included) becomes `None` (`null`). */
  function AsJwt(value: Option<Json>): (r: Option<string>)
    ensures r.Some? <==> value.Some? && value.value.JString?
    ensures r.Some? ==> value.value == JString(r.value)
  {
    match value
    case Some(JString(s)) => Some(s)
    case _ => None
  }

  /** No listener occurs twice: the listeners form a set. */
  predicate NoDuplicates(s: seq<nat>)
  {
    forall i, j :: 0 <= i < j < |s| ==> s[i] != s[j]
  }

  /** `r` is `s` with some elements left out, the rest in their order. */
  predicate Subsequence(r: seq<nat>, s: seq<nat>)
    decreases |s|
  {
    r == [] || (s != [] && ((r[0] == s[0] && Subsequence(r[1..], s[1..])) || Subsequence(r, s[1..])))
  }

  /** `Set.prototype.delete` on the listeners, kept in insertion order: the
      deleted listener is gone, every other one stays, and the order of those
      that stay is unchanged. */
  function Without(s: seq<nat>, x: nat): (r: seq<nat>)
    ensures x !in r
    ensures forall y :: y in r <==> y in s && y != x
    ensures Subsequence(r, s)
  {
    if s == [] then []
    else if s[0] == x then Without(s[1..], x)
    else
      var rest := Without(s[1..], x);
      assert s == [s[0]] + s[1..];
      assert ([s[0]] + rest)[1..] == rest;
      [s[0]] + rest
  }

  /** Deleting from a set keeps it a set and drops exactly one element when
      the deleted one was there. */
  lemma {:induction false} WithoutSet(s: seq<nat>, x: nat)
    requires NoDuplicates(s)
    ensures NoDuplicates(Without(s, x))
    ensures |Without(s, x)| == if x in s then |s| - 1 else |s|
  {
    if s != [] {
      assert NoDuplicates(s[1..]);
      WithoutSet(s[1..], x);
      if s[0] == x {
        assert x !in s[1..];
      } else {
        var r := [s[0]] + Without(s[1..], x);
        forall i, j | 0 <= i < j < |r|
          ensures r[i] != r[j]
        {
          if i == 0 {
            assert r[j] in s[1..];
          }
        }
      }
    }
  }

  /** In a set each member occurs once, so a pass over it calls each
      listener exactly once. */
  lemma {:induction false} OncePerMember(s: seq<nat>, x: nat)
    requires NoDuplicates(s)
    ensures multiset(s)[x] == if x in s then 1 else 0
  {
    if s != [] {
      assert s == [s[0]] + s[1..];
      assert NoDuplicates(s[1..]);
      OncePerMember(s[1..], x);
      if s[0] == x {
        assert x !in s[1..];
      }
    }
  }

  /** The store made by `createJwtStore(host)`. Listeners are identified by
      numbers; `notified` logs every listener call in order; `attached` is
      whether the storage change listener is registered. */
  class JwtStore {
    const host: string
    const key: string
    var currentValue: Option<string>
    var listeners: seq<nat>
    var attached: bool
    var notified: seq<nat>

    predicate Valid()
      reads this
    {
      key == ToJwtStorageKey(host) && NoDuplicates(listeners)
    }

    /** Creation: no value yet, no listener, and the storage change listener
        registered. The `getJwt` it starts resolves later, in
        `ResolveInitial`. */
    constructor(host: string)
      ensures Valid()
      ensures this.host == host && key == ToJwtStorageKey(host)
      ensures currentValue == None && listeners == [] && attached && notified == []
    {
      this.host := host;
      key := ToJwtStorageKey(host);
      currentValue := None;
      listeners := [];
      attached := true;
      notified := [];
    }

    /** `listeners.forEach((listener) => listener())`. */
    method Notify()
      requires Valid()
      modifies this`notified
      ensures notified == old(notified) + listeners
      ensures forall l :: multiset(notified)[l] == multiset(old(notified))[l] + (if l in listeners then 1 else 0)
    {
      for i := 0 to |listeners|
        invariant notified == old(notified) + listeners[..i]
      {
        notified := notified + [listeners[i]];
      }
      assert listeners[..|listeners|] == listeners;
      forall l
        ensures multiset(notified)[l] == multiset(old(notified))[l] + (if l in listeners then 1 else 0)
      {
        OncePerMember(listeners, l);
      }
    }

    /** The `getJwt(host)` promise settling: the value read from storage at
        that moment becomes current and every listener is notified. */
    method ResolveInitial(storage: LocalStorageArea)
      requires Valid()
      modifies this`currentValue, this`notified
      ensures Valid()
      ensures currentValue == StoredJwt(storage.items, host)
      ensures notified == old(notified) + listeners
    {
      currentValue := storage.GetJwt(host);
      Notify();
    }

    /** The storage change listener, called with one change event. The event
        only reaches it while it is registered; it acts only on the `local`
        area and only when the event holds this host's key. */
    method StorageChanged(changes: map<string, StorageChange>, areaName: string)
      requires Valid()
      modifies this`currentValue, this`notified
      ensures Valid()
      ensures old(attached) && areaName == "local" && key in changes ==>
        currentValue == AsJwt(changes[key].newValue) && notified == old(notified) + listeners
      ensures !(old(attached) && areaName == "local" && key in changes) ==>
        currentValue == old(currentValue) && notified == old(notified)
    {
      if attached && areaName == "local" && key in changes {
        currentValue := AsJwt(changes[key].newValue);
        Notify();
      }
    }

    /** `subscribe(listener)`: adds the listener to the set. It never touches
        the storage change listener. */
    method Subscribe(listener: nat)
      requires Valid()
      modifies this`listeners
      ensures Valid()
      ensures listeners == if listener in old(listeners) then old(listeners) else old(listeners) + [listener]
    {
      if listener !in listeners {
        listeners := listeners + [listener];
      }
    }

    /** The function `subscribe` returns: removes the listener, and
        unregisters the storage change listener once the set is empty. */
    method Unsubscribe(listener: nat)
      requires Valid()
      modifies this`listeners, this`attached
      ensures Valid()
      ensures listeners == Without(old(listeners), listener)
      ensures attached == (old(attached) && listeners != [])
    {
      WithoutSet(listeners, listener);
      listeners := Without(listeners, listener);
      if |listeners| == 0 {
        attached := false;
      }
    }

    /** `getSnapshot`: the current value; nothing changes. */
    method GetSnapshot() returns (value: Option<string>)
      ensures value == currentValue
    {
      value := currentValue;
    }
  }

  /** Once the last subscriber leaves, the store stops following storage for
      good: a later subscriber is never notified of a change, and the
      snapshot stays what it was. */
  method DetachedForGood(token: string) returns (value: Option<string>, notified: seq<nat>)
    ensures value == None && notified == []
  {
    var storage := new LocalStorageArea(map[]);
    var store := new JwtStore("example.com");
    store.Subscribe(1);
    store.Unsubscribe(1);
    store.Subscribe(2);
    storage.SaveJwt("example.com", token);
    var changes := map[store.key := StorageChange(None, Some(JString(token)))];
    store.StorageChanged(changes, "local");
    value := store.GetSnapshot();
    notified := store.notified;
  }

  /** While subscribed, a saved token reaches the snapshot and each
      subscriber hears of it once, in the order they subscribed. */
  method SaveReachesSubscribers(token: string) returns (value: Option<string>, notified: seq<nat>)
    ensures value == Some(token) && notified == [1, 2]
  {
    var storage := new LocalStorageArea(map[]);
    var store := new JwtStore("example.com");
    store.Subscribe(1);
    store.Subscribe(2);
    store.Subscribe(1);
    storage.SaveJwt("example.com", token);
    var changes := map[store.key := StorageChange(None, Some(JString(token)))];
    store.StorageChanged(changes, "local");
    value := store.GetSnapshot();
    notified := store.notified;
  }
}

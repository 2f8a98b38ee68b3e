/**
 * The environment signal source of dist/browser_state.js: the defaults used
 * when the platform cannot report visibility or connectivity, and the
 * module-level registry of listeners with its lazy attachment of platform
 * event handlers and its error-deferring fan-out.
 *
 * The DOM itself is abstracted: a `Platform` value says what the probes
 * would read, `attached` says whether the five window listeners are
 * installed, and calls to listeners are returned as a sequence of `Call`s.
 */
module Browser {
  import opened Optional

  /** What the platform probes read. `None` is a property that is undefined. */
  datatype Platform = Platform(
    visibilityState: Option<string>,  // document.visibilityState, None when document or the property is absent
    onLine: Option<bool>,             // navigator.onLine
    hasFocus: bool)                   // document.hasFocus()

  datatype BrowserState = BrowserState(online: bool, visible: bool, focused: bool)

  /** `isDocumentVisible`: visible unless the platform reports exactly 'hidden'. */
  function IsDocumentVisible(p: Platform): (visible: bool)
    ensures visible <==> p.visibilityState != Some("hidden")
    ensures p.visibilityState.None? ==> visible
  {
    match p.visibilityState
    case Some(v) => v != "hidden"
    case None => true
  }

  /** `isOnline`: the platform's flag when it has one, online otherwise. */
  function IsOnline(p: Platform): (online: bool)
    ensures online <==> p.onLine != Some(false)
    ensures p.onLine.Some? ==> online == p.onLine.value
  {
    match p.onLine
    case Some(b) => b
    case None => true
  }

  /** `getBrowserState`: the three probes read together. */
  function GetBrowserState(p: Platform): (s: BrowserState)
    ensures s.online <==> p.onLine != Some(false)
    ensures s.visible <==> p.visibilityState != Some("hidden")
    ensures s.focused == p.hasFocus
  {
    BrowserState(online := IsOnline(p), visible := IsDocumentVisible(p), focused := p.hasFocus)
  }

  /** One invocation of a listener with a browser state. */
  datatype Call<L> = Call(listener: L, state: BrowserState)

  /** A value a listener threw, with its JavaScript truthiness. */
  datatype Thrown<V> = Thrown(value: V, truthy: bool)

  /** `listeners.indexOf(x)`: the first position of `x`, or -1. */
  function IndexOf<L(==)>(s: seq<L>, x: L): (i: int)
    ensures -1 <= i < |s|
    ensures i == -1 <==> x !in s
    ensures 0 <= i ==> s[i] == x && x !in s[..i]
  {
    if s == [] then -1
    else if s[0] == x then 0
    else
      var j := IndexOf(s[1..], x);
      assert j >= 0 ==> s[1..][..j] == s[1..j + 1];
      if j == -1 then -1 else j + 1
  }

  /** Reference definition of removing the first occurrence of `x`. */
  function RemoveFirst<L(==)>(s: seq<L>, x: L): (r: seq<L>)
    ensures |r| == if x in s then |s| - 1 else |s|
  {
    if s == [] then []
    else if s[0] == x then s[1..]
    else [s[0]] + RemoveFirst(s[1..], x)
  }

  lemma {:induction false} RemoveFirstAbsent<L>(s: seq<L>, x: L)
    requires x !in s
    ensures RemoveFirst(s, x) == s
  {
    if s != [] {
      assert s[0] != x;
      RemoveFirstAbsent(s[1..], x);
    }
  }

  /** `splice(indexOf(x), 1)` removes exactly the first occurrence. */
  lemma {:induction false} RemoveFirstIsSplice<L>(s: seq<L>, x: L)
    requires x in s
    ensures var i := IndexOf(s, x); RemoveFirst(s, x) == s[..i] + s[i + 1..]
  {
    if s[0] != x {
      var t := s[1..];
      assert x in t;
      RemoveFirstIsSplice(t, x);
      var j := IndexOf(t, x);
      assert IndexOf(s, x) == j + 1;
      assert RemoveFirst(s, x) == [s[0]] + RemoveFirst(t, x);
      SpliceUnderHead(s, j);
    } else {
      assert s[..0] + s[1..] == s[1..];
    }
  }

  lemma SpliceUnderHead<L>(s: seq<L>, j: nat)
    requires j + 1 < |s|
    ensures [s[0]] + (s[1..][..j] + s[1..][j + 1..]) == s[..j + 1] + s[j + 2..]
  {
  }

  /** Removal takes away one copy of `x` when present and keeps every other listener. */
  lemma {:induction false} RemoveFirstMultiset<L>(s: seq<L>, x: L)
    ensures multiset(RemoveFirst(s, x)) == multiset(s) - multiset{x}
  {
    if s != [] {
      assert s == [s[0]] + s[1..];
      RemoveFirstMultiset(s[1..], x);
    }
  }

  /** Subscribing and then unsubscribing the same callback always restores the
      listeners as a multiset. When the callback was new, the exact list comes
      back; when it was already registered, its first copy is the one removed,
      so the callback moves to the end. */
  lemma {:induction false} SubscribeUnsubscribeRoundTrip<L>(s: seq<L>, x: L)
    ensures multiset(RemoveFirst(s + [x], x)) == multiset(s)
    ensures x !in s ==> RemoveFirst(s + [x], x) == s
    ensures x in s ==> RemoveFirst(s + [x], x) == RemoveFirst(s, x) + [x]
  {
    RemoveFirstMultiset(s + [x], x);
    assert multiset(s + [x]) == multiset(s) + multiset{x};
    RemoveFirstAppended(s, x);
  }

  lemma {:induction false} RemoveFirstAppended<L>(s: seq<L>, x: L)
    ensures RemoveFirst(s + [x], x) == if x in s then RemoveFirst(s, x) + [x] else s
  {
    if s == [] {
      assert s + [x] == [x];
    } else if s[0] != x {
      assert (s + [x])[1..] == s[1..] + [x];
      assert x in s <==> x in s[1..];
      RemoveFirstAppended(s[1..], x);
      assert s == [s[0]] + s[1..];
    } else {
      assert (s + [x])[1..] == s[1..] + [x];
    }
  }

  /** The last value caught while calling the listeners in order; `None`
      is `error` left undefined. */
  function LastCaught<V>(outcomes: seq<Option<Thrown<V>>>): (caught: Option<Thrown<V>>)
    ensures caught.Some? ==> caught in outcomes
  {
    if outcomes == [] then None
    else if outcomes[|outcomes| - 1].Some? then outcomes[|outcomes| - 1]
    else LastCaught(outcomes[..|outcomes| - 1])
  }

  /** What `refresh` re-throws after the loop: the last caught value, when truthy. */
  function Rethrow<V>(outcomes: seq<Option<Thrown<V>>>): (rethrown: Option<V>)
    ensures rethrown.Some? ==> Some(Thrown(rethrown.value, true)) in outcomes
  {
    match LastCaught(outcomes)
    case Some(t) => if t.truthy then Some(t.value) else None
    case None => None
  }

  /** The caught value is the one thrown by the last listener that threw. */
  lemma {:induction false} LastCaughtIsLastThrow<V>(outcomes: seq<Option<Thrown<V>>>)
    ensures LastCaught(outcomes).None? <==> forall i :: 0 <= i < |outcomes| ==> outcomes[i].None?
    ensures LastCaught(outcomes).Some? ==>
      exists i :: 0 <= i < |outcomes| && outcomes[i] == LastCaught(outcomes) &&
        forall j :: i < j < |outcomes| ==> outcomes[j].None?
  {
    if outcomes != [] {
      var n := |outcomes| - 1;
      var prefix := outcomes[..n];
      if outcomes[n].None? {
        LastCaughtIsLastThrow(prefix);
        assert LastCaught(outcomes) == LastCaught(prefix);
        if LastCaught(prefix).Some? {
          var i :| 0 <= i < n && prefix[i] == LastCaught(prefix) && forall j :: i < j < n ==> prefix[j].None?;
          assert outcomes[i] == prefix[i];
          forall j | i < j < |outcomes|
            ensures outcomes[j].None?
          {
            if j < n {
              assert outcomes[j] == prefix[j];
            }
          }
        } else {
          forall k | 0 <= k < |outcomes|
            ensures outcomes[k].None?
          {
            if k < n {
              assert outcomes[k] == prefix[k];
            }
          }
        }
      } else {
        assert outcomes[n] == LastCaught(outcomes);
      }
    }
  }

  /** `refresh` re-throws iff the last listener that threw threw a truthy value;
      in particular nothing is re-thrown when no listener threw. */
  lemma RethrowIffLastThrowTruthy<V>(outcomes: seq<Option<Thrown<V>>>)
    ensures (forall i :: 0 <= i < |outcomes| ==> outcomes[i].None?) ==> Rethrow(outcomes).None?
    ensures Rethrow(outcomes).Some? <==>
      exists i :: 0 <= i < |outcomes| && outcomes[i].Some? && outcomes[i].value.truthy &&
        (forall j :: i < j < |outcomes| ==> outcomes[j].None?)
    ensures Rethrow(outcomes).Some? ==>
      exists i :: 0 <= i < |outcomes| && outcomes[i] == Some(Thrown(Rethrow(outcomes).value, true)) &&
        forall j :: i < j < |outcomes| ==> outcomes[j].None?
  {
    LastCaughtIsLastThrow(outcomes);
    if exists i :: 0 <= i < |outcomes| && outcomes[i].Some? && outcomes[i].value.truthy &&
        (forall j :: i < j < |outcomes| ==> outcomes[j].None?) {
      var i :| 0 <= i < |outcomes| && outcomes[i].Some? && outcomes[i].value.truthy &&
        (forall j :: i < j < |outcomes| ==> outcomes[j].None?);
      var k :| 0 <= k < |outcomes| && outcomes[k] == LastCaught(outcomes) &&
        forall j :: k < j < |outcomes| ==> outcomes[j].None?;
      assert k == i;
    }
  }

  /** The module-level `listeners` array and whether the platform listeners
      are currently added to `window`. */
  class Registry<L(==)> {
    var listeners: seq<L>
    var attached: bool

    /** Under subscribe and unsubscribe alone, the platform listeners are
        attached exactly while some callback is registered. */
    ghost predicate Valid()
      reads this
    {
      attached <==> listeners != []
    }

    constructor ()
      ensures Valid()
      ensures listeners == [] && !attached
    {
      listeners := [];
      attached := false;
    }

    /** `subscribe(cb)`: attach when the list was empty, append `cb`, then call it
        once with the current state. The returned unsubscriber is `Unsubscribe(cb)`. */
    method Subscribe(cb: L, p: Platform) returns (calls: seq<Call<L>>)
      modifies this
      ensures listeners == old(listeners) + [cb]
      ensures attached == (old(listeners) == [] || old(attached))
      ensures calls == [Call(cb, GetBrowserState(p))]
      ensures old(Valid()) ==> Valid()
    {
      if |listeners| == 0 {
        attached := true;
      }
      listeners := listeners + [cb];
      calls := [Call(cb, GetBrowserState(p))];
    }

    /** `unsubscribe(cb)`: remove the first occurrence of `cb`, if any, and
        detach whenever the list is then empty, found or not. */
    method Unsubscribe(cb: L)
      modifies this
      ensures listeners == RemoveFirst(old(listeners), cb)
      ensures attached == (listeners != [] && old(attached))
      ensures old(Valid()) ==> Valid()
    {
      var index := IndexOf(listeners, cb);
      if index != -1 {
        RemoveFirstIsSplice(listeners, cb);
        listeners := listeners[..index] + listeners[index + 1..];
      } else {
        RemoveFirstAbsent(listeners, cb);
      }
      if |listeners| == 0 {
        attached := false;
      }
    }

    /** `refresh`: compute the state once, call every listener in order with it,
        keep going past the ones that throw (`outcomes[i]` is what the i-th
        listener does), and afterwards re-throw the last caught value if truthy. */
    method Refresh<V>(p: Platform, outcomes: seq<Option<Thrown<V>>>) returns (calls: seq<Call<L>>, rethrown: Option<V>)
      requires |outcomes| == |listeners|
      ensures |calls| == |listeners|
      ensures forall i :: 0 <= i < |calls| ==> calls[i] == Call(listeners[i], GetBrowserState(p))
      ensures rethrown == Rethrow(outcomes)
    {
      var state := GetBrowserState(p);
      var error: Option<Thrown<V>> := None;
      calls := [];
      for i := 0 to |listeners|
        invariant |calls| == i
        invariant forall k :: 0 <= k < i ==> calls[k] == Call(listeners[k], state)
        invariant error == LastCaught(outcomes[..i])
      {
        calls := calls + [Call(listeners[i], state)];
        if outcomes[i].Some? {
          error := outcomes[i];
        }
        assert outcomes[..i + 1][..i] == outcomes[..i];
      }
      assert outcomes[..|listeners|] == outcomes;
      rethrown := if error.Some? && error.value.truthy then Some(error.value.value) else None;
    }
  }
}

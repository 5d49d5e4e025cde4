/**
 * The two ordered callback lists of a bubble and the `listen` / `unlisten`
 * operations on them.
 */
module Listeners {
  import opened Wrappers

  /** A callback, known only by its identity: `indexOf` compares functions by reference. */
  datatype Callback = Callback(id: nat)

  const ClosedEvent: string := "Bubble:closed"
  const OpenedEvent: string := "Bubble:opened"

  datatype EventKind = Closed | Opened

  datatype ListenerError = UnknownEvent | UnknownCallback

  /** The event kind an event name selects; any other name is unknown. */
  function KindOf(event: string): (k: Option<EventKind>)
    ensures k == Some(Closed) <==> event == ClosedEvent
    ensures k == Some(Opened) <==> event == OpenedEvent
  {
    if event == ClosedEvent then Some(Closed)
    else if event == OpenedEvent then Some(Opened)
    else None
  }

  datatype Registry = Registry(closeListeners: seq<Callback>, openListeners: seq<Callback>)
  {
    /** The list of one kind. */
    function Get(k: EventKind): seq<Callback>
    {
      match k
      case Closed => closeListeners
      case Opened => openListeners
    }

    /** Replaces the list of one kind, keeping the other. */
    function Set(k: EventKind, l: seq<Callback>): (r: Registry)
      ensures r.Get(k) == l
      ensures forall k' :: k' != k ==> r.Get(k') == Get(k')
    {
      match k
      case Closed => this.(closeListeners := l)
      case Opened => this.(openListeners := l)
    }
  }

  /** Both lists empty, as the constructor leaves them. */
  function Empty(): (r: Registry)
    ensures forall k :: r.Get(k) == []
  {
    Registry([], [])
  }

  /** Position of the first occurrence of `x` in `s`, or -1 when absent. */
  function IndexOf(s: seq<Callback>, x: Callback): (r: int)
    ensures -1 <= r < |s|
    ensures r == -1 <==> x !in s
    ensures 0 <= r ==> s[r] == x && forall j :: 0 <= j < r ==> s[j] != x
  {
    if |s| == 0 then -1
    else if s[0] == x then 0
    else
      var k := IndexOf(s[1..], x);
      if k == -1 then -1
      else k + 1
  }

  /** The list after `splice(i, 1)`: the element at `i` is gone and the rest keep their order. */
  function RemoveAt(s: seq<Callback>, i: nat): (r: seq<Callback>)
    requires i < |s|
    ensures |r| == |s| - 1
    ensures forall j :: 0 <= j < i ==> r[j] == s[j]
    ensures forall j :: i <= j < |r| ==> r[j] == s[j + 1]
  {
    s[..i] + s[i + 1..]
  }

  /** `listen`: appends the callback to the list the event names, or fails on an unknown name. */
  function Listen(reg: Registry, event: string, cb: Callback): (r: Result<Registry, ListenerError>)
    ensures r.Err? <==> KindOf(event).None?
    ensures r.Err? ==> r.error == UnknownEvent
    ensures r.Ok? ==> r.value.Get(KindOf(event).value) == reg.Get(KindOf(event).value) + [cb]
    ensures r.Ok? ==> forall k :: k != KindOf(event).value ==> r.value.Get(k) == reg.Get(k)
  {
    match KindOf(event)
    case None => Err(UnknownEvent)
    case Some(k) => Ok(reg.Set(k, reg.Get(k) + [cb]))
  }

  /**
   * `unlisten`: removes the first occurrence of the callback from the list the
   * event names. An unknown name fails with UnknownEvent, an absent callback
   * with UnknownCallback; a failure leaves the registry as it was.
   */
  function Unlisten(reg: Registry, event: string, cb: Callback): (r: Result<Registry, ListenerError>)
    ensures KindOf(event).None? ==> r == Err(UnknownEvent)
    ensures KindOf(event).Some? && cb !in reg.Get(KindOf(event).value) ==> r == Err(UnknownCallback)
    ensures KindOf(event).Some? && cb in reg.Get(KindOf(event).value) ==>
              var l := reg.Get(KindOf(event).value);
              && r.Ok?
              && (exists i :: 0 <= i < |l| && l[i] == cb && cb !in l[..i] && r.value.Get(KindOf(event).value) == l[..i] + l[i + 1..])
              && multiset(r.value.Get(KindOf(event).value)) == multiset(l) - multiset{cb}
              && forall k :: k != KindOf(event).value ==> r.value.Get(k) == reg.Get(k)
  {
    match KindOf(event)
    case None => Err(UnknownEvent)
    case Some(k) =>
      var l := reg.Get(k);
      var i := IndexOf(l, cb);
      if i == -1 then Err(UnknownCallback)
      else
        assert l == l[..i] + [cb] + l[i + 1..];
        Ok(reg.Set(k, RemoveAt(l, i)))
  }

  /** Listening to a callback not yet registered and then unlistening it restores the registry. */
  lemma ListenThenUnlisten(reg: Registry, event: string, cb: Callback)
    requires KindOf(event).Some? && cb !in reg.Get(KindOf(event).value)
    ensures Listen(reg, event, cb).Ok?
    ensures Unlisten(Listen(reg, event, cb).value, event, cb) == Ok(reg)
  {
    var k := KindOf(event).value;
    var l := reg.Get(k);
    var l' := Listen(reg, event, cb).value.Get(k);
    assert l' == l + [cb];
    assert IndexOf(l', cb) == |l|;
    assert l'[..|l|] + l'[|l| + 1..] == l;
    var r := Unlisten(Listen(reg, event, cb).value, event, cb).value;
    assert r.Get(k) == l;
    assert forall k' :: r.Get(k') == reg.Get(k');
    assert r == reg by {
      assert r.closeListeners == r.Get(Closed) == reg.Get(Closed);
      assert r.openListeners == r.Get(Opened) == reg.Get(Opened);
    }
  }

  /**
   * Listening and then unlistening the same callback always succeeds and
   * keeps the same callbacks, with the same multiplicities, even when the
   * callback was already registered (an earlier copy is then the one removed).
   */
  lemma ListenThenUnlistenKeepsCallbacks(reg: Registry, event: string, cb: Callback)
    requires KindOf(event).Some?
    ensures Listen(reg, event, cb).Ok?
    ensures Unlisten(Listen(reg, event, cb).value, event, cb).Ok?
    ensures forall k :: multiset(Unlisten(Listen(reg, event, cb).value, event, cb).value.Get(k)) == multiset(reg.Get(k))
  {

  }

  /** From no listeners, listen followed by unlisten leaves no listener of either kind. */
  lemma ListenUnlistenFromEmpty(event: string, cb: Callback)
    requires KindOf(event).Some?
    ensures Unlisten(Listen(Empty(), event, cb).value, event, cb) == Ok(Empty())
  {

  }
}

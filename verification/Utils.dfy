/**
 * The DOM and host-event helpers of src/utils.ts: the element tracker
 * behind `observeElement`, and the module-level visibility flag kept by
 * `subscribeToUIVisible`.  The DOM query is not part of this model: each
 * mutation passes in what `querySelector` finds.
 */
module Utils {
  import opened Wrappers

  /** What one `notify` call reports. */
  datatype Transition<E> = Appeared(element: E) | Disappeared | NoChange

  /**
   * `notify` (utils.ts:37-46) on a tracked element and the element now
   * found.  Afterwards the tracked element is always the one found;
   * appearance is reported when a different element is found, and
   * disappearance when none is found where one was tracked.
   */
  function NotifyStep<E(==)>(tracked: Option<E>, found: Option<E>): (r: (Option<E>, Transition<E>))
    ensures r.0 == found
    ensures r.1.Appeared? <==> found.Some? && found != tracked
    ensures r.1.Appeared? ==> r.1.element == found.value
    ensures r.1.Disappeared? <==> found.None? && tracked.Some?
  {
    if found.Some? && found != tracked then (found, Appeared(found.value))
    else if found.None? && tracked.Some? then (None, Disappeared)
    else (tracked, NoChange)
  }

  /** A second `notify` on an unchanged DOM reports nothing. */
  lemma NotifyIdempotent<E>(tracked: Option<E>, found: Option<E>)
    ensures NotifyStep(NotifyStep(tracked, found).0, found) == (found, NoChange)
  {
  }

  /** A callback invocation: which registered callback ran, and with what. */
  datatype Call<E> = AppearCall(callback: nat, element: E) | DisappearCall(callback: nat)

  /** The invocations a transition makes, given the stored callbacks. */
  function CallsFor<E>(t: Transition<E>, appear: Option<nat>, disappear: Option<nat>): (calls: seq<Call<E>>)
    ensures |calls| <= 1
    ensures calls != [] <==> (t.Appeared? && appear.Some?) || (t.Disappeared? && disappear.Some?)
    ensures t.Appeared? && appear.Some? ==> calls == [AppearCall(appear.value, t.element)]
    ensures t.Disappeared? && disappear.Some? ==> calls == [DisappearCall(disappear.value)]
  {
    match t
    case Appeared(el) => if appear.Some? then [AppearCall(appear.value, el)] else []
    case Disappeared => if disappear.Some? then [DisappearCall(disappear.value)] else []
    case NoChange => []
  }

  /**
   * The observer returned by `observeElement` (utils.ts:32-67): the tracked
   * element, the stored callbacks (by identity), whether the mutation
   * observer is connected, and a ghost log of callback invocations.
   */
  class ElementObserver<E(==)> {
    var element: Option<E>
    var appearCallback: Option<nat>
    var disappearCallback: Option<nat>
    var connected: bool
    ghost var calls: seq<Call<E>>

    /**
     * `observeElement(id)` with `present` the element in the DOM at that
     * moment.  The initial `notify` runs before any callback can be
     * registered, so an element already present is recorded silently.
     */
    constructor (present: Option<E>)
      ensures element == present && appearCallback == None && disappearCallback == None
      ensures connected && calls == []
    {
      element := present;
      appearCallback, disappearCallback := None, None;
      connected := true;
      calls := [];
      new;
      Notify(present);
    }

    /** `notify`, with `found` the result of `querySelector`. */
    method Notify(found: Option<E>)
      modifies this
      ensures element == NotifyStep(old(element), found).0
      ensures calls == old(calls) + CallsFor(NotifyStep(old(element), found).1, appearCallback, disappearCallback)
      ensures appearCallback == old(appearCallback) && disappearCallback == old(disappearCallback)
      ensures connected == old(connected)
    {
      if found.Some? && found != element {
        element := found;
        if appearCallback.Some? {
          calls := calls + [AppearCall(appearCallback.value, found.value)];
        }
      } else if found.None? && element.Some? {
        element := None;
        if disappearCallback.Some? {
          calls := calls + [DisappearCall(disappearCallback.value)];
        }
      }
    }

    /** A DOM mutation: the observer calls `notify` only while connected. */
    method Mutation(found: Option<E>)
      modifies this
      ensures connected == old(connected)
      ensures connected ==> element == found
      ensures connected ==> calls == old(calls) + CallsFor(NotifyStep(old(element), found).1, appearCallback, disappearCallback)
      ensures !connected ==> element == old(element) && calls == old(calls)
      ensures appearCallback == old(appearCallback) && disappearCallback == old(disappearCallback)
    {
      if connected {
        Notify(found);
      }
    }

    /** `onAppear`: replaces the appear callback and returns the same observer. */
    method OnAppear(callback: nat) returns (self: ElementObserver<E>)
      modifies this
      ensures self == this && appearCallback == Some(callback)
      ensures element == old(element) && disappearCallback == old(disappearCallback)
      ensures connected == old(connected) && calls == old(calls)
    {
      appearCallback := Some(callback);
      self := this;
    }

    /** `onDisappear`: replaces the disappear callback and returns the same observer. */
    method OnDisappear(callback: nat) returns (self: ElementObserver<E>)
      modifies this
      ensures self == this && disappearCallback == Some(callback)
      ensures element == old(element) && appearCallback == old(appearCallback)
      ensures connected == old(connected) && calls == old(calls)
    {
      disappearCallback := Some(callback);
      self := this;
    }

    /** `disconnect`: later mutations are no longer observed. */
    method Disconnect()
      modifies this
      ensures !connected
      ensures element == old(element) && calls == old(calls)
      ensures appearCallback == old(appearCallback) && disappearCallback == old(disappearCallback)
    {
      connected := false;
    }
  }

  /**
   * The module variable `_visible` (utils.ts:4) and the `onChange` calls of
   * the visibility subscription; `observed` logs the snapshot each
   * `onChange` call would read.
   */
  class VisibilityStore {
    var visible: bool
    ghost var observed: seq<bool>

    /** `_visible` starts as the host's `isMainUIVisible`. */
    constructor (isMainUIVisible: bool)
      ensures visible == isMainUIVisible && observed == []
    {
      visible := isMainUIVisible;
      observed := [];
    }

    /**
     * A `ui:visible:changed` event (utils.ts:16-20): `_visible` is set
     * before `onChange` runs, so `onChange` reads the new value.
     */
    method VisibleChanged(isVisible: bool)
      modifies this
      ensures visible == isVisible && Snapshot() == isVisible
      ensures observed == old(observed) + [isVisible]
    {
      visible := isVisible;
      observed := observed + [Snapshot()];
    }

    /** The snapshot `useAppVisible` reads (utils.ts:23). */
    function Snapshot(): bool
      reads this
    {
      visible
    }
  }
}

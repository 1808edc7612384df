/**
 * The plugin object around the pass: the settings, the click handler that
 * debounces the pass (`handleCheckboxClick`), the timer callback that runs it,
 * and `onunload`.
 *
 * Time is left out. The host's timer table is the `Window` class: a map from
 * the handles `setTimeout` has handed out to the delays they were scheduled
 * with, which `clearTimeout` and the firing of a timer shrink. A click, the
 * firing of a timer and the unloading of the plugin are the events; the
 * invariant `Plugin.Valid` says that the only timer ever pending is the one
 * `reorderTimeout` records.
 */
module Debounce {
  import opened Optional
  import opened Patcher

  /** `AppleNotesCheckboxSettings`. */
  datatype Settings = Settings(enableAutoReorder: bool, reorderDelay: int)

  /** `DEFAULT_SETTINGS`: reordering on, 300 ms delay. */
  const DefaultSettings := Settings(true, 300)

  /** The CSS class the click handler looks for on the clicked element. */
  const CheckboxClass := "task-list-item-checkbox"

  /** The host's timers: the handles of the timers that have not fired or been
      cleared, with their delays. Handles are positive and never reused. */
  class Window {
    var pending: map<nat, int>
    var nextHandle: nat

    predicate Valid()
      reads this
    {
      && nextHandle > 0
      && forall h :: h in pending ==> 0 < h < nextHandle
    }

    constructor ()
      ensures Valid() && pending == map[] && nextHandle == 1
    {
      pending := map[];
      nextHandle := 1;
    }

    /** `window.setTimeout`: schedules a timer and returns a fresh positive handle. */
    method SetTimeout(delay: int) returns (handle: nat)
      requires Valid()
      modifies this
      ensures Valid()
      ensures handle > 0 && handle !in old(pending) && handle == old(nextHandle)
      ensures pending == old(pending)[handle := delay]
      ensures nextHandle == handle + 1
    {
      handle := nextHandle;
      pending := pending[handle := delay];
      nextHandle := nextHandle + 1;
    }

    /** `window.clearTimeout`: the timer no longer fires; an unknown handle is ignored. */
    method ClearTimeout(handle: nat)
      requires Valid()
      modifies this
      ensures Valid()
      ensures pending == old(pending) - {handle} && nextHandle == old(nextHandle)
    {
      pending := pending - {handle};
    }

    /** The host fires a pending timer: the timer leaves the table before its callback runs. */
    method Fire(handle: nat)
      requires Valid() && handle in pending
      modifies this
      ensures Valid()
      ensures pending == old(pending) - {handle} && nextHandle == old(nextHandle)
    {
      pending := pending - {handle};
    }
  }

  /** JavaScript truthiness of `reorderTimeout` (`number | null`): `null` and `0` are false. */
  predicate IsSet(t: Option<nat>): (b: bool)
    ensures t == None || t == Some(0) ==> !b
    ensures t.Some? && t.value > 0 ==> b
  {
    t.Some? && t.value != 0
  }

  /** `AppleNotesCheckboxPlugin`, with the host's timers it uses. */
  class Plugin {
    var settings: Settings
    var reorderTimeout: Option<nat>
    const window: Window

    /** Every pending timer is the one `reorderTimeout` records, and a recorded handle
        is one the window handed out. */
    predicate Valid()
      reads this, window
    {
      && window.Valid()
      && (forall h :: h in window.pending ==> reorderTimeout == Some(h))
      && (reorderTimeout.Some? ==> 0 < reorderTimeout.value < window.nextHandle)
    }

    /** The plugin after `loadSettings`, with no timer scheduled. */
    constructor (loaded: Settings, w: Window)
      requires w.Valid() && w.pending == map[]
      ensures Valid()
      ensures settings == loaded && reorderTimeout == None && window == w
    {
      settings := loaded;
      reorderTimeout := None;
      window := w;
    }

    /** `handleCheckboxClick`: with reordering off nothing happens; otherwise the
        recorded timer, if any, is cleared and a new one is scheduled with the
        configured delay and recorded. */
    method HandleCheckboxClick()
      requires Valid()
      modifies this, window
      ensures Valid()
      ensures settings == old(settings)
      ensures !settings.enableAutoReorder ==>
        reorderTimeout == old(reorderTimeout) && window.pending == old(window.pending)
      ensures settings.enableAutoReorder ==>
        && reorderTimeout.Some?
        && reorderTimeout.value !in old(window.pending)
        && window.pending == map[reorderTimeout.value := settings.reorderDelay]
    {
      if !settings.enableAutoReorder {
        return;
      }
      if IsSet(reorderTimeout) {
        window.ClearTimeout(reorderTimeout.value);
      }
      var handle := window.SetTimeout(settings.reorderDelay);
      reorderTimeout := Some(handle);
    }

    /** The click listener registered in `onload`: only a click on a checkbox element
        (one whose class list holds the checkbox class) reaches the handler. */
    method OnDocumentClick(target: Option<seq<string>>)
      requires Valid()
      modifies this, window
      ensures Valid()
      ensures settings == old(settings)
      ensures !(target.Some? && CheckboxClass in target.value && settings.enableAutoReorder) ==>
        reorderTimeout == old(reorderTimeout) && window.pending == old(window.pending)
      ensures target.Some? && CheckboxClass in target.value && settings.enableAutoReorder ==>
        && reorderTimeout.Some?
        && window.pending == map[reorderTimeout.value := settings.reorderDelay]
    {
      if target.Some? && CheckboxClass in target.value {
        HandleCheckboxClick();
      }
    }

    /** The recorded timer fires and its callback runs the pass on the active note
        (`null` when no Markdown view is active). `reorderTimeout` keeps the handle
        of the timer that has just fired. */
    method OnTimeout(handle: nat, editor: Editor?)
      requires Valid() && handle in window.pending
      modifies window, editor
      ensures Valid()
      ensures reorderTimeout == Some(handle)
      ensures window.pending == map[]
      ensures editor != null ==> editor.lines == Pass(old(editor.lines))
    {
      window.Fire(handle);
      ReorderCheckboxes(editor);
    }

    /** `onunload`: the recorded timer, if any, is cleared; the field itself is left as is. */
    method OnUnload()
      requires Valid()
      modifies window
      ensures Valid()
      ensures window.pending == map[]
    {
      if IsSet(reorderTimeout) {
        window.ClearTimeout(reorderTimeout.value);
      }
    }
  }

  /** The truthiness test on `reorderTimeout` fails only on `null`: the handles the
      window hands out are positive. */
  lemma RecordedHandleIsTruthy(p: Plugin)
    requires p.Valid()
    ensures IsSet(p.reorderTimeout) <==> p.reorderTimeout.Some?
  {
  }

  /** At most one pass is ever pending. */
  lemma AtMostOnePending(p: Plugin)
    requires p.Valid()
    ensures |p.window.pending| <= 1
    ensures p.window.pending != map[] ==> p.reorderTimeout.Some? && p.reorderTimeout.value in p.window.pending
  {
    if p.window.pending != map[] {
      var h :| h in p.window.pending;
      assert p.window.pending.Keys == {h};
      assert |p.window.pending.Keys| == 1;
    }
  }
}

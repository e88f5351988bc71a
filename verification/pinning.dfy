/**
  The editor's default-frame pin (components/Editor.tsx:33-42, 187-202) as a
  state machine over the selected frame, the pinned frame name and the value
  stored under the preference key. The editor class performs these
  transitions on its own fields and on the key-value store.
 */
module Pinning {
  import opened Wrappers
  import opened Types
  import opened Constants

  /** The preference key the pinned frame is stored under. */
  const STORAGE_KEY_DEFAULT_FRAME: string := "instafiltros_default_frame"

  /** The alert shown when the custom frame is pinned. */
  const CUSTOM_PIN_ALERT: string := "Molduras personalizadas não podem ser fixadas como padrão."

  /** The selected frame, the pinned frame's name (free text, as read back from
      storage) and the value stored under the key, if any. */
  datatype PinState = PinState(selected: FrameType, pinned: Option<string>, stored: Option<string>)

  /** The pinned and stored values agree: the pin button writes both. */
  predicate InSync(s: PinState) {
    s.pinned == s.stored
  }

  /** `togglePinFrame`: a custom frame is refused; a frame that is already
      pinned is unpinned and its key removed; any other frame is pinned and
      stored. */
  function TogglePin(s: PinState): PinState {
    if s.selected == Custom then s
    else
      var name := FrameTypeName(s.selected);
      if s.pinned == Some(name) then s.(pinned := None, stored := None)
      else s.(pinned := Some(name), stored := Some(name))
  }

  /** The custom frame is never pinned: the state, the store included, is left
      as it was. */
  lemma CustomNeverPinned(s: PinState)
    requires s.selected == Custom
    ensures TogglePin(s) == s
  {
  }

  /** A toggle never changes the selection, leaves the pinned and stored
      values in agreement, and either pins the selected frame or clears the
      pin; it clears it exactly when the selected frame was the pinned one. */
  lemma ToggleOutcome(s: PinState)
    requires s.selected != Custom
    ensures var r := TogglePin(s);
      && r.selected == s.selected
      && InSync(r)
      && (r.pinned == None || r.pinned == Some(FrameTypeName(s.selected)))
      && (r.pinned == None <==> s.pinned == Some(FrameTypeName(s.selected)))
  {
  }

  /** The pinned and stored values stay in agreement under any toggle. */
  lemma ToggleKeepsSync(s: PinState)
    requires InSync(s)
    ensures InSync(TogglePin(s))
  {
  }

  /** Two toggles on the same frame give back the state they started from
      exactly when nothing was pinned or the selected frame itself was: a pin
      on a different frame is replaced by the first toggle and then dropped. */
  lemma ToggleTwice(s: PinState)
    requires s.selected != Custom && InSync(s)
    ensures TogglePin(TogglePin(s)) == s <==>
      (s.pinned == None || s.pinned == Some(FrameTypeName(s.selected)))
  {
    var name := FrameTypeName(s.selected);
    if s.pinned != None && s.pinned != Some(name) {
      assert TogglePin(TogglePin(s)).pinned == None;
    }
  }

  /** The pin button is a toggle, not an idempotent "pin": pressing it a
      second time always undoes what the first press did to the pin. */
  lemma ToggleNotIdempotent(s: PinState)
    requires s.selected != Custom
    ensures TogglePin(TogglePin(s)).pinned != TogglePin(s).pinned
  {
  }

  /** JavaScript truthiness of a string that may be `null`: it counts only
      when present and non-empty. The mount restore tests the saved value
      this way (`if (savedFrame)`), and the custom-frame upload tests the file
      reader's result the same way. */
  predicate Truthy(v: Option<string>) {
    v.Some? && v.value != ""
  }

  /** The mount-time restore: a non-empty saved value always becomes the
      pinned frame, and becomes the selected frame only when the frame table
      lists it. The store is only read. */
  function MountRestore(saved: Option<string>, s: PinState): PinState {
    if !Truthy(saved) then s
    else if FrameListed(saved.value) then
      FrameTable();
      s.(pinned := saved, selected := ParseFrameType(saved.value).value)
    else s.(pinned := saved)
  }

  /** What the restore does: nothing without a saved value; otherwise it pins
      the saved name, and it selects the frame of that name exactly when one
      is listed, leaving the selection alone when none is. */
  lemma RestoreOutcome(saved: Option<string>, s: PinState)
    ensures var r := MountRestore(saved, s);
      && r.stored == s.stored
      && (!Truthy(saved) ==> r == s)
      && (Truthy(saved) ==> r.pinned == saved)
      && (Truthy(saved) && FrameListed(saved.value) ==> FrameTypeName(r.selected) == saved.value)
      && (Truthy(saved) && !FrameListed(saved.value) ==> r.selected == s.selected)
  {
    FrameTable();
  }

  /** A stored name that names no frame is still shown as pinned, while the
      selection stays at the mount default: the pin and the selection then
      disagree. */
  lemma UnknownNamePinnedNotSelected(v: string)
    requires v != "" && forall f: FrameType :: FrameTypeName(f) != v
    ensures var r := MountRestore(Some(v), PinState(NoFrame, None, Some(v)));
      r.pinned == Some(v) && r.selected == NoFrame && r.pinned != Some(FrameTypeName(r.selected))
  {
    FrameTable();
    assert !FrameListed(v);
  }

  /** The state a freshly mounted editor starts from, with `saved` in the store. */
  function Fresh(saved: Option<string>): PinState {
    PinState(NoFrame, None, saved)
  }

  /** A pin survives a remount: after a toggle, an editor mounted on the
      resulting store selects the pinned frame and shows it pinned; after an
      unpin it starts on no frame with nothing pinned. */
  lemma PinSurvivesRemount(s: PinState)
    requires s.selected != Custom
    ensures var t := TogglePin(s);
      var m := MountRestore(t.stored, Fresh(t.stored));
      && (t.pinned.Some? ==> m.selected == s.selected && m.pinned == t.pinned)
      && (t.pinned.None? ==> m == Fresh(None))
  {
    var t := TogglePin(s);
    FrameTable();
    if t.pinned.Some? {
      var name := FrameTypeName(s.selected);
      assert ParseFrameType(name) == Some(s.selected) by {
        NamesInjective();
      }
    }
  }
}

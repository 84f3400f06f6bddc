/** The hotkey detector the three clipboard scripts share: a set of modifier tags that key
    presses add to and key releases discard from, and a trigger that fires after any press
    that leaves the set equal to the chord. */
module Hotkey {
  import opened Wrappers

  /** The keys the listener tells apart; every other key is `OtherKey`. */
  datatype Key = CtrlL | CtrlR | ShiftL | ShiftR | CmdL | CmdR | OtherKey(code: int)

  /** The chord a script waits for: Ctrl+Shift, or Ctrl+Win (the Cmd keys). */
  datatype Chord = CtrlShift | CtrlWin

  /** The tags the scripts put in their set: the strings "ctrl", "shift" and "win". */
  datatype Tag = Ctrl | Shift | Win

  /** The tags the chord consists of. */
  function Target(c: Chord): (t: set<Tag>)
    ensures Ctrl in t && (Shift in t <==> c == CtrlShift) && (Win in t <==> c == CtrlWin)
  {
    match c
    case CtrlShift => {Ctrl, Shift}
    case CtrlWin => {Ctrl, Win}
  }

  /** The tag a key stands for under the chord's script, if any: both Ctrl keys stand for
      "ctrl"; the Shift keys stand for "shift" only in the Ctrl+Shift script and the Cmd keys for
      "win" only in the Ctrl+Win script. */
  function TagOf(c: Chord, k: Key): (r: Option<Tag>)
    ensures r.Some? ==> r.value in Target(c)
    ensures r == Some(Ctrl) <==> k == CtrlL || k == CtrlR
    ensures r == Some(Shift) <==> c == CtrlShift && (k == ShiftL || k == ShiftR)
    ensures r == Some(Win) <==> c == CtrlWin && (k == CmdL || k == CmdR)
    ensures k.OtherKey? ==> r.None?
  {
    if k == CtrlL || k == CtrlR then Some(Ctrl)
    else if c == CtrlShift && (k == ShiftL || k == ShiftR) then Some(Shift)
    else if c == CtrlWin && (k == CmdL || k == CmdR) then Some(Win)
    else None
  }

  /** on_press's update: add the key's tag. */
  function AfterPress(c: Chord, keys: set<Tag>, k: Key): (r: set<Tag>)
    ensures keys <= r
    ensures TagOf(c, k).None? ==> r == keys
    ensures TagOf(c, k).Some? ==> TagOf(c, k).value in r
    ensures forall t :: t in r <==> t in keys || TagOf(c, k) == Some(t)
  {
    match TagOf(c, k)
    case None => keys
    case Some(t) => keys + {t}
  }

  /** on_release's update: discard the key's tag (discarding an absent one does nothing). */
  function AfterRelease(c: Chord, keys: set<Tag>, k: Key): (r: set<Tag>)
    ensures r <= keys
    ensures TagOf(c, k).None? ==> r == keys
    ensures TagOf(c, k).Some? ==> TagOf(c, k).value !in r
    ensures forall t :: t in r <==> t in keys && TagOf(c, k) != Some(t)
  {
    match TagOf(c, k)
    case None => keys
    case Some(t) => keys - {t}
  }

  /** The trigger: the set equals the chord exactly. */
  predicate Fires(c: Chord, keys: set<Tag>) {
    keys == Target(c)
  }

  /** Once the chord is held, every further press (an unrelated key, or a modifier repeating)
      fires the trigger again. */
  lemma HeldChordRefires(c: Chord, k: Key)
    ensures Fires(c, AfterPress(c, Target(c), k))
  {
  }

  /** A press followed by the release of the same key restores the set when the key's tag was
      not held before. */
  lemma PressThenReleaseRestores(c: Chord, keys: set<Tag>, k: Key)
    requires TagOf(c, k).None? || TagOf(c, k).value !in keys
    ensures AfterRelease(c, AfterPress(c, keys, k), k) == keys
  {
  }

  /** Releasing a key whose tag is not held leaves the set as it is. */
  lemma ReleaseOfAbsentTagIsNoOp(c: Chord, keys: set<Tag>, k: Key)
    requires TagOf(c, k).None? || TagOf(c, k).value !in keys
    ensures AfterRelease(c, keys, k) == keys
  {
  }

  /** From an empty set, pressing a Ctrl key and then the chord's other modifier fires, in
      either order, and releasing any modifier of the chord disarms it. */
  lemma ChordFiresInEitherOrder(c: Chord, ctrl: Key, other: Key)
    requires ctrl == CtrlL || ctrl == CtrlR
    requires TagOf(c, other).Some? && TagOf(c, other).value != Ctrl
    ensures Fires(c, AfterPress(c, AfterPress(c, {}, ctrl), other))
    ensures Fires(c, AfterPress(c, AfterPress(c, {}, other), ctrl))
    ensures !Fires(c, AfterRelease(c, Target(c), ctrl)) && !Fires(c, AfterRelease(c, Target(c), other))
  {
    var t := TagOf(c, other).value;
    assert Target(c) == {Ctrl, t} by {
      if c == CtrlShift { assert t == Shift; } else { assert t == Win; }
    }
    assert AfterPress(c, {}, ctrl) == {Ctrl};
    assert AfterPress(c, {}, other) == {t};
    assert AfterPress(c, {Ctrl}, other) == Target(c);
    assert AfterPress(c, {t}, ctrl) == Target(c);
    assert AfterRelease(c, Target(c), ctrl) == {t};
    assert AfterRelease(c, Target(c), other) == {Ctrl};
  }

  datatype KeyEvent = Press(key: Key) | Release(key: Key)

  function Apply(c: Chord, keys: set<Tag>, e: KeyEvent): set<Tag> {
    match e
    case Press(k) => AfterPress(c, keys, k)
    case Release(k) => AfterRelease(c, keys, k)
  }

  /** The set after a run of key events, from a given set. */
  function Replay(c: Chord, keys: set<Tag>, events: seq<KeyEvent>): set<Tag>
    decreases |events|
  {
    if events == [] then keys else Replay(c, Apply(c, keys, events[0]), events[1..])
  }

  /** The set never holds a tag outside the chord, whatever the keys do. */
  lemma {:induction false} ReplayStaysWithinChord(c: Chord, keys: set<Tag>, events: seq<KeyEvent>)
    requires keys <= Target(c)
    ensures Replay(c, keys, events) <= Target(c)
    decreases |events|
  {
    if events != [] {
      var next := Apply(c, keys, events[0]);
      assert next <= Target(c);
      ReplayStaysWithinChord(c, next, events[1..]);
    }
  }

  /** Keys that stand for no tag of the chord never change the set, however many there are. */
  lemma {:induction false} UnrelatedKeysChangeNothing(c: Chord, keys: set<Tag>, events: seq<KeyEvent>)
    requires forall i :: 0 <= i < |events| ==> TagOf(c, events[i].key).None?
    ensures Replay(c, keys, events) == keys
    decreases |events|
  {
    if events != [] {
      assert TagOf(c, events[0].key).None?;
      assert Apply(c, keys, events[0]) == keys;
      UnrelatedKeysChangeNothing(c, keys, events[1..]);
    }
  }

  /** The listener's modifier state, changed in place by the press and release handlers. */
  class ChordListener {
    const chord: Chord
    var currentKeys: set<Tag>

    ghost predicate Valid()
      reads this
    {
      currentKeys <= Target(chord)
    }

    constructor (c: Chord)
      ensures chord == c && currentKeys == {} && Valid()
    {
      chord := c;
      currentKeys := {};
    }

    /** on_press: add the key's tag; report whether the chord is now held exactly. */
    method OnPress(k: Key) returns (fired: bool)
      requires Valid()
      modifies this
      ensures Valid()
      ensures currentKeys == AfterPress(chord, old(currentKeys), k)
      ensures fired <==> Fires(chord, currentKeys)
    {
      if k == CtrlL || k == CtrlR {
        currentKeys := currentKeys + {Ctrl};
      }
      if chord == CtrlShift && (k == ShiftL || k == ShiftR) {
        currentKeys := currentKeys + {Shift};
      }
      if chord == CtrlWin && (k == CmdL || k == CmdR) {
        currentKeys := currentKeys + {Win};
      }
      fired := currentKeys == Target(chord);
    }

    /** on_release: discard the key's tag. */
    method OnRelease(k: Key)
      requires Valid()
      modifies this
      ensures Valid()
      ensures currentKeys == AfterRelease(chord, old(currentKeys), k)
    {
      if k == CtrlL || k == CtrlR {
        currentKeys := currentKeys - {Ctrl};
      }
      if chord == CtrlShift && (k == ShiftL || k == ShiftR) {
        currentKeys := currentKeys - {Shift};
      }
      if chord == CtrlWin && (k == CmdL || k == CmdR) {
        currentKeys := currentKeys - {Win};
      }
    }
  }
}

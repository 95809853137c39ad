/** The memento demo: an editor whose text can be saved to and restored from
    snapshots, and a history that keeps the snapshots for undo. */
module Memento {
  import opened Wrappers

  /** Memento: an immutable copy of the editor's text. Go passes it as a
      pointer that may be nil; here a nil snapshot is Option's None. */
  datatype Snapshot = Snapshot(text: string) {
    /** The accessor's ensures only ties the read back to the snapshot, so
        that callers reason about restores without unfolding it; what a
        restore achieves is stated by EditAndRestore. */
    function GetText(): (t: string)
      ensures Snapshot(t) == this
    {
      text
    }
  }

  /** Originator. */
  class Editor {
    var text: string

    constructor ()
      ensures text == ""
    {
      text := "";
    }

    method SetText(t: string)
      modifies this
      ensures text == t
    {
      text := t;
    }

    method CreateSnapshot() returns (s: Snapshot)
      ensures s.GetText() == text
    {
      s := Snapshot(text);
    }

    /** Go dereferences the snapshot, so it must not be nil: the parameter is
        a Snapshot, never None. */
    method RestoreSnapshot(s: Snapshot)
      modifies this
      ensures text == s.GetText()
    {
      text := s.GetText();
    }
  }

  /** The memento round trip: a snapshot taken before an edit and restored
      after it puts the editor's text back as it was. */
  method EditAndRestore(editor: Editor, edit: string) returns (s: Snapshot)
    modifies editor
    ensures s.GetText() == old(editor.text)
    ensures editor.text == old(editor.text)
  {
    s := editor.CreateSnapshot();
    editor.SetText(edit);
    editor.RestoreSnapshot(s);
  }

  /** The outcome of History.Undo on a list of snapshots: with fewer than two
      there is nothing to go back to; otherwise the second-to-last snapshot is
      returned and only the last one is dropped. */
  function UndoResult(snapshots: seq<Snapshot>): (r: (Option<Snapshot>, seq<Snapshot>))
    ensures |snapshots| < 2 <==> r.0.None?
    ensures |snapshots| < 2 ==> r.1 == snapshots
    ensures |snapshots| >= 2 ==> r.0 == Some(snapshots[|snapshots| - 2])
    ensures |snapshots| >= 2 ==> r.1 + [snapshots[|snapshots| - 1]] == snapshots
  {
    if |snapshots| < 2 then (None, snapshots)
    else (Some(snapshots[|snapshots| - 2]), snapshots[..|snapshots| - 1])
  }

  /** After an undo that returned a snapshot, that snapshot is the newest one
      left, so restoring it puts the editor back to the last saved state
      before the one undone. */
  lemma UndoReturnsNewestRemaining(snapshots: seq<Snapshot>)
    requires UndoResult(snapshots).0.Some?
    ensures var (s, rest) := UndoResult(snapshots); |rest| > 0 && rest[|rest| - 1] == s.value
  {
  }

  /** Caretaker. */
  class History {
    var snapshots: seq<Snapshot>

    constructor ()
      ensures snapshots == []
    {
      snapshots := [];
    }

    method AddSnapshot(s: Snapshot)
      modifies this
      ensures snapshots == old(snapshots) + [s]
    {
      snapshots := snapshots + [s];
    }

    method Undo() returns (r: Option<Snapshot>)
      modifies this
      ensures (r, snapshots) == UndoResult(old(snapshots))
    {
      var length := |snapshots|;
      if length < 2 {
        return None;
      }
      var lastSnapshot := snapshots[length - 2];
      snapshots := snapshots[..length - 1];
      return Some(lastSnapshot);
    }
  }

  /** The demo: three snapshots, then undos give "Second line.", then
      "First line.", then nil, which leaves the text alone. */
  method Demo() returns (undo1: string, undo2: string, undo3: string)
    ensures undo1 == "Second line." && undo2 == "First line." && undo3 == "First line."
  {
    var editor := new Editor();
    var history := new History();
    editor.SetText("First line.");
    var s := editor.CreateSnapshot();
    history.AddSnapshot(s);
    editor.SetText("Second line.");
    s := editor.CreateSnapshot();
    history.AddSnapshot(s);
    editor.SetText("Third line.");
    s := editor.CreateSnapshot();
    history.AddSnapshot(s);

    var u := history.Undo();
    editor.RestoreSnapshot(u.value);
    undo1 := editor.text;
    u := history.Undo();
    editor.RestoreSnapshot(u.value);
    undo2 := editor.text;
    u := history.Undo();
    // The demo restores only a non-nil snapshot, and this one is nil.
    assert u.None?;
    undo3 := editor.text;
  }
}

/**
 * The undo/redo history of the design engine: a list of entries and a cursor
 * (`history`, `currentIndex`). A commit truncates everything after the cursor
 * and appends; undo and redo move the cursor by one and are no-ops at the
 * boundaries. The entries themselves are opaque here.
 */
module History {

  datatype Buffer<T> = Buffer(entries: seq<T>, cursor: int)
  {
    /** `-1 <= currentIndex <= history.length - 1` */
    predicate Valid()
    {
      -1 <= cursor <= |entries| - 1
    }

    /** Valid, and the cursor is -1 only for the empty history (as after a reset). */
    predicate WellFormed()
    {
      Valid() && (cursor == -1 ==> entries == [])
    }

    /** The cursor points at the newest entry: no redo-able future. */
    predicate AtTop()
    {
      cursor == |entries| - 1
    }
  }

  /** The history of the initial and of a reset state. */
  function Empty<T>(): Buffer<T>
  {
    Buffer([], -1)
  }

  /** JavaScript `h.slice(0, end)`: a negative end counts from the back, an end
      past the length is clipped. */
  function SliceTo<T>(h: seq<T>, end: int): (r: seq<T>)
    ensures |r| <= |h| && r == h[..|r|]
    ensures 0 <= end <= |h| ==> r == h[..end]
    ensures end < 0 ==> |r| == if |h| + end < 0 then 0 else |h| + end
    ensures end > |h| ==> r == h
  {
    if end < 0 then h[..(if |h| + end < 0 then 0 else |h| + end)]
    else if end > |h| then h
    else h[..end]
  }

  /** The cursor arithmetic of `addToHistory`: keep `history.slice(0, currentIndex + 1)`,
      append the new entry, and move the cursor to the length of what was kept. */
  function Commit<T>(b: Buffer<T>, e: T): (r: Buffer<T>)
    ensures b.Valid() ==> r.entries == b.entries[..b.cursor + 1] + [e]
    ensures b.Valid() ==> r.cursor == b.cursor + 1 && r.AtTop() && r.WellFormed()
  {
    var kept := SliceTo(b.entries, b.cursor + 1);
    Buffer(kept + [e], |kept|)
  }

  /** The inline push of `SET_MESSAGE_SCALE`: the same truncation, but the
      cursor becomes `currentIndex + 1` rather than the length kept. */
  function PushInline<T>(b: Buffer<T>, e: T): (r: Buffer<T>)
    ensures b.Valid() ==> r == Commit(b, e)
  {
    Buffer(SliceTo(b.entries, b.cursor + 1) + [e], b.cursor + 1)
  }

  /** Off the invariant the two cursor expressions differ: from any cursor
      below -1 both keep the same entries, but the commit's cursor is the
      length kept (never negative) while the inline push's stays negative.
      From -2 the inline push lands on -1 over a non-empty history (valid
      but not well formed); from below -2 it leaves the cursor invalid. */
  lemma PushInlineOffBelow<T>(b: Buffer<T>, e: T)
    requires b.cursor < -1
    ensures PushInline(b, e).entries == Commit(b, e).entries
    ensures PushInline(b, e).cursor == b.cursor + 1 < 0 <= Commit(b, e).cursor
    ensures b.cursor == -2 ==> PushInline(b, e).Valid() && !PushInline(b, e).WellFormed()
    ensures b.cursor < -2 ==> !PushInline(b, e).Valid()
  {
  }

  /** The guard and cursor step of `UNDO`: the entries stay and the cursor
      either stays or moves back by one, never below 0 when it moves. */
  function Undo<T>(b: Buffer<T>): (r: Buffer<T>)
    ensures r.entries == b.entries
    ensures r == b || (r.cursor == b.cursor - 1 && r.cursor >= 0)
  {
    if |b.entries| == 0 || b.cursor <= 0 then b else b.(cursor := b.cursor - 1)
  }

  /** The guard and cursor step of `REDO`: the entries stay and the cursor
      either stays or moves forward by one, never past the newest entry. */
  function Redo<T>(b: Buffer<T>): (r: Buffer<T>)
    ensures r.entries == b.entries
    ensures r == b || (r.cursor == b.cursor + 1 && r.cursor <= |b.entries| - 1)
  {
    if |b.entries| == 0 || b.cursor >= |b.entries| - 1 then b else b.(cursor := b.cursor + 1)
  }

  /** The toolbar flag `canUndo`: when valid, raised only when there is an
      entry before the cursor. */
  predicate CanUndo<T>(b: Buffer<T>): (r: bool)
    ensures r && b.Valid() ==> 0 <= b.cursor - 1 < |b.entries| - 1
  {
    b.cursor > 0
  }

  /** The toolbar flag `canRedo`: when valid, raised only when there is an
      entry after the cursor. */
  predicate CanRedo<T>(b: Buffer<T>): (r: bool)
    ensures r && b.Valid() ==> 0 <= b.cursor + 1 < |b.entries|
  {
    b.cursor < |b.entries| - 1
  }

  /** `UNDO` is a no-op exactly on an empty history or at index 0 or below;
      otherwise it moves the cursor back by one and keeps the entries. */
  lemma UndoSpec<T>(b: Buffer<T>)
    ensures |b.entries| == 0 || b.cursor <= 0 ==> Undo(b) == b
    ensures |b.entries| > 0 && b.cursor > 0 ==> Undo(b).entries == b.entries && Undo(b).cursor == b.cursor - 1
    ensures b.Valid() ==> Undo(b).Valid()
    ensures b.WellFormed() ==> Undo(b).WellFormed()
  {
  }

  /** `REDO` is a no-op exactly at or past the newest entry; otherwise it
      moves the cursor forward by one and keeps the entries. */
  lemma RedoSpec<T>(b: Buffer<T>)
    ensures |b.entries| == 0 || b.cursor >= |b.entries| - 1 ==> Redo(b) == b
    ensures |b.entries| > 0 && b.cursor < |b.entries| - 1 ==> Redo(b).entries == b.entries && Redo(b).cursor == b.cursor + 1
    ensures b.Valid() ==> Redo(b).Valid()
    ensures b.WellFormed() ==> Redo(b).WellFormed()
  {
  }

  /** On a valid history the toolbar flags coincide with the reducer's guards:
      the button is enabled exactly when the action would move the cursor. */
  lemma FlagsMatchGuards<T>(b: Buffer<T>)
    requires b.Valid()
    ensures CanUndo(b) <==> Undo(b) != b
    ensures CanRedo(b) <==> Redo(b) != b
  {
  }

  /** Without the invariant the redo flag can be raised while `REDO` does nothing. */
  lemma FlagsDisagreeOffInvariant<T>()
    ensures var b: Buffer<T> := Buffer([], -2); CanRedo(b) && Redo(b) == b
  {
  }

  /** A commit after an undo destroys the redo future: the history is cut
      back to the entries up to the new cursor before the new entry goes on. */
  lemma CommitAfterUndo<T>(b: Buffer<T>, c: T)
    requires b.Valid() && CanUndo(b)
    ensures Commit(Undo(b), c) == Buffer(b.entries[..b.cursor] + [c], b.cursor)
  {
  }

  /** Commit A, commit B, undo, commit C from an empty history: `[A, C]` with
      the cursor at 1; B is discarded, not retained. */
  lemma BranchDiscardsRedo<T>(a: T, b: T, c: T)
    ensures Commit(Undo(Commit(Commit(Empty(), a), b)), c) == Buffer([a, c], 1)
  {
  }

  /** Committing each entry of `es` in turn. */
  function CommitAll<T>(b: Buffer<T>, es: seq<T>): Buffer<T>
    decreases |es|
  {
    if es == [] then b else CommitAll(Commit(b, es[0]), es[1..])
  }

  /** From a history with no redo-able future, N commits append exactly the N
      entries and leave the cursor on the newest one; from an empty history
      the cursor ends at N - 1 and the length is N. */
  lemma {:induction false} CommitAllAppends<T>(b: Buffer<T>, es: seq<T>)
    requires b.Valid() && b.AtTop()
    ensures CommitAll(b, es) == Buffer(b.entries + es, |b.entries| + |es| - 1)
    decreases |es|
  {
    if es != [] {
      var b' := Commit(b, es[0]);
      assert b'.entries == b.entries + [es[0]];
      CommitAllAppends(b', es[1..]);
      assert b.entries + [es[0]] + es[1..] == b.entries + es;
    }
  }

  /** `k` undos, and `k` redos. */
  function UndoTimes<T>(b: Buffer<T>, k: nat): Buffer<T>
    decreases k
  {
    if k == 0 then b else UndoTimes(Undo(b), k - 1)
  }

  function RedoTimes<T>(b: Buffer<T>, k: nat): Buffer<T>
    decreases k
  {
    if k == 0 then b else RedoTimes(Redo(b), k - 1)
  }

  lemma {:induction false} UndoTimesMovesCursor<T>(b: Buffer<T>, k: nat)
    requires b.Valid() && k <= b.cursor
    ensures UndoTimes(b, k) == b.(cursor := b.cursor - k)
    decreases k
  {
    if k > 0 {
      UndoTimesMovesCursor(Undo(b), k - 1);
    }
  }

  lemma {:induction false} RedoTimesMovesCursor<T>(b: Buffer<T>, k: nat)
    requires b.Valid() && b.cursor + k <= |b.entries| - 1
    ensures RedoTimes(b, k) == b.(cursor := b.cursor + k)
    decreases k
  {
    if k > 0 {
      RedoTimesMovesCursor(Redo(b), k - 1);
    }
  }

  /** Undo and redo are inverses on the cursor: `k` undos followed by `k`
      redos, with `k` at most the cursor, restore the history exactly. */
  lemma UndoRedoRoundTrip<T>(b: Buffer<T>, k: nat)
    requires b.Valid() && k <= b.cursor
    ensures RedoTimes(UndoTimes(b, k), k) == b
  {
    UndoTimesMovesCursor(b, k);
    RedoTimesMovesCursor(b.(cursor := b.cursor - k), k);
  }
}

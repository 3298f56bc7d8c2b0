/**
 * The edit history as a value: the undo stack `done` (oldest entry first,
 * its top is the last element) and the redo stack `undone` (its top is the
 * last element too).  The session keeps the two stacks in its fields and
 * updates them exactly as the functions here do.
 *
 * A history is equivalently a timeline with a cursor: `Timeline()` lists
 * every entry that is drawn, then every entry redo would bring back, in the
 * order redo brings them back; the cursor is `|done|`.  Undo and redo only
 * move the cursor; commit and clear cut the timeline.
 */
module EditHistory {

  datatype History<T> = History(done: seq<T>, undone: seq<T>)
  {
    /** Undo: moves the top of the undo stack onto the redo stack. */
    function Undo(): (h: History<T>)
      ensures done == [] ==> h == this
      ensures done != [] ==>
        |h.done| == |done| - 1 && |h.undone| == |undone| + 1 &&
        h.undone[|undone|] == done[|done| - 1] &&
        h.done == done[..|done| - 1] && h.undone[..|undone|] == undone
      ensures multiset(h.done + h.undone) == multiset(done + undone)
    {
      if done == [] then this
      else
        var top := done[|done| - 1];
        assert done == done[..|done| - 1] + [top];
        History(done[..|done| - 1], undone + [top])
    }

    /** Redo: moves the top of the redo stack back onto the undo stack. */
    function Redo(): (h: History<T>)
      ensures undone == [] ==> h == this
      ensures undone != [] ==>
        |h.done| == |done| + 1 && |h.undone| == |undone| - 1 &&
        h.done[|done|] == undone[|undone| - 1] &&
        h.undone == undone[..|undone| - 1] && h.done[..|done|] == done
      ensures multiset(h.done + h.undone) == multiset(done + undone)
    {
      if undone == [] then this
      else
        var top := undone[|undone| - 1];
        assert undone == undone[..|undone| - 1] + [top];
        History(done + [top], undone[..|undone| - 1])
    }

    /** Commit: pushes a new entry and discards everything redo could bring back. */
    function Commit(d: T): (h: History<T>)
      ensures h.undone == []
      ensures |h.done| == |done| + 1 && h.done[..|done|] == done && h.done[|done|] == d
    {
      History(done + [d], [])
    }

    /** Clear: discards both stacks. */
    function Clear(): (h: History<T>)
      ensures h.done == [] && h.undone == []
    {
      History([], [])
    }

    /** Every entry drawn, then every entry redo would bring back, in redo order. */
    function Timeline(): seq<T>
    {
      done + Reversed(undone)
    }
  }

  /** `s` back to front: the order in which popping `s` yields its elements. */
  function Reversed<T>(s: seq<T>): seq<T>
  {
    if s == [] then [] else [s[|s| - 1]] + Reversed(s[..|s| - 1])
  }

  lemma {:induction false} ReversedCons<T>(a: T, s: seq<T>)
    ensures Reversed([a] + s) == Reversed(s) + [a]
  {
    if s != [] {
      calc {
        Reversed([a] + s);
        { assert ([a] + s)[..|s|] == [a] + s[..|s| - 1]; }
        [s[|s| - 1]] + Reversed([a] + s[..|s| - 1]);
        { ReversedCons(a, s[..|s| - 1]); }
        [s[|s| - 1]] + Reversed(s[..|s| - 1]) + [a];
      }
    } else {
      assert [a] + s == [a];
    }
  }

  lemma {:induction false} ReversedReversed<T>(s: seq<T>)
    ensures Reversed(Reversed(s)) == s
  {
    if s != [] {
      var init, last := s[..|s| - 1], s[|s| - 1];
      calc {
        Reversed(Reversed(s));
        Reversed([last] + Reversed(init));
        { ReversedCons(last, Reversed(init)); }
        Reversed(Reversed(init)) + [last];
        { ReversedReversed(init); }
        init + [last];
        s;
      }
    }
  }

  /** The history whose timeline is `t` and whose first `c` entries are drawn. */
  function Seek<T>(t: seq<T>, c: nat): (h: History<T>)
    requires c <= |t|
    ensures h.Timeline() == t && |h.done| == c
  {
    ReversedReversed(t[c..]);
    assert t == t[..c] + t[c..];
    History(t[..c], Reversed(t[c..]))
  }

  /** Every history is its timeline with the cursor after the drawn entries. */
  lemma {:induction false} HistoryIsSeek<T>(h: History<T>)
    ensures h == Seek(h.Timeline(), |h.done|)
  {
    var t := h.Timeline();
    assert t[..|h.done|] == h.done;
    assert t[|h.done|..] == Reversed(h.undone);
    ReversedReversed(h.undone);
  }

  /** Undo moves the cursor one entry back. */
  lemma {:induction false} UndoSeek<T>(t: seq<T>, c: nat)
    requires 0 < c <= |t|
    ensures Seek(t, c).Undo() == Seek(t, c - 1)
  {
    assert t[..c][..c - 1] == t[..c - 1];
    assert t[c - 1..] == [t[c - 1]] + t[c..];
    ReversedCons(t[c - 1], t[c..]);
  }

  /** Redo moves the cursor one entry forward. */
  lemma {:induction false} RedoSeek<T>(t: seq<T>, c: nat)
    requires c < |t|
    ensures Seek(t, c).Redo() == Seek(t, c + 1)
  {
    assert t[c..] == [t[c]] + t[c + 1..];
    ReversedCons(t[c], t[c + 1..]);
    assert t[..c + 1] == t[..c] + [t[c]];
  }

  /** Undo never changes the timeline; it moves the cursor back unless it is at the start. */
  lemma {:induction false} UndoKeepsTimeline<T>(h: History<T>)
    ensures h.Undo().Timeline() == h.Timeline()
    ensures |h.Undo().done| == if h.done == [] then 0 else |h.done| - 1
  {
    if h.done != [] {
      HistoryIsSeek(h);
      UndoSeek(h.Timeline(), |h.done|);
    }
  }

  /** Redo never changes the timeline; it moves the cursor forward unless it is at the end. */
  lemma {:induction false} RedoKeepsTimeline<T>(h: History<T>)
    ensures h.Redo().Timeline() == h.Timeline()
    ensures |h.Redo().done| == if h.undone == [] then |h.done| else |h.done| + 1
  {
    if h.undone != [] {
      HistoryIsSeek(h);
      RedoSeek(h.Timeline(), |h.done|);
    }
  }

  /** Undo followed immediately by redo restores both stacks exactly. */
  lemma {:induction false} UndoThenRedo<T>(h: History<T>)
    requires h.done != []
    ensures h.Undo().Redo() == h
  {
    HistoryIsSeek(h);
    var t, c := h.Timeline(), |h.done|;
    UndoSeek(t, c);
    RedoSeek(t, c - 1);
  }

  /** Redo followed immediately by undo restores both stacks exactly. */
  lemma {:induction false} RedoThenUndo<T>(h: History<T>)
    requires h.undone != []
    ensures h.Redo().Undo() == h
  {
    HistoryIsSeek(h);
    var t, c := h.Timeline(), |h.done|;
    RedoSeek(t, c);
    UndoSeek(t, c + 1);
  }

  /** The history after `k` consecutive undos. */
  function UndoTimes<T>(h: History<T>, k: nat): History<T>
    decreases k
  {
    if k == 0 then h else UndoTimes(h.Undo(), k - 1)
  }

  /** The history after `k` consecutive redos. */
  function RedoTimes<T>(h: History<T>, k: nat): History<T>
    decreases k
  {
    if k == 0 then h else RedoTimes(h.Redo(), k - 1)
  }

  lemma {:induction false} UndoTimesSeek<T>(t: seq<T>, c: nat, k: nat)
    requires k <= c <= |t|
    ensures UndoTimes(Seek(t, c), k) == Seek(t, c - k)
  {
    if k > 0 {
      UndoSeek(t, c);
      UndoTimesSeek(t, c - 1, k - 1);
    }
  }

  lemma {:induction false} RedoTimesSeek<T>(t: seq<T>, c: nat, k: nat)
    requires c + k <= |t|
    ensures RedoTimes(Seek(t, c), k) == Seek(t, c + k)
    decreases k
  {
    if k > 0 {
      RedoSeek(t, c);
      RedoTimesSeek(t, c + 1, k - 1);
    }
  }

  /** Any run of k undos followed by k redos restores both stacks exactly. */
  lemma {:induction false} UndosThenRedos<T>(h: History<T>, k: nat)
    requires k <= |h.done|
    ensures RedoTimes(UndoTimes(h, k), k) == h
  {
    var t, c := h.Timeline(), |h.done|;
    HistoryIsSeek(h);
    UndoTimesSeek(t, c, k);
    RedoTimesSeek(t, c - k, k);
  }

  /**
   * A commit cuts the timeline at the cursor: whatever undos came before,
   * nothing is left to redo, however many redos follow.
   */
  lemma {:induction false} CommitDiscardsRedo<T>(h: History<T>, d: T, k: nat)
    ensures h.Commit(d).Timeline() == h.done + [d]
    ensures RedoTimes(h.Commit(d), k) == h.Commit(d)
  {
    if k > 0 {
      CommitDiscardsRedo(h, d, k - 1);
    }
  }

  /**
   * Drawing after k undos discards the undone entries for good: the timeline
   * becomes the first |done| - k entries of the old one, then the new entry.
   */
  lemma {:induction false} CommitAfterUndos<T>(h: History<T>, d: T, k: nat)
    requires k <= |h.done|
    ensures UndoTimes(h, k).Commit(d).Timeline() == h.Timeline()[..|h.done| - k] + [d]
    ensures UndoTimes(h, k).Commit(d).undone == []
  {
    HistoryIsSeek(h);
    UndoTimesSeek(h.Timeline(), |h.done|, k);
  }

  /** An undo or a redo changes the history exactly when its stack is non-empty. */
  lemma {:induction false} NoOpIffEmpty<T>(h: History<T>)
    ensures h.Undo() == h <==> h.done == []
    ensures h.Redo() == h <==> h.undone == []
  {
    if h.done != [] {
      assert |h.Undo().done| != |h.done|;
    }
    if h.undone != [] {
      assert |h.Redo().done| != |h.done|;
    }
  }

  /** No entry occurs twice in `s`: each entry is absent from the entries before it. */
  ghost predicate NoDuplicates<T>(s: seq<T>)
    decreases |s|
  {
    s == [] || (s[|s| - 1] !in s[..|s| - 1] && NoDuplicates(s[..|s| - 1]))
  }

  /** The same property, counted: every entry of a duplicate-free sequence occurs exactly once. */
  lemma {:induction false} NoDuplicatesCounted<T>(s: seq<T>)
    ensures NoDuplicates(s) <==> forall x | x in s :: multiset(s)[x] == 1
  {
    if s != [] {
      var p, l := s[..|s| - 1], s[|s| - 1];
      assert s == p + [l];
      assert multiset(s) == multiset(p) + multiset{l};
      NoDuplicatesCounted(p);
      if NoDuplicates(s) {
        forall x | x in s
          ensures multiset(s)[x] == 1
        {
          if x != l {
            assert x in p;
          }
        }
      }
      if forall x | x in s :: multiset(s)[x] == 1 {
        assert multiset(s)[l] == 1;
        assert l !in p;
        forall x | x in p
          ensures multiset(p)[x] == 1
        {
          assert x in s;
        }
      }
    }
  }

  lemma NoDuplicatesAt<T>(s: seq<T>, i: nat, j: nat)
    requires NoDuplicates(s) && i < j < |s|
    ensures s[i] != s[j]
  {
    NoDuplicatesCounted(s);
    assert s == s[..j] + [s[j]] + s[j + 1..];
    assert s[..j][i] == s[i];
    assert multiset(s)[s[j]] >= multiset(s[..j])[s[j]] + 1;
  }

  /** Rearranging a sequence never creates a duplicate. */
  lemma NoDuplicatesPermutation<T>(s: seq<T>, t: seq<T>)
    requires NoDuplicates(s) && multiset(s) == multiset(t)
    ensures NoDuplicates(t)
  {
    NoDuplicatesCounted(s);
    NoDuplicatesCounted(t);
    forall x | x in t
      ensures multiset(t)[x] == 1
    {
      assert x in multiset(s);
    }
  }

  /** A prefix of a duplicate-free sequence is duplicate-free. */
  lemma {:induction false} NoDuplicatesPrefix<T>(s: seq<T>, rest: seq<T>)
    requires NoDuplicates(s + rest)
    ensures NoDuplicates(s)
    decreases |rest|
  {
    if rest != [] {
      var r := rest[..|rest| - 1];
      assert (s + rest)[..|s + rest| - 1] == s + r;
      NoDuplicatesPrefix(s, r);
    } else {
      assert s + rest == s;
    }
  }
}

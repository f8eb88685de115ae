/**
 * The multi-select selection of ImageTileAdapter as values: the ordered list
 * of selected images and the tap that toggles one image in or out of it.
 */
module Selection {

  /** No image is selected twice. */
  ghost predicate NoDuplicates<T>(s: seq<T>)
  {
    forall i, j :: 0 <= i < j < |s| ==> s[i] != s[j]
  }

  /** ArrayList.remove(Object): drops the first occurrence of x, if any. */
  function RemoveFirst<T(==)>(s: seq<T>, x: T): (r: seq<T>)
    ensures x !in s ==> r == s
    ensures |r| == if x in s then |s| - 1 else |s|
    ensures multiset(r) == multiset(s) - multiset{x}
  {
    if |s| == 0 then s
    else if s[0] == x then
      assert s == [s[0]] + s[1..];
      s[1..]
    else
      assert s == [s[0]] + s[1..];
      [s[0]] + RemoveFirst(s[1..], x)
  }

  /** Removal deletes exactly the first occurrence and keeps everything else in order. */
  lemma {:induction false} RemoveFirstOccurrence<T>(a: seq<T>, x: T, b: seq<T>)
    requires x !in a
    ensures RemoveFirst(a + [x] + b, x) == a + b
  {
    var s := a + [x] + b;
    if a == [] {
      assert s[0] == x && s[1..] == b;
    } else {
      calc {
        RemoveFirst(s, x);
      == { assert s[0] == a[0] && a[0] != x; }
        [a[0]] + RemoveFirst(s[1..], x);
      == { assert s[1..] == a[1..] + [x] + b; RemoveFirstOccurrence(a[1..], x, b); }
        [a[0]] + (a[1..] + b);
      == { assert a == [a[0]] + a[1..]; }
        a + b;
      }
    }
  }

  lemma NoDuplicatesTail<T>(s: seq<T>)
    requires NoDuplicates(s) && |s| > 0
    ensures NoDuplicates(s[1..]) && s[0] !in s[1..]
  {
    var tail := s[1..];
    forall i, j | 0 <= i < j < |tail| ensures tail[i] != tail[j] {
      assert tail[i] == s[i + 1] && tail[j] == s[j + 1];
    }
    forall k | 0 <= k < |tail| ensures tail[k] != s[0] {
      assert tail[k] == s[k + 1];
    }
  }

  lemma NoDuplicatesCons<T>(h: T, t: seq<T>)
    requires NoDuplicates(t) && h !in t
    ensures NoDuplicates([h] + t)
  {
    var r := [h] + t;
    forall i, j | 0 <= i < j < |r| ensures r[i] != r[j] {
      assert r[j] == t[j - 1];
      if i > 0 {
        assert r[i] == t[i - 1];
      }
    }
  }

  /** Removing from a list without duplicates leaves a list without duplicates. */
  lemma {:induction false} RemoveFirstKeepsNoDuplicates<T>(s: seq<T>, x: T)
    requires NoDuplicates(s)
    ensures NoDuplicates(RemoveFirst(s, x))
  {
    if |s| > 0 {
      NoDuplicatesTail(s);
      if s[0] != x {
        var r := RemoveFirst(s[1..], x);
        RemoveFirstKeepsNoDuplicates(s[1..], x);
        assert s[0] !in r by {
          assert multiset(s[1..])[s[0]] == 0;
          assert multiset(r)[s[0]] == 0;
        }
        NoDuplicatesCons(s[0], r);
      }
    }
  }

  /** What a tap on an image tile does in multi-select mode. */
  datatype Outcome = Deselected | Selected | OverSelected

  /**
   * A selected image is deselected; otherwise the tap is rejected when the
   * selection size EQUALS the maximum, and accepted in every other case.
   */
  function ToggleOutcome<T(==)>(selected: seq<T>, maximum: int, item: T): (r: Outcome)
    ensures r == Deselected <==> item in selected
    ensures r == OverSelected <==> item !in selected && |selected| == maximum
    ensures |selected| < maximum || |selected| > maximum ==> r != OverSelected
  {
    if item in selected then Deselected
    else if |selected| == maximum then OverSelected
    else Selected
  }

  /** The selection after a tap on `item`. */
  function Toggle<T(==)>(selected: seq<T>, maximum: int, item: T): (r: seq<T>)
    ensures ToggleOutcome(selected, maximum, item) == Deselected ==>
              |r| == |selected| - 1 && multiset(r) == multiset(selected) - multiset{item}
    ensures ToggleOutcome(selected, maximum, item) == Selected ==> r == selected + [item]
    ensures ToggleOutcome(selected, maximum, item) == OverSelected ==> r == selected
  {
    match ToggleOutcome(selected, maximum, item)
    case Deselected => RemoveFirst(selected, item)
    case OverSelected => selected
    case Selected => selected + [item]
  }

  /** Taps never introduce a duplicate into a duplicate-free selection. */
  lemma ToggleKeepsNoDuplicates<T>(selected: seq<T>, maximum: int, item: T)
    requires NoDuplicates(selected)
    ensures NoDuplicates(Toggle(selected, maximum, item))
  {
    match ToggleOutcome(selected, maximum, item)
    case Deselected => RemoveFirstKeepsNoDuplicates(selected, item);
    case OverSelected =>
    case Selected =>
      var r := selected + [item];
      forall i, j | 0 <= i < j < |r| ensures r[i] != r[j] {
        if j == |selected| {
          assert r[i] == selected[i];
        } else {
          assert r[i] == selected[i] && r[j] == selected[j];
        }
      }
  }

  /** Taps never take a selection that respects the maximum beyond it. */
  lemma ToggleKeepsBound<T>(selected: seq<T>, maximum: int, item: T)
    requires |selected| <= maximum
    ensures |Toggle(selected, maximum, item)| <= maximum
  {
  }

  /**
   * On a duplicate-free selection a tap acts as a set toggle: the tapped image
   * is selected afterwards exactly when the tap selected it, and every other
   * image keeps its membership.
   */
  lemma ToggleMembership<T>(selected: seq<T>, maximum: int, item: T, other: T)
    requires NoDuplicates(selected)
    ensures item in Toggle(selected, maximum, item) <==>
              (item !in selected && ToggleOutcome(selected, maximum, item) == Selected)
    ensures other != item ==> (other in Toggle(selected, maximum, item) <==> other in selected)
  {
    if item in selected {
      var before, after := SplitAtOnly(selected, item);
      RemoveFirstOccurrence(before, item, after);
      var r := Toggle(selected, maximum, item);
      assert r == before + after;
      assert item !in r;
      assert other != item ==> (other in selected <==> other in before || other in after);
    }
  }

  /** A duplicate-free selection holding `item` is split around its only copy. */
  lemma SplitAtOnly<T>(selected: seq<T>, item: T) returns (before: seq<T>, after: seq<T>)
    requires NoDuplicates(selected) && item in selected
    ensures selected == before + [item] + after
    ensures item !in before && item !in after
  {
    var k :| 0 <= k < |selected| && selected[k] == item;
    before, after := selected[..k], selected[k + 1..];
    assert selected == before + [item] + after;
    assert item !in before by {
      forall m | 0 <= m < k ensures before[m] != item {
        assert before[m] == selected[m];
      }
    }
    assert item !in after by {
      forall m | 0 <= m < |after| ensures after[m] != item {
        assert after[m] == selected[k + 1 + m];
      }
    }
  }

  /**
   * Tapping the same image twice: from an unselected image the selection comes
   * back exactly; from a selected one it comes back as a multiset (the image
   * is re-appended at the end).
   */
  lemma ToggleTwice<T>(selected: seq<T>, maximum: int, item: T)
    requires NoDuplicates(selected) && |selected| <= maximum
    ensures multiset(Toggle(Toggle(selected, maximum, item), maximum, item)) == multiset(selected)
    ensures item !in selected ==> Toggle(Toggle(selected, maximum, item), maximum, item) == selected
  {
    var once := Toggle(selected, maximum, item);
    if item in selected {
      ToggleMembership(selected, maximum, item, item);
      assert item !in once;
      assert ToggleOutcome(once, maximum, item) == Selected;
    } else {
      ToggleTwiceFromUnselected(selected, maximum, item);
    }
  }

  /** From an unselected image, two taps restore any selection under any maximum. */
  lemma ToggleTwiceFromUnselected<T>(selected: seq<T>, maximum: int, item: T)
    requires item !in selected
    ensures Toggle(Toggle(selected, maximum, item), maximum, item) == selected
  {
    if |selected| != maximum {
      RemoveFirstOccurrence(selected, item, []);
      assert selected + [item] + [] == Toggle(selected, maximum, item);
    }
  }

  /**
   * The bound is checked with equality only: a selection already larger than
   * the maximum (a restored one, or any selection under a negative maximum)
   * keeps accepting new images.
   */
  lemma OversizedSelectionKeepsGrowing<T>(selected: seq<T>, maximum: int, item: T)
    requires |selected| > maximum && item !in selected
    ensures Toggle(selected, maximum, item) == selected + [item]
    ensures |Toggle(selected, maximum, item)| > maximum
  {
  }

  /**
   * A restored selection above the maximum is not restored by two taps on a
   * selected image: the first tap brings it down to the maximum, and the
   * second is then rejected.
   */
  lemma OversizedSelectionLosesDoubleTap<T>(a: T, b: T)
    requires a != b
    ensures Toggle([a, b], 1, a) == [b]
    ensures Toggle(Toggle([a, b], 1, a), 1, a) == [b]
  {
    RemoveFirstOccurrence([], a, [b]);
    assert [] + [a] + [b] == [a, b];
  }

  /** With a maximum of 0 the empty selection rejects every tap. */
  lemma ZeroMaximumRejectsEveryAdd<T>(item: T)
    ensures ToggleOutcome([], 0, item) == OverSelected
    ensures Toggle([], 0, item) == []
  {
  }

  /** Maximum 2 over images a, b, c: select a, select b, c is rejected, deselect a. */
  lemma MaximumTwoScenario<T>(a: T, b: T, c: T)
    requires a != b && b != c && a != c
    ensures Toggle([], 2, a) == [a]
    ensures Toggle([a], 2, b) == [a, b]
    ensures ToggleOutcome([a, b], 2, c) == OverSelected && Toggle([a, b], 2, c) == [a, b]
    ensures Toggle([a, b], 2, a) == [b]
  {
  }
}

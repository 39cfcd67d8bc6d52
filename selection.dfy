/**
 * The selection: the ordered list of marker ids the user picked by clicking
 * (`selectedTitiks`), and the two list transforms the component applies to
 * it: dropping an id (on delete) and toggling an id (on a click).
 */
module Selection {
  import opened Sequences

  /** `prev.filter(tid => tid !== id)`: the selection with every `id` removed. */
  function Without(s: seq<int>, id: int): (r: seq<int>)
    ensures id !in r
    ensures forall x :: x != id ==> (x in r <==> x in s)
    ensures |r| <= |s|
    ensures NoDup(s) ==> NoDup(r)
    ensures id !in s ==> r == s
  {
    var r := Filter(s, x => x != id);
    assert id !in s ==> r == s by {
      if id !in s { FilterKeepsAll(s, x => x != id); }
    }
    r
  }

  /**
   * `toggleSelectTitik`: an id that is selected is removed, one that is not
   * is appended at the end.
   */
  function Toggle(s: seq<int>, id: int): (r: seq<int>)
    ensures id in r <==> id !in s
    ensures forall x :: x != id ==> (x in r <==> x in s)
    ensures id !in s ==> r == s + [id]
    ensures NoDup(s) ==> NoDup(r)
  {
    if id in s then Without(s, id) else s + [id]
  }

  /** Dropping an id keeps the relative order of the rest of the selection. */
  lemma WithoutConcat(a: seq<int>, b: seq<int>, id: int)
    ensures Without(a + b, id) == Without(a, id) + Without(b, id)
  {
    FilterConcat(a, b, x => x != id);
  }

  /**
   * In a duplicate-free selection, dropping the id at position `k` yields
   * exactly the ids before and after it, in their order.
   */
  lemma WithoutAt(s: seq<int>, k: nat)
    requires NoDup(s) && k < |s|
    ensures Without(s, s[k]) == s[..k] + s[k + 1..]
  {
    var id := s[k];
    assert s == s[..k] + ([id] + s[k + 1..]);
    WithoutConcat(s[..k], [id] + s[k + 1..], id);
    WithoutConcat([id], s[k + 1..], id);
    assert id !in s[..k] && id !in s[k + 1..] by {
      forall i | 0 <= i < |s| && i != k ensures s[i] != id {
        if i < k { assert s[i] != s[k]; } else { assert s[k] != s[i]; }
      }
    }
  }

  /** Toggling a selected id removes just it; the others keep their order. */
  lemma ToggleSelectedAt(s: seq<int>, k: nat)
    requires NoDup(s) && k < |s|
    ensures Toggle(s, s[k]) == s[..k] + s[k + 1..]
  {
    WithoutAt(s, k);
  }

  /** Toggling an unselected id twice restores the selection. */
  lemma ToggleTwiceUnselected(s: seq<int>, id: int)
    requires id !in s
    ensures Toggle(Toggle(s, id), id) == s
  {
    WithoutConcat(s, [id], id);
    assert Without([id], id) == [];
  }

  /**
   * Toggling a selected id twice moves it to the end, so the selection is
   * restored only when the id was already last.
   */
  lemma ToggleTwiceSelected(s: seq<int>, k: nat)
    requires NoDup(s) && k < |s|
    ensures Toggle(Toggle(s, s[k]), s[k]) == s[..k] + s[k + 1..] + [s[k]]
    ensures Toggle(Toggle(s, s[k]), s[k]) == s <==> k == |s| - 1
  {
    var id := s[k];
    WithoutAt(s, k);
    var t := s[..k] + s[k + 1..];
    assert id !in t;
    if k == |s| - 1 {
      assert t + [id] == s;
    } else {
      assert (t + [id])[|s| - 1] == id;
      assert s[|s| - 1] != id;
    }
  }
}

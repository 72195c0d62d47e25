/**
 * The page that stacks slicer instances: a list of chart keys that starts with
 * one chart and grows by one each time the add button is pressed. Key k is
 * used as the identity of the k-th slicer instance.
 */
module Charts {

  /** `[...prev, prev.length]`: the list after one press of the add button. */
  function AddChartTo(prev: seq<nat>): (next: seq<nat>)
    ensures |next| == |prev| + 1
    ensures next[..|prev|] == prev
    ensures next[|prev|] == |prev|
  {
    prev + [|prev|]
  }

  /** Every key equals its position. */
  ghost predicate KeysArePositions(charts: seq<nat>) {
    forall i :: 0 <= i < |charts| ==> charts[i] == i
  }

  /** Keys that equal their positions are pairwise distinct, so no two instances share a key. */
  lemma PositionalKeysDistinct(charts: seq<nat>)
    requires KeysArePositions(charts)
    ensures forall i, j :: 0 <= i < j < |charts| ==> charts[i] != charts[j]
  {
  }

  /** Adding a chart keeps keys equal to their positions. */
  lemma AddChartKeepsKeys(prev: seq<nat>)
    requires KeysArePositions(prev)
    ensures KeysArePositions(AddChartTo(prev))
  {
    var next := AddChartTo(prev);
    forall i | 0 <= i < |next| ensures next[i] == i {
      if i < |prev| {
        assert next[i] == next[..|prev|][i];
      }
    }
  }

  /** The list after n presses of the add button, starting from `[0]`. */
  function AfterAdds(n: nat): seq<nat> {
    if n == 0 then [0] else AddChartTo(AfterAdds(n - 1))
  }

  /** After n presses the list is exactly 0, 1, ..., n. */
  lemma {:induction false} AfterAddsIsRange(n: nat)
    ensures |AfterAdds(n)| == n + 1
    ensures KeysArePositions(AfterAdds(n))
  {
    if n > 0 {
      AfterAddsIsRange(n - 1);
      AddChartKeepsKeys(AfterAdds(n - 1));
    }
  }

  class ChartList {
    var charts: seq<nat>

    ghost predicate Valid()
      reads this
    {
      |charts| >= 1 && KeysArePositions(charts)
    }

    /** The page starts with a single chart, key 0. */
    constructor ()
      ensures Valid() && charts == [0]
    {
      charts := [0];
    }

    /**
     * The add button: one key is appended, equal to the old length; every
     * existing key stays in place.
     */
    method AddChart()
      requires Valid()
      modifies this
      ensures Valid()
      ensures charts == AddChartTo(old(charts))
      ensures |charts| == |old(charts)| + 1 && old(charts) == charts[..|old(charts)|]
    {
      AddChartKeepsKeys(charts);
      charts := AddChartTo(charts);
    }
  }
}

// What removing vehicles from a plug-in's population does to the demo's
// selected vehicle: a removed vehicle that was selected is unselected.
module Selections {
  /** Whether v is one of the vehicles. */
  predicate InGroup(vehicles: seq<object>, v: object?)
  {
    exists i | 0 <= i < |vehicles| :: vehicles[i] == v
  }

  /** The selection after the vehicles from index n on are deleted: cleared
      when it was one of them, kept otherwise. */
  function SelectionAfterRemoving(vehicles: seq<object>, n: nat, selected: object?): (r: object?)
    requires n <= |vehicles|
    ensures r == null || r == selected
    ensures r == selected <==> selected == null || !InGroup(vehicles[n..], selected)
  {
    if InGroup(vehicles[n..], selected) then null else selected
  }

  /** Deleting one more vehicle from the end: the selection is cleared when
      it was that vehicle or already had been. */
  lemma {:induction false} RemovingOneMore(vehicles: seq<object>, n: nat, selected: object?)
    requires 0 < n <= |vehicles|
    ensures SelectionAfterRemoving(vehicles, n - 1, selected)
            == (if vehicles[n - 1] == SelectionAfterRemoving(vehicles, n, selected) then null
                else SelectionAfterRemoving(vehicles, n, selected))
  {
    assert vehicles[n - 1..] == [vehicles[n - 1]] + vehicles[n..];
    if InGroup(vehicles[n..], selected) {
      var i :| 0 <= i < |vehicles[n..]| && vehicles[n..][i] == selected;
      assert vehicles[n - 1..][i + 1] == selected;
    }
  }
}

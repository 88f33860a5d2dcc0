// The plug-in registry: every plug-in registers itself on construction in
// a fixed-size table, which the demo sorts into selection order, walks
// cyclically to pick the next plug-in, and searches for the default one.
//
// A plug-in's identity is its object reference, as in the registry's
// equality tests; its name, sort key and initial-selection request are
// fixed per plug-in. The static table is modelled by a Registry object.
module PlugIns {

  const TotalSizeOfRegistry := 1000

  class PlugIn {
    const name: string
    const selectionOrderSortKey: real
    const requestInitialSelection: bool

    /** Constructing a plug-in appends it to the registry. */
    constructor (reg: Registry, name: string, selectionOrderSortKey: real, requestInitialSelection: bool)
      requires reg.Valid() && reg.itemsInRegistry < TotalSizeOfRegistry
      modifies reg, reg.registry
      ensures reg.Valid()
      ensures this.name == name && this.selectionOrderSortKey == selectionOrderSortKey
      ensures this.requestInitialSelection == requestInitialSelection
      ensures reg.itemsInRegistry == old(reg.itemsInRegistry) + 1
      ensures reg.registry[..] == old(reg.registry[..])[old(reg.itemsInRegistry) := this]
      ensures reg.Entries() == old(reg.Entries()) + [this]
    {
      this.name := name;
      this.selectionOrderSortKey := selectionOrderSortKey;
      this.requestInitialSelection := requestInitialSelection;
      new;
      AddToRegistry(reg);
    }

    /** AddToRegistry: stores this plug-in in the next free slot and counts it. */
    method AddToRegistry(reg: Registry)
      requires reg.Valid() && reg.itemsInRegistry < TotalSizeOfRegistry
      modifies reg, reg.registry
      ensures reg.Valid()
      ensures reg.itemsInRegistry == old(reg.itemsInRegistry) + 1
      ensures reg.registry[..] == old(reg.registry[..])[old(reg.itemsInRegistry) := this]
      ensures reg.Entries() == old(reg.Entries()) + [this]
    {
      reg.registry[reg.itemsInRegistry] := this;
      reg.itemsInRegistry := reg.itemsInRegistry + 1;
    }

    /** Next: the entry after this plug-in's first occurrence, wrapping from
        the last entry to the first; null when this plug-in is not
        registered. */
    method Next(reg: Registry) returns (r: PlugIn?)
      requires reg.Valid()
      ensures this !in reg.Entries() ==> r == null
      ensures forall i | 0 <= i < reg.itemsInRegistry && reg.registry[i] == this
                         && (forall k | 0 <= k < i :: reg.registry[k] != this) ::
                r == reg.registry[if i == reg.itemsInRegistry - 1 then 0 else i + 1]
    {
      for i := 0 to reg.itemsInRegistry
        invariant forall k | 0 <= k < i :: reg.registry[k] != this
      {
        if this == reg.registry[i] {
          var atEnd := i == reg.itemsInRegistry - 1;
          return reg.registry[if atEnd then 0 else i + 1];
        }
      }
      return null;
    }
  }

  /** The registered plug-ins, in order, with keys in non-decreasing order. */
  ghost predicate SortedBySelectionOrder(s: seq<PlugIn?>)
  {
    forall a, b | 0 <= a < b < |s| && s[a] != null && s[b] != null ::
      s[a].selectionOrderSortKey <= s[b].selectionOrderSortKey
  }

  /** Two permutations of each other that agree from n on are permutations
      of each other up to n. */
  lemma PrefixPermutation<T>(a: seq<T>, b: seq<T>, n: int)
    requires 0 <= n <= |a| == |b| && multiset(a) == multiset(b) && a[n..] == b[n..]
    ensures multiset(a[..n]) == multiset(b[..n])
  {
    assert a == a[..n] + a[n..];
    assert b == b[..n] + b[n..];
    assert multiset(a) == multiset(a[..n]) + multiset(a[n..]);
    assert multiset(b) == multiset(b[..n]) + multiset(b[n..]);
    assert multiset(a[..n]) == multiset(a) - multiset(a[n..]);
  }

  class Registry {
    var itemsInRegistry: int
    const registry: array<PlugIn?>

    ghost predicate Valid()
      reads this, registry
    {
      && registry.Length == TotalSizeOfRegistry
      && 0 <= itemsInRegistry <= TotalSizeOfRegistry
      && forall k | 0 <= k < itemsInRegistry :: registry[k] != null
    }

    /** The registered plug-ins, in registration (or sorted) order. */
    ghost function Entries(): seq<PlugIn?>
      requires Valid()
      reads this, registry
    {
      registry[..itemsInRegistry]
    }

    /** The empty registry of TotalSizeOfRegistry slots. */
    constructor ()
      ensures Valid() && Entries() == []
    {
      registry := new PlugIn?[TotalSizeOfRegistry](_ => null);
      itemsInRegistry := 0;
    }

    /** FindByName as the source writes it: a match needs the stored name
        to be empty and equal to a name that is not empty, so it never
        finds anything. */
    method FindByNameAsWritten(name: string) returns (r: PlugIn?)
      requires Valid()
      ensures r == null
    {
      if |name| != 0 {
        for i := 0 to itemsInRegistry {
          var pi := registry[i];
          var s := pi.name;
          if |s| == 0 && name == s {
            return pi;
          }
        }
      }
      return null;
    }

    /** FindByName as intended: the first registered plug-in with the given
        (non-empty) name, or null when there is none. */
    method FindByName(name: string) returns (r: PlugIn?)
      requires Valid()
      ensures r == null <==> |name| == 0 || forall k | 0 <= k < itemsInRegistry :: registry[k].name != name
      ensures r != null ==>
                exists i | 0 <= i < itemsInRegistry ::
                  && r == registry[i] && r.name == name
                  && forall k | 0 <= k < i :: registry[k].name != name
    {
      if |name| != 0 {
        for i := 0 to itemsInRegistry
          invariant forall k | 0 <= k < i :: registry[k].name != name
        {
          var pi := registry[i];
          var s := pi.name;
          if |s| != 0 && name == s {
            return pi;
          }
        }
      }
      return null;
    }

    /** ApplyToAll: f applied to each registered plug-in once, in registry
        order. */
    method ApplyToAll<T>(f: PlugIn -> T) returns (results: seq<T>)
      requires Valid()
      ensures |results| == itemsInRegistry
      ensures forall k | 0 <= k < itemsInRegistry :: results[k] == f(registry[k])
    {
      results := [];
      for i := 0 to itemsInRegistry
        invariant |results| == i
        invariant forall k | 0 <= k < i :: results[k] == f(registry[k])
      {
        results := results + [f(registry[i])];
      }
    }

    /** FindDefault: null for an empty registry, otherwise the first entry
        requesting initial selection, otherwise the first entry. */
    method FindDefault() returns (r: PlugIn?)
      requires Valid()
      ensures r == null <==> itemsInRegistry == 0
      ensures r != null ==> r in Entries()
      ensures r != null && r.requestInitialSelection ==>
        exists i | 0 <= i < itemsInRegistry :: r == registry[i]
          && forall k | 0 <= k < i :: !registry[k].requestInitialSelection
      ensures r != null && !r.requestInitialSelection ==>
        r == registry[0] && forall k | 0 <= k < itemsInRegistry :: !registry[k].requestInitialSelection
    {
      if itemsInRegistry == 0 {
        return null;
      }
      for i := 0 to itemsInRegistry
        invariant forall k | 0 <= k < i :: !registry[k].requestInitialSelection
      {
        if registry[i].requestInitialSelection {
          return registry[i];
        }
      }
      return registry[0];
    }

    /** SortBySelectionOrder: an exchange sort of the registered entries by
        sort key, in place; the entries end up a permutation of the
        originals in non-decreasing key order, and the free slots are
        untouched. */
    method SortBySelectionOrder()
      requires Valid()
      modifies registry
      ensures Valid()
      ensures multiset(Entries()) == old(multiset(Entries()))
      ensures SortedBySelectionOrder(Entries())
      ensures registry[itemsInRegistry..] == old(registry[itemsInRegistry..])
    {
      var n := itemsInRegistry;
      var i := 0;
      while i < n - 1
        invariant 0 <= i <= n || (n == 0 && i == 0)
        invariant forall k | 0 <= k < n :: registry[k] != null
        invariant multiset(registry[..]) == old(multiset(registry[..]))
        invariant registry[n..] == old(registry[n..])
        invariant forall a, b | 0 <= a < b < i :: registry[a].selectionOrderSortKey <= registry[b].selectionOrderSortKey
        invariant 0 < i ==> forall b | i <= b < n :: registry[i - 1].selectionOrderSortKey <= registry[b].selectionOrderSortKey
      {
        SinkSmallest(i);
        i := i + 1;
      }
      PrefixPermutation(old(registry[..]), registry[..], n);
    }

    /** One pass of the exchange sort: swaps each later entry with entry i
        whenever entry i's key is larger, leaving the smallest key of
        i..n-1 at i. Entries before i stay put, and entry i-1 stays no
        larger than any entry from i on. */
    method SinkSmallest(i: int)
      requires Valid() && 0 <= i < itemsInRegistry
      requires 0 < i ==> forall b | i <= b < itemsInRegistry ::
        registry[i - 1].selectionOrderSortKey <= registry[b].selectionOrderSortKey
      modifies registry
      ensures Valid()
      ensures multiset(registry[..]) == old(multiset(registry[..]))
      ensures registry[..i] == old(registry[..i])
      ensures registry[itemsInRegistry..] == old(registry[itemsInRegistry..])
      ensures 0 < i ==> forall b | i <= b < itemsInRegistry ::
        registry[i - 1].selectionOrderSortKey <= registry[b].selectionOrderSortKey
      ensures forall k | i < k < itemsInRegistry :: registry[i].selectionOrderSortKey <= registry[k].selectionOrderSortKey
    {
      var n := itemsInRegistry;
      ghost var lowest := if 0 < i then registry[i - 1].selectionOrderSortKey else 0.0;
      for j := i + 1 to n
        invariant forall k | 0 <= k < n :: registry[k] != null
        invariant registry[..i] == old(registry[..i])
        invariant registry[n..] == old(registry[n..])
        invariant multiset(registry[..]) == old(multiset(registry[..]))
        invariant 0 < i ==> forall b | i <= b < n :: lowest <= registry[b].selectionOrderSortKey
        invariant forall k | i < k < j :: registry[i].selectionOrderSortKey <= registry[k].selectionOrderSortKey
      {
        var iKey := registry[i].selectionOrderSortKey;
        var jKey := registry[j].selectionOrderSortKey;
        if iKey > jKey {
          Swap(i, j);
        }
      }
      assert 0 < i ==> registry[i - 1] == old(registry[..i])[i - 1];
    }

    /** Exchanges two registered entries. */
    method Swap(i: int, j: int)
      requires Valid() && 0 <= i < itemsInRegistry && 0 <= j < itemsInRegistry
      modifies registry
      ensures Valid()
      ensures registry[..] == old(registry[..])[i := old(registry[j])][j := old(registry[i])]
      ensures multiset(registry[..]) == old(multiset(registry[..]))
    {
      var temporary := registry[i];
      registry[i] := registry[j];
      registry[j] := temporary;
    }
  }
}

// The proximity databases the flock and crowd demos cycle through with a
// function key. The databases themselves live in the steering library and
// are not part of this model; a plug-in's choice is recorded as the value
// it constructs: a locality-query bin lattice with its centre, size and
// divisions, or a brute-force list.
module ProximityDatabases {
  import opened Vectors
  import opened Utilities

  datatype ProximityDatabase =
    | LocalityQuery(center: Vec3, dimensions: Vec3, divisions: Vec3)
    | BruteForce

  /** The number of database kinds a plug-in cycles through. */
  const DatabaseKindCount := 2

  /** NextPD's `(cyclePD + 1) % totalPD`, with C#'s remainder: from any
      index at or above the initial -1 it lands on 0 or 1, stepping 0 -> 1
      and wrapping 1 -> 0. */
  function NextCycle(cyclePD: int): (r: int)
    ensures cyclePD >= -1 ==> 0 <= r < DatabaseKindCount
    ensures 0 <= cyclePD + 1 < DatabaseKindCount ==> r == cyclePD + 1
    ensures cyclePD + 1 == DatabaseKindCount ==> r == 0
  {
    Remainder(cyclePD + 1, DatabaseKindCount)
  }

  /** Starting from Open's -1, the cycle visits 0, 1, 0, 1, ...: each index
      returns after two steps and the two kinds alternate. */
  lemma CycleAlternates(cyclePD: int)
    requires -1 <= cyclePD < DatabaseKindCount
    ensures NextCycle(-1) == 0
    ensures NextCycle(NextCycle(cyclePD)) == (if cyclePD == -1 then 1 else cyclePD)
    ensures NextCycle(cyclePD) != cyclePD
  {
  }
}

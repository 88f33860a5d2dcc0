// The flocking demo's plug-in: the flock list and its population count,
// the proximity database the boids are registered with, and the index of
// the database kind in use. Function keys add and remove boids and switch
// the database; opening builds a flock of 200 and closing deletes it.
module BoidsPlugIns {
  import opened Options
  import opened Vectors
  import opened Obstacles
  import opened ProximityDatabases
  import opened Boids
  import opened Selections
  import Demos

  /** Open's flock size. */
  const InitialFlockSize := 200

  /** The divisions of the bin lattice along each axis. */
  const LatticeDivisions: real := 10.0

  /** NextPD's database for a cycle index: for 0 a bin lattice centred on
      the origin, 10 bins a side, spanning the world's diameter with a 10%
      margin; for 1 brute force. */
  function DatabaseFor(cyclePD: int): (pd: Option<ProximityDatabase>)
    ensures pd.Some? <==> cyclePD == 0 || cyclePD == 1
    ensures cyclePD == 0 ==>
              && pd.value.LocalityQuery?
              && pd.value.center == Zero
              && pd.value.divisions == Vec3(LatticeDivisions, LatticeDivisions, LatticeDivisions)
              && pd.value.dimensions.x == pd.value.dimensions.y == pd.value.dimensions.z
              && pd.value.dimensions.x / 2.0 == WorldRadius * 1.1
    ensures cyclePD == 1 ==> pd == Some(BruteForce)
  {
    if cyclePD == 0 then
      var diameter := WorldRadius * 1.1 * 2.0;
      Some(LocalityQuery(Zero, Vec3(diameter, diameter, diameter),
                         Vec3(LatticeDivisions, LatticeDivisions, LatticeDivisions)))
    else if cyclePD == 1 then Some(BruteForce)
    else None
  }

  class BoidsPlugIn {
    var flock: seq<Boid>
    var pd: Option<ProximityDatabase>
    var population: int
    var cyclePD: int

    /** The population counts the flock, whose boids are distinct and all
        registered with the current database; the cycle index is -1 (only
        inside Open), 0 or 1. */
    ghost predicate Valid()
      reads this, flock
    {
      && population == |flock|
      && -1 <= cyclePD < DatabaseKindCount
      && (forall i, j | 0 <= i < j < |flock| :: flock[i] != flock[j])
      && (forall i | 0 <= i < |flock| :: pd.Some? && flock[i].database == pd.value)
    }

    /** A new plug-in: no flock and no database yet. */
    constructor ()
      ensures Valid() && flock == [] && pd == None && population == 0 && cyclePD == 0
    {
      flock := [];
      pd := None;
      population := 0;
      cyclePD := 0;
    }

    /** AddBoidToFlock: appends a new boid registered with the current
        database, and makes it the demo's selection when it is the only
        boid. */
    method AddBoidToFlock(demo: Demos.Demo, start: BoidStart)
      requires Valid() && pd.Some?
      modifies this`flock, this`population, demo`selectedVehicle
      ensures Valid()
      ensures population == old(population) + 1 && |flock| == old(|flock|) + 1
      ensures flock[..old(|flock|)] == old(flock)
      ensures fresh(flock[|flock| - 1])
      ensures flock[|flock| - 1].database == pd.value
      ensures flock[|flock| - 1].motion == ResetMotion(start)
      ensures demo.selectedVehicle == (if population == 1 then flock[|flock| - 1] else old(demo.selectedVehicle))
    {
      population := population + 1;
      var boid := new Boid(pd.value, start);
      flock := flock + [boid];
      if population == 1 {
        demo.selectedVehicle := boid;
      }
    }

    /** RemoveBoidFromFlock: deletes the last boid, clearing the demo's
        selection when it was that boid; with no boids, does nothing. */
    method RemoveBoidFromFlock(demo: Demos.Demo)
      requires Valid()
      modifies this`flock, this`population, demo`selectedVehicle
      ensures Valid()
      ensures old(population) > 0 ==>
                && population == old(population) - 1
                && flock == old(flock)[..population]
                && demo.selectedVehicle == (if old(demo.selectedVehicle) == old(flock)[population] then null
                                            else old(demo.selectedVehicle))
      ensures old(population) <= 0 ==>
                population == old(population) && flock == old(flock)
                && demo.selectedVehicle == old(demo.selectedVehicle)
    {
      if population > 0 {
        population := population - 1;
        var boid := flock[population];
        flock := flock[..population];
        if boid == demo.selectedVehicle {
          demo.selectedVehicle := null;
        }
      }
    }

    /** Close: deletes every boid and drops the database; the demo's
        selection is cleared when it was one of the boids. */
    method Close(demo: Demos.Demo)
      requires Valid()
      modifies this`flock, this`population, this`pd, demo`selectedVehicle
      ensures Valid()
      ensures flock == [] && population == 0 && pd == None
      ensures demo.selectedVehicle == SelectionAfterRemoving(old(flock), 0, old(demo.selectedVehicle))
    {
      ghost var original := flock;
      ghost var selected := demo.selectedVehicle;
      while population > 0
        invariant Valid() && pd == old(pd)
        invariant flock == old(flock)[..population]
        invariant demo.selectedVehicle
                  == SelectionAfterRemoving(old(flock), population, old(demo.selectedVehicle))
        decreases population
      {
        RemoveStep(demo, original, selected);
      }
      pd := None;
    }

    /** One turn of Close's loop: removing the last boid extends the removed
        suffix by one. */
    method RemoveStep(demo: Demos.Demo, ghost original: seq<Boid>, ghost selected: object?)
      requires Valid() && population > 0
      requires population <= |original| && flock == original[..population]
      requires demo.selectedVehicle == SelectionAfterRemoving(original, population, selected)
      modifies this`flock, this`population, demo`selectedVehicle
      ensures Valid() && population == old(population) - 1
      ensures flock == original[..population]
      ensures demo.selectedVehicle == SelectionAfterRemoving(original, population, selected)
    {
      RemovingOneMore(original, population, selected);
      RemoveBoidFromFlock(demo);
    }

    /** NextPD: steps the cycle index and registers every boid with the
        database of the new kind; the boids are otherwise untouched. */
    method NextPD()
      requires Valid()
      modifies this`cyclePD, this`pd, flock
      ensures Valid()
      ensures cyclePD == NextCycle(old(cyclePD))
      ensures pd == DatabaseFor(cyclePD)
      ensures flock == old(flock)
      ensures forall i | 0 <= i < |flock| :: flock[i].motion == old(flock[i].motion)
    {
      cyclePD := NextCycle(cyclePD);
      pd := DatabaseFor(cyclePD);
      for i := 0 to |flock|
        invariant flock == old(flock) && cyclePD == NextCycle(old(cyclePD))
        invariant pd.Some? && pd == DatabaseFor(cyclePD)
        invariant forall j | 0 <= j < i :: flock[j].database == pd.value
        invariant forall j | 0 <= j < |flock| :: flock[j].motion == old(flock[j].motion)
      {
        flock[i].NewPD(pd.value);
      }
    }

    /** Reset: resets every boid with its own draws. */
    method Reset(starts: seq<BoidStart>)
      requires Valid() && |starts| == |flock|
      modifies flock
      ensures Valid()
      ensures forall i | 0 <= i < |flock| :: flock[i].motion == ResetMotion(starts[i])
    {
      for i := 0 to |flock|
        invariant forall j | 0 <= j < i :: flock[j].motion == ResetMotion(starts[j])
        invariant forall j | 0 <= j < |flock| :: flock[j].database == old(flock[j].database)
      {
        flock[i].Reset(starts[i]);
      }
    }

    /** Open's loop: adds one boid per draw to an empty flock; the first
        becomes the demo's selection. */
    method BuildFlock(demo: Demos.Demo, starts: seq<BoidStart>)
      requires Valid() && flock == [] && pd.Some?
      modifies this`flock, this`population, demo`selectedVehicle
      ensures Valid() && population == |starts|
      ensures forall i | 0 <= i < |flock| :: fresh(flock[i]) && flock[i].motion == ResetMotion(starts[i])
      ensures |starts| > 0 ==> demo.selectedVehicle == flock[0]
    {
      for i := 0 to |starts|
        invariant Valid() && population == i
        invariant forall j | 0 <= j < i :: fresh(flock[j]) && flock[j].motion == ResetMotion(starts[j])
        invariant i > 0 ==> demo.selectedVehicle == flock[0]
      {
        AddBoidToFlock(demo, starts[i]);
      }
    }

    /** Open: starts the database cycle at the bin lattice, builds a flock
        of 200 boids from the draws, the first of them selected, and fills
        the shared obstacle registry on first use. */
    method Open(demo: Demos.Demo, world: BoidWorld, starts: seq<BoidStart>,
                obstacleDraws: seq<SphericalObstacle>)
      requires Valid() && flock == []
      requires world.obstacles.Valid()
      requires |starts| == InitialFlockSize && |obstacleDraws| == Boids.InitialObstacleCount
      modifies this, demo`selectedVehicle, world.obstacles
      ensures Valid()
      ensures population == InitialFlockSize && cyclePD == 0 && pd == DatabaseFor(0)
      ensures forall i | 0 <= i < |flock| :: fresh(flock[i]) && flock[i].motion == ResetMotion(starts[i])
      ensures demo.selectedVehicle == flock[0]
      ensures old(world.obstacles.obstacleCount) == -1 ==> world.obstacles.allObstacles == obstacleDraws
      ensures old(world.obstacles.obstacleCount) != -1 ==>
                world.obstacles.allObstacles == old(world.obstacles.allObstacles)
    {
      cyclePD := -1;
      NextPD();
      population := 0;
      BuildFlock(demo, starts);
      world.InitializeObstacles(obstacleDraws);
    }
  }
}

// The pedestrian demo's plug-in: the crowd list and its population count,
// the proximity database the pedestrians are registered with, and the index
// of the database kind in use. Function keys add and remove pedestrians and
// switch the database; opening builds a crowd of 100 and closing deletes it.
//
// A pedestrian is modelled by the state its Reset sets. Its path, the
// point on the path it starts from and its random draws belong to the
// steering library and come in as values.
module PedestrianPlugIns {
  import opened Options
  import opened Vectors
  import opened ProximityDatabases
  import opened Selections
  import Demos

  /** Open's crowd size. */
  const InitialCrowdSize := 100

  /** The draws one Reset consumes: the start point (a point on the path
      plus a horizontal offset), the heading, and the coin that picks the
      direction of travel along the path. */
  datatype PedestrianStart = PedestrianStart(position: Vec3, heading: Vec3, coin: real)

  datatype PedestrianMotion = PedestrianMotion(position: Vec3, forward: Vec3, speed: real, maxForce: real,
                                               maxSpeed: real, radius: real, pathDirection: int)

  /** Pedestrian.Reset's state: stopped, top speed 2, steering force 8,
      radius 0.5, at the drawn start and heading, following the path
      upstream (-1) when the coin exceeds one half and downstream (+1)
      otherwise. */
  function ResetMotion(start: PedestrianStart): (m: PedestrianMotion)
    ensures m.speed == 0.0 && m.maxSpeed == 2.0 && m.maxForce == 8.0 && m.radius == 0.5
    ensures m.position == start.position && m.forward == start.heading
    ensures m.pathDirection == -1 || m.pathDirection == 1
    ensures m.pathDirection == -1 <==> start.coin > 0.5
  {
    PedestrianMotion(start.position, start.heading, 0.0, 8.0, 2.0, 0.5,
                     if start.coin > 0.5 then -1 else 1)
  }

  class Pedestrian {
    var motion: PedestrianMotion
    var database: ProximityDatabase

    /** A new pedestrian joins the given database and is reset. */
    constructor (pd: ProximityDatabase, start: PedestrianStart)
      ensures database == pd && motion == ResetMotion(start)
    {
      database := pd;
      motion := ResetMotion(start);
    }

    /** Reset: the pedestrian's reset state for the given draws; the
        database is kept. */
    method Reset(start: PedestrianStart)
      modifies this`motion
      ensures motion == ResetMotion(start)
    {
      motion := ResetMotion(start);
    }

    /** NewPD: moves the pedestrian to another database. */
    method NewPD(pd: ProximityDatabase)
      modifies this`database
      ensures database == pd
    {
      database := pd;
    }
  }

  /** NextPD's database for a cycle index: for 0 a bin lattice centred on
      the origin, 80 a side, with 20 bins along X and Z and one along Y;
      for 1 brute force. */
  function DatabaseFor(cyclePD: int): (pd: Option<ProximityDatabase>)
    ensures pd.Some? <==> cyclePD == 0 || cyclePD == 1
    ensures cyclePD == 0 ==>
              && pd.value.LocalityQuery?
              && pd.value.center == Zero
              && pd.value.dimensions == Vec3(80.0, 80.0, 80.0)
              && pd.value.divisions == Vec3(20.0, 1.0, 20.0)
    ensures cyclePD == 1 ==> pd == Some(BruteForce)
  {
    if cyclePD == 0 then
      var div := 20.0;
      var diameter := 80.0;
      Some(LocalityQuery(Zero, Vec3(diameter, diameter, diameter), Vec3(div, 1.0, div)))
    else if cyclePD == 1 then Some(BruteForce)
    else None
  }

  /** The bin lattice is flat: its bins span the whole height, 4 by 80 by 4
      each. */
  lemma LatticeIsFlat()
    ensures var pd := DatabaseFor(0).value;
            && pd.dimensions.y / pd.divisions.y == pd.dimensions.y
            && pd.dimensions.x / pd.divisions.x == 4.0 && pd.dimensions.z / pd.divisions.z == 4.0
  {
  }

  class PedestrianPlugIn {
    var crowd: seq<Pedestrian>
    var pd: Option<ProximityDatabase>
    var population: int
    var cyclePD: int

    /** The population counts the crowd, whose pedestrians are distinct and
        all registered with the current database; the cycle index is -1
        (only inside Open), 0 or 1. */
    ghost predicate Valid()
      reads this, crowd
    {
      && population == |crowd|
      && -1 <= cyclePD < DatabaseKindCount
      && (forall i, j | 0 <= i < j < |crowd| :: crowd[i] != crowd[j])
      && (forall i | 0 <= i < |crowd| :: pd.Some? && crowd[i].database == pd.value)
    }

    /** A new plug-in: no crowd and no database yet. */
    constructor ()
      ensures Valid() && crowd == [] && pd == None && population == 0 && cyclePD == 0
    {
      crowd := [];
      pd := None;
      population := 0;
      cyclePD := 0;
    }

    /** AddPedestrianToCrowd: appends a new pedestrian registered with the
        current database, and makes it the demo's selection when it is the
        only one. */
    method AddPedestrianToCrowd(demo: Demos.Demo, start: PedestrianStart)
      requires Valid() && pd.Some?
      modifies this`crowd, this`population, demo`selectedVehicle
      ensures Valid()
      ensures population == old(population) + 1 && |crowd| == old(|crowd|) + 1
      ensures crowd[..old(|crowd|)] == old(crowd)
      ensures fresh(crowd[|crowd| - 1])
      ensures crowd[|crowd| - 1].database == pd.value
      ensures crowd[|crowd| - 1].motion == ResetMotion(start)
      ensures demo.selectedVehicle == (if population == 1 then crowd[|crowd| - 1] else old(demo.selectedVehicle))
    {
      population := population + 1;
      var pedestrian := new Pedestrian(pd.value, start);
      crowd := crowd + [pedestrian];
      if population == 1 {
        demo.selectedVehicle := pedestrian;
      }
    }

    /** RemovePedestrianFromCrowd: deletes the last pedestrian, clearing the
        demo's selection when it was that pedestrian; with nobody left,
        does nothing. */
    method RemovePedestrianFromCrowd(demo: Demos.Demo)
      requires Valid()
      modifies this`crowd, this`population, demo`selectedVehicle
      ensures Valid()
      ensures old(population) > 0 ==>
                && population == old(population) - 1
                && crowd == old(crowd)[..population]
                && demo.selectedVehicle == (if old(demo.selectedVehicle) == old(crowd)[population] then null
                                            else old(demo.selectedVehicle))
      ensures old(population) <= 0 ==>
                population == old(population) && crowd == old(crowd)
                && demo.selectedVehicle == old(demo.selectedVehicle)
    {
      if population > 0 {
        population := population - 1;
        var pedestrian := crowd[population];
        crowd := crowd[..population];
        if pedestrian == demo.selectedVehicle {
          demo.selectedVehicle := null;
        }
      }
    }

    /** Close: deletes every pedestrian, clearing the demo's selection when
        it was one of them. The database is kept. */
    method Close(demo: Demos.Demo)
      requires Valid()
      modifies this`crowd, this`population, demo`selectedVehicle
      ensures Valid()
      ensures crowd == [] && population == 0
      ensures demo.selectedVehicle == SelectionAfterRemoving(old(crowd), 0, old(demo.selectedVehicle))
    {
      ghost var original := crowd;
      ghost var selected := demo.selectedVehicle;
      while population > 0
        invariant Valid()
        invariant crowd == original[..population]
        invariant demo.selectedVehicle == SelectionAfterRemoving(original, population, selected)
        decreases population
      {
        RemoveStep(demo, original, selected);
      }
    }

    /** One turn of Close's loop: removing the last pedestrian extends the
        removed suffix by one. */
    method RemoveStep(demo: Demos.Demo, ghost original: seq<Pedestrian>, ghost selected: object?)
      requires Valid() && population > 0
      requires population <= |original| && crowd == original[..population]
      requires demo.selectedVehicle == SelectionAfterRemoving(original, population, selected)
      modifies this`crowd, this`population, demo`selectedVehicle
      ensures Valid() && population == old(population) - 1
      ensures crowd == original[..population]
      ensures demo.selectedVehicle == SelectionAfterRemoving(original, population, selected)
    {
      RemovingOneMore(original, population, selected);
      RemovePedestrianFromCrowd(demo);
    }

    /** Reset: resets every pedestrian with its own draws; the crowd and
        each pedestrian's database are kept. */
    method Reset(starts: seq<PedestrianStart>)
      requires Valid() && |starts| == |crowd|
      modifies crowd
      ensures Valid()
      ensures forall i | 0 <= i < |crowd| :: crowd[i].motion == ResetMotion(starts[i])
    {
      for i := 0 to |crowd|
        invariant forall j | 0 <= j < i :: crowd[j].motion == ResetMotion(starts[j])
        invariant forall j | 0 <= j < |crowd| :: crowd[j].database == old(crowd[j].database)
      {
        crowd[i].Reset(starts[i]);
      }
    }

    /** NextPD: steps the cycle index and registers every pedestrian with
        the database of the new kind; the pedestrians are otherwise
        untouched. */
    method NextPD()
      requires Valid()
      modifies this`cyclePD, this`pd, crowd
      ensures Valid()
      ensures cyclePD == NextCycle(old(cyclePD))
      ensures pd == DatabaseFor(cyclePD)
      ensures crowd == old(crowd)
      ensures forall i | 0 <= i < |crowd| :: crowd[i].motion == old(crowd[i].motion)
    {
      cyclePD := NextCycle(cyclePD);
      pd := DatabaseFor(cyclePD);
      for i := 0 to |crowd|
        invariant crowd == old(crowd) && cyclePD == NextCycle(old(cyclePD))
        invariant pd.Some? && pd == DatabaseFor(cyclePD)
        invariant forall j | 0 <= j < i :: crowd[j].database == pd.value
        invariant forall j | 0 <= j < |crowd| :: crowd[j].motion == old(crowd[j].motion)
      {
        crowd[i].NewPD(pd.value);
      }
    }

    /** Open's loop: adds one pedestrian per draw to an empty crowd; the
        first becomes the demo's selection. */
    method BuildCrowd(demo: Demos.Demo, starts: seq<PedestrianStart>)
      requires Valid() && crowd == [] && pd.Some?
      modifies this`crowd, this`population, demo`selectedVehicle
      ensures Valid() && population == |starts|
      ensures forall i | 0 <= i < |crowd| :: fresh(crowd[i]) && crowd[i].motion == ResetMotion(starts[i])
      ensures |starts| > 0 ==> demo.selectedVehicle == crowd[0]
    {
      for i := 0 to |starts|
        invariant Valid() && population == i
        invariant forall j | 0 <= j < i :: fresh(crowd[j]) && crowd[j].motion == ResetMotion(starts[j])
        invariant i > 0 ==> demo.selectedVehicle == crowd[0]
      {
        AddPedestrianToCrowd(demo, starts[i]);
      }
    }

    /** Open: starts the database cycle at the bin lattice and builds a
        crowd of 100 pedestrians from the draws, the first of them
        selected. */
    method Open(demo: Demos.Demo, starts: seq<PedestrianStart>)
      requires Valid() && crowd == []
      requires |starts| == InitialCrowdSize
      modifies this, demo`selectedVehicle
      ensures Valid()
      ensures population == InitialCrowdSize && cyclePD == 0 && pd == DatabaseFor(0)
      ensures forall i | 0 <= i < |crowd| :: fresh(crowd[i]) && crowd[i].motion == ResetMotion(starts[i])
      ensures demo.selectedVehicle == crowd[0]
    {
      cyclePD := -1;
      NextPD();
      population := 0;
      BuildCrowd(demo, starts);
    }
  }
}

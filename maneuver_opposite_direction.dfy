/**
 * The opposite-direction manoeuvre scenario: two vehicles are placed ahead of the
 * trigger point, the first in the ego's lane and the second in the lane to its left,
 * and an adversarial policy then drives them through `update_behavior`.
 *
 * Map and waypoint lookups, vehicle spawning and motion commands belong to the simulator;
 * they are not part of this model. What the simulator returns (the spawned actors) is
 * passed in as a parameter, and what is sent to it (the actor specifications, the
 * motion command) is kept as a value.
 */
module ManeuverOppositeDirection {
  import opened Wrappers
  import opened ActionNormalizer

  /** A live simulated vehicle, owned by the simulator. */
  datatype Actor = Actor(id: nat)

  /** Which lane an actor is placed in, relative to the reference waypoint's lane. */
  datatype Lane = SameLane | LeftLane

  /** One vehicle to spawn: its blueprint, its distance ahead of the reference waypoint, its lane. */
  datatype ActorSpec = ActorSpec(typeId: string, distance: real, lane: Lane)

  const VehicleType: string := "vehicle.nissan.micra"

  /** The triple `x1, x2, v2` that `create_behavior` unpacks its decoded action into. */
  datatype Placement = Placement(x1: real, x2: real, v2: real)

  /**
   * Python's `x1, x2, v2 = values`: a list of exactly three values unpacks, any
   * other length raises ValueError.
   */
  function Unpack(values: seq<real>): (r: Result<Placement, Exception>)
    ensures r.Ok? <==> |values| == 3
    ensures r.Err? ==> r.error == ValueError
    ensures r.Ok? ==> [r.value.x1, r.value.x2, r.value.v2] == values
  {
    if |values| == 3 then Ok(Placement(values[0], values[1], values[2])) else Err(ValueError)
  }

  /**
   * The offsets `create_behavior` stores: the first vehicle at `x1`, the second at
   * the first offset plus the gap `x2`. The third value `v2` is not used.
   */
  function Offsets(p: Placement): (r: (real, real))
    ensures r.0 == p.x1
    ensures r.1 - r.0 == p.x2
  {
    var first := p.x1;
    (first, first + p.x2)
  }

  /** The two vehicles `initialize_actors` asks the simulator for, in order. */
  function ActorSpecs(first: real, second: real): (r: seq<ActorSpec>)
    ensures |r| == 2
    ensures forall i :: 0 <= i < 2 ==> r[i].typeId == VehicleType
    ensures r[0].distance == first && r[0].lane == SameLane
    ensures r[1].distance == second && r[1].lane == LeftLane
  {
    [ActorSpec(VehicleType, first, SameLane), ActorSpec(VehicleType, second, LeftLane)]
  }

  /** The command `update_behavior` hands to the motion primitive `go_straight`. */
  datatype MotionCommand = GoStraight(speeds: seq<real>, flag: int)

  /**
   * `create_behavior` as the source writes it: the assert rejects every init action
   * other than None, and for None the next line unpacks `actions`, a name that is never
   * bound (the conversion that would bind it is commented out), so it raises NameError.
   * The call never succeeds and never reaches the two assignments; in particular the
   * call the scenario runner makes, `create_behavior(None)`, fails with NameError.
   */
  function CreateBehaviorAsWritten(initAction: Option<seq<real>>): (r: Result<(real, real), Exception>)
    ensures r.Err?
    ensures r.error == AssertionError <==> initAction.Some?
    ensures r.error == NameError <==> initAction.None?
  {
    if initAction.Some? then Err(AssertionError) else Err(NameError)
  }

  /**
   * Decoding an in-range action and unpacking it places the first vehicle 40 to 60 m
   * ahead and the second 20 to 40 m beyond it, so strictly further ahead.
   */
  lemma PlacementFromAction(actions: seq<real>)
    requires |actions| >= 3
    requires forall i :: 0 <= i < 3 ==> -1.0 <= actions[i] <= 1.0
    ensures var p := Unpack(ConvertActions(actions).value);
            p.Ok? &&
            var (first, second) := Offsets(p.value);
            40.0 <= first <= 60.0 && 20.0 <= second - first <= 40.0 &&
            60.0 <= second <= 100.0 && first < second
  {
    var c := ConvertActions(actions).value;
    assert Ranges[0].Contains(c[0]) && Ranges[1].Contains(c[1]);
  }

  /** The centre action [0, 0, 0] puts the vehicles 50 m and 50 + 30 = 80 m ahead. */
  lemma PlacementOfCentreAction()
    ensures var p := Unpack(ConvertActions([0.0, 0.0, 0.0]).value);
            p.Ok? && Offsets(p.value) == (50.0, 80.0)
  {
    ConvertExamples();
  }

  /** The scenario's state: the fields its methods set on `self`. */
  class Scenario {
    const timeout: int
    /** How close the ego must come to the reference actor before the scenario triggers. */
    const triggerDistanceThreshold: int
    /** How far the ego may drive before the scenario ends. */
    const egoMaxDrivenDistance: int

    var firstVehicleLocation: Option<real>
    var secondVehicleLocation: Option<real>
    var actorTypeList: seq<string>
    var actorSpecs: seq<ActorSpec>
    var otherActors: seq<Actor>
    var referenceActor: Option<Actor>

    /** The two offsets are set together, and the thresholds keep their construction values. */
    predicate Valid()
      reads this
    {
      firstVehicleLocation.Some? == secondVehicleLocation.Some? &&
      triggerDistanceThreshold == 45 && egoMaxDrivenDistance == 200
    }

    constructor (timeout: int := 60)
      ensures Valid()
      ensures this.timeout == timeout
      ensures triggerDistanceThreshold == 45 && egoMaxDrivenDistance == 200
      ensures firstVehicleLocation == None && secondVehicleLocation == None
      ensures otherActors == [] && referenceActor == None
      ensures actorTypeList == [] && actorSpecs == []
    {
      this.timeout := timeout;
      triggerDistanceThreshold := 45;
      egoMaxDrivenDistance := 200;
      firstVehicleLocation := None;
      secondVehicleLocation := None;
      actorTypeList := [];
      actorSpecs := [];
      otherActors := [];
      referenceActor := None;
    }

    /**
     * `create_behavior` with the defect mended: the init action must still be None,
     * and the triple `x1, x2, v2` is supplied as a configuration value instead of
     * being read from an unbound name. The first offset is `x1` and the second is
     * the first plus `x2`.
     */
    method CreateBehavior(initAction: Option<seq<real>>, placement: Placement)
      returns (r: Result<(), Exception>)
      requires Valid()
      modifies this
      ensures Valid()
      ensures r.Ok? <==> initAction.None?
      ensures r.Err? ==> r.error == AssertionError && unchanged(this)
      ensures r.Ok? ==>
                firstVehicleLocation == Some(placement.x1) &&
                secondVehicleLocation == Some(placement.x1 + placement.x2) &&
                actorTypeList == old(actorTypeList) && actorSpecs == old(actorSpecs) &&
                otherActors == old(otherActors) && referenceActor == old(referenceActor)
    {
      if initAction.Some? {
        return Err(AssertionError);
      }
      var (first, second) := Offsets(placement);
      firstVehicleLocation := Some(first);
      secondVehicleLocation := Some(second);
      r := Ok(());
    }

    /**
     * `initialize_actors`: asks for two micra vehicles, the first at the first offset
     * in the reference lane and the second at the second offset in the lane to the left,
     * and makes the first spawned actor the reference actor used for triggering.
     * `spawned` is what the simulator returns for `actorSpecs`. Before the offsets are
     * set the method raises AttributeError and changes nothing; if nothing was spawned,
     * indexing the first actor raises IndexError after the lists have been stored.
     */
    method InitializeActors(spawned: seq<Actor>) returns (r: Result<(), Exception>)
      requires Valid()
      modifies this
      ensures Valid()
      ensures old(firstVehicleLocation).None? ==> r == Err(AttributeError) && unchanged(this)
      ensures old(firstVehicleLocation).Some? ==>
                firstVehicleLocation == old(firstVehicleLocation) &&
                secondVehicleLocation == old(secondVehicleLocation) &&
                actorTypeList == [VehicleType, VehicleType] &&
                actorSpecs == ActorSpecs(firstVehicleLocation.value, secondVehicleLocation.value) &&
                otherActors == spawned &&
                (r.Ok? <==> |spawned| > 0)
      ensures old(firstVehicleLocation).Some? && r.Ok? ==> referenceActor == Some(spawned[0])
      ensures old(firstVehicleLocation).Some? && r.Err? ==>
                r.error == IndexError && referenceActor == old(referenceActor)
    {
      if firstVehicleLocation.None? || secondVehicleLocation.None? {
        return Err(AttributeError);
      }
      actorTypeList := [VehicleType, VehicleType];
      actorSpecs := ActorSpecs(firstVehicleLocation.value, secondVehicleLocation.value);
      otherActors := spawned;
      if |otherActors| == 0 {
        return Err(IndexError);
      }
      referenceActor := Some(otherActors[0]);
      r := Ok(());
    }

    /**
     * `update_behavior`: the converted triple goes unchanged to `go_straight` with the
     * flag 1. It changes no field of the scenario.
     */
    method UpdateBehavior(scenarioAction: seq<real>) returns (r: Result<MotionCommand, Exception>)
      ensures r.Ok? <==> |scenarioAction| >= 3
      ensures r.Err? ==> r.error == IndexError
      ensures r.Ok? ==> r.value.flag == 1 && |r.value.speeds| == 3
      ensures r.Ok? ==> forall i :: 0 <= i < 3 ==>
                r.value.speeds[i] == Rescale(scenarioAction[i], Ranges[i])
    {
      var converted := ConvertActions(scenarioAction);
      if converted.Err? {
        return Err(converted.error);
      }
      r := Ok(GoStraight(converted.value, 1));
    }
  }
}

# ManeuverOppositeDirection: action normaliser and scenario set-up

A Dafny model of the `ManeuverOppositeDirection` scenario of SafeBench. In this adversarial
driving scenario, a vehicle overtakes in a rural area and moves into a vehicle coming the
other way. The model covers three parts of the scenario:

- the action normaliser `convert_actions`. It rescales the first three entries of a policy
  action, nominally in [-1, 1], onto a longitudinal distance x in [40, 60] m, a gap y in
  [20, 40] m and a yaw in [6, 10] degrees. Each entry is rescaled on its own, as
  `a * (max - min) / 2 + (max + min) / 2`, and nothing is clamped. This is module
  `ActionNormalizer` in `action_normalizer.dfy`. It is computed over `real`.
- the scenario object (module `ManeuverOppositeDirection` in
  `maneuver_opposite_direction.dfy`), modelled as class `Scenario`:
  - its constants, fixed at construction: `trigger_distance_threshold = 45` and
    `ego_max_driven_distance = 200`;
  - `create_behavior`, with its init-action guard and its offset rule: the second vehicle
    sits at the first offset plus the gap;
  - `initialize_actors`, with its actor list and the choice of `other_actors[0]` as the
    reference actor;
  - `update_behavior`, which forwards the converted triple to the motion primitive.
- the Python exceptions raised along the way (IndexError, AssertionError, NameError,
  AttributeError). They are values of `Wrappers.Exception` returned in a `Result`. The
  exception type also has ValueError, which `Unpack` uses for Python's general rule for
  `x1, x2, v2 = ...` at line 79. The scenario itself never raises it: as written, line 79
  fails with NameError first, and `convert_actions` always returns three values.

The simulator calls take a different form in the model. The list of actors it spawns is
a parameter of `Scenario.InitializeActors`. The specifications handed to it, and the
command handed to `go_straight`, are kept as values.

`convert_actions` never touches `self`. It is therefore a module-level function: it reads
no state and cannot change any, and the same input always gives the same output.
`Scenario.UpdateBehavior` has no `modifies` clause, so the scenario's state is provably
unchanged by it.

## Model

| member | source | states |
|---|---|---|
| `ActionNormalizer.ConvertActions` | safebench/scenario/scenario_definition/adv_behavior_single/maneuver_opposite_direction.py:42-62 | succeeds exactly when there are at least three entries (IndexError otherwise) and returns exactly three values; output i lies in range i exactly when action i lies in [-1, 1] |
| `ActionNormalizer.RescaleAnchors` | safebench/scenario/scenario_definition/adv_behavior_single/maneuver_opposite_direction.py:43-61 | for any range, the actions -1, 0 and 1 map to the minimum, the mean and the maximum |
| `ActionNormalizer.RescaleContainedIff` | safebench/scenario/scenario_definition/adv_behavior_single/maneuver_opposite_direction.py:45-61 | for any range with min < max, the image lies in [min, max] if and only if the action lies in [-1, 1] |
| `ActionNormalizer.RescaleStrictlyIncreasing` | safebench/scenario/scenario_definition/adv_behavior_single/maneuver_opposite_direction.py:45-61 | for any range with min < max, a larger action gives a strictly larger output |
| `ActionNormalizer.RescaleAffine` | safebench/scenario/scenario_definition/adv_behavior_single/maneuver_opposite_direction.py:59-61 | shifting the action by d shifts the output by exactly d times the scale, with no clamping |
| `ActionNormalizer.RescaleRoundTrip` | safebench/scenario/scenario_definition/adv_behavior_single/maneuver_opposite_direction.py:45-61 | the affine map and its inverse undo each other in both directions |
| `ActionNormalizer.RangeTableFacts` | safebench/scenario/scenario_definition/adv_behavior_single/maneuver_opposite_direction.py:43-57 | the three ranges are proper intervals, with scales 10, 10, 2 and means 50, 30, 8 |
| `ActionNormalizer.ConvertComponent` | safebench/scenario/scenario_definition/adv_behavior_single/maneuver_opposite_direction.py:43-61 | closed form with the scenario's constants: output i is 50, 30 or 8 plus 10, 10 or 2 times action i |
| `ActionNormalizer.ConvertIndependent` | safebench/scenario/scenario_definition/adv_behavior_single/maneuver_opposite_direction.py:59-61 | two action vectors that agree at index i give the same output i, whatever their other entries |
| `ActionNormalizer.ConvertIgnoresTail` | safebench/scenario/scenario_definition/adv_behavior_single/maneuver_opposite_direction.py:59-62 | entries past index 2 do not change the result |
| `ActionNormalizer.ConvertAnchors` | safebench/scenario/scenario_definition/adv_behavior_single/maneuver_opposite_direction.py:43-61 | an action of -1, 0 or 1 at index i gives the minimum, the midpoint (50, 30, 8) or the maximum of range i |
| `ActionNormalizer.ConvertExamples` | safebench/scenario/scenario_definition/adv_behavior_single/maneuver_opposite_direction.py:43-62 | [0,0,0] gives [50,30,8], [-1,-1,-1] gives [40,20,6], [1,1,1] gives [60,40,10] |
| `ActionNormalizer.ConvertSlopes` | safebench/scenario/scenario_definition/adv_behavior_single/maneuver_opposite_direction.py:45-61 | output i changes by 10, 10 or 2 times the change in action i, so each output is strictly increasing in its input |
| `ActionNormalizer.ConvertExtrapolates` | safebench/scenario/scenario_definition/adv_behavior_single/maneuver_opposite_direction.py:59-61 | an action above 1 lands above the maximum and one below -1 below the minimum; x action 2 gives 70 and yaw action -2 gives 4 |
| `ActionNormalizer.RescaleOnto` | safebench/scenario/scenario_definition/adv_behavior_single/maneuver_opposite_direction.py:45-61 | for any range with min < max, every value in [min, max] is the image of some action in [-1, 1] |
| `ActionNormalizer.ConvertOnto` | safebench/scenario/scenario_definition/adv_behavior_single/maneuver_opposite_direction.py:42-62 | every physical triple within the three ranges is the output of some three-entry action in [-1, 1]^3 |
| `ActionNormalizer.ConvertInjective` | safebench/scenario/scenario_definition/adv_behavior_single/maneuver_opposite_direction.py:59-61 | two action vectors with the same output agree on their first three entries |
| `ManeuverOppositeDirection.Unpack` | safebench/scenario/scenario_definition/adv_behavior_single/maneuver_opposite_direction.py:79 | a list unpacks into `x1, x2, v2` exactly when it has three values, in order; otherwise ValueError |
| `ManeuverOppositeDirection.Offsets` | safebench/scenario/scenario_definition/adv_behavior_single/maneuver_opposite_direction.py:80-81 | the first offset is x1, and the second exceeds the first by exactly x2 |
| `ManeuverOppositeDirection.ActorSpecs` | safebench/scenario/scenario_definition/adv_behavior_single/maneuver_opposite_direction.py:65-72 | two nissan micra vehicles: the first at the first offset in the reference lane, the second at the second offset in the left lane |
| `ManeuverOppositeDirection.CreateBehaviorAsWritten` | safebench/scenario/scenario_definition/adv_behavior_single/maneuver_opposite_direction.py:76-81 | as written the call never succeeds: AssertionError exactly for a non-None action, NameError exactly for None |
| `ManeuverOppositeDirection.PlacementFromAction` | safebench/scenario/scenario_definition/adv_behavior_single/maneuver_opposite_direction.py:78-81 | with an in-range action decoded as the commented-out line intends, the first vehicle is 40-60 m ahead and the second 20-40 m beyond it, so strictly further ahead |
| `ManeuverOppositeDirection.PlacementOfCentreAction` | safebench/scenario/scenario_definition/adv_behavior_single/maneuver_opposite_direction.py:78-81 | the centre action places the vehicles at 50 m and 80 m |
| `ManeuverOppositeDirection.Scenario.constructor` | safebench/scenario/scenario_definition/adv_behavior_single/maneuver_opposite_direction.py:28-40 | the trigger threshold is 45 and the ego distance limit is 200, both fixed for the object's lifetime; timeout defaults to 60; no offsets and no actors yet |
| `ManeuverOppositeDirection.Scenario.CreateBehavior` | safebench/scenario/scenario_definition/adv_behavior_single/maneuver_opposite_direction.py:76-81 | a non-None init action fails with AssertionError and changes nothing; None stores x1 as the first offset and x1 + x2 as the second, and nothing else |
| `ManeuverOppositeDirection.Scenario.InitializeActors` | safebench/scenario/scenario_definition/adv_behavior_single/maneuver_opposite_direction.py:64-74 | without offsets it fails with AttributeError and changes nothing; otherwise it stores the two specs and the spawned actors, and the reference actor becomes the first spawned actor (IndexError if none) |
| `ManeuverOppositeDirection.Scenario.UpdateBehavior` | safebench/scenario/scenario_definition/adv_behavior_single/maneuver_opposite_direction.py:83-86 | sends the three converted values unchanged, with flag 1, to `go_straight`; IndexError for fewer than three entries; changes no field |

## Findings

| source | as written | input that shows it | evidently intended | confidence | as-written member | corrected member |
|---|---|---|---|---|---|---|
| safebench/scenario/scenario_definition/adv_behavior_single/maneuver_opposite_direction.py:76-81 | the assert admits only None, then line 79 unpacks `actions`, which is never bound because the conversion on line 78 is commented out | `create_behavior(None)` raises NameError; any other action raises AssertionError | with a None init action, store x1 as the first offset and x1 + x2 as the second | high (not executed) | `ManeuverOppositeDirection.CreateBehaviorAsWritten` | `ManeuverOppositeDirection.Scenario.CreateBehavior` |

`Scenario.CreateBehavior` takes the decoded triple `x1, x2, v2` as a configuration
parameter. The source gives it no other source: the guard forbids an action to decode.
Because of the defect, `initialize_actors` as written can only raise AttributeError, since
this class never sets the offsets it reads. The model sets them through the corrected method.

## Left out

- `check_stop_condition` (line 88-89) is a stub that returns None. No stop rule is modelled.
- Map and waypoint geometry is the simulator's and is not part of this model. This covers
  `CarlaDataProvider.get_map`, `get_waypoint`, `get_waypoint_in_distance` and its ignored
  residual distance, `get_left_lane` and `carla.Transform`. An actor specification keeps
  only its distance and its lane.
- Scenario.InitializeActors: does not model the AttributeError raised when there is no left lane (`get_left_lane` returns None), because lane lookup belongs to the simulator.
- `ScenarioOperation.initialize_vehicle_actors` and `go_straight` are foreign calls. The
  spawned actors are a parameter, and the motion command is returned as a value.
- The constructor's `world`, `ego_vehicle` and `config` arguments are not modelled. Neither
  are the reference waypoint, the `_first_actor_transform` and `_second_actor_transform`
  fields (always None) and the `ScenarioOperation` instance.
- `BasicScenario` is not part of this model. The constructor assumes that it leaves the
  reference actor unset (None) and `other_actors` empty until `initialize_actors` sets them.
  `actor_type_list` and the actor specifications do not exist in Python before
  `initialize_actors`; the model starts them as empty lists.
- IEEE-754 floating point: the constants, scales and means are small exact rationals, but
  `actions[i] * scale + mean` rounds in the program, and the model computes it with exact
  `real` arithmetic. The following facts therefore hold of the real-valued map only; under
  rounding the outputs are only non-strictly increasing, and nearby actions can give the
  same output (an x action of 1 + 2^-52 rounds to exactly 60, and 1e-20 and 0 both give 50).
  The exact equations (shifts, differences, inverses, closed form) hold of the real-valued
  map only as well; the anchor and example values (40, 50, 60, 70, 4, ...) are exact in
  the program too, and so are independence between dimensions and ignoring the tail.
- ActionNormalizer.ConvertActions: the "in range implies action in [-1, 1]" direction holds over `real` only, because of rounding.
- ActionNormalizer.RescaleContainedIff: the same direction holds over `real` only, because of rounding.
- ActionNormalizer.RescaleStrictlyIncreasing: strict increase holds over `real` only; rounded outputs are only non-decreasing.
- ActionNormalizer.ConvertSlopes: both ensures hold over `real` only; x actions 1e-20 and 0 both round to 50, so neither the exact difference nor the strict order holds of the program.
- ActionNormalizer.RescaleAffine: the exact shift by `d * Scale()` holds over `real` only; a = 0 and d = 1e-20 leave the rounded output at 50.
- ActionNormalizer.RescaleRoundTrip: the first ensures holds over `real` only; `Rescale(1e-20)` rounds to 50, which unscales to 0.
- ActionNormalizer.ConvertComponent: the closed form is the exact real value; the program returns it rounded.
- ActionNormalizer.RescaleOnto: holds over `real` only; not every double within a range need be a rounded output.
- ActionNormalizer.ConvertOnto: holds over `real` only, for the same reason as RescaleOnto.
- ActionNormalizer.ConvertExtrapolates: "above 1 lands above the maximum" holds over `real` only, because of rounding.
- ActionNormalizer.ConvertInjective: holds over `real` only; rounded outputs can coincide for distinct actions.

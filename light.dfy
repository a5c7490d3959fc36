/** The lights plugin: a fixed table of lights whose on/off state is
    changed in place. Each light is an object (a dict in the source), and
    get_state hands out the table itself, so a caller holding it sees later
    changes. */
module Lights {
  import opened Wrappers
  import opened Lookup

  class Light {
    const id: int
    const name: string
    var isOn: bool

    constructor (id: int, name: string, isOn: bool)
      ensures this.id == id && this.name == name && this.isOn == isOn
    {
      this.id := id;
      this.name := name;
      this.isOn := isOn;
    }
  }

  /** A light as a value: what a reader of the table sees at one moment. */
  datatype LightState = LightState(id: int, name: string, isOn: bool)

  function StatesOf(ls: seq<Light>): (r: seq<LightState>)
    reads ls
    ensures |r| == |ls|
    ensures forall k :: 0 <= k < |ls| ==> r[k] == LightState(ls[k].id, ls[k].name, ls[k].isOn)
  {
    if ls == [] then [] else [LightState(ls[0].id, ls[0].name, ls[0].isOn)] + StatesOf(ls[1..])
  }

  /** The table as the class body writes it. */
  const InitialLights: seq<LightState> := [
    LightState(1, "Table Lamp", false),
    LightState(2, "Porch light", false),
    LightState(3, "Chandelier", true)
  ]

  /** The test change_state applies to each light. */
  function HasId(id: int): LightState -> bool
  {
    (light: LightState) => light.id == id
  }

  /** The table after change_state(id, isOn). */
  function Changed(states: seq<LightState>, id: int, isOn: bool): seq<LightState>
  {
    match FirstWhere(states, HasId(id))
    case None => states
    case Some(k) => states[k := states[k].(isOn := isOn)]
  }

  class LightsPlugin {
    const lights: seq<Light>

    /** The table holds distinct light objects, so switching one leaves the
        others as they were. */
    ghost predicate Valid()
      reads this
    {
      forall i, j :: 0 <= i < j < |lights| ==> lights[i] != lights[j]
    }

    function Snapshot(): seq<LightState>
      reads this, lights
    {
      StatesOf(lights)
    }

    constructor ()
      ensures Valid()
      ensures Snapshot() == InitialLights
      ensures forall k :: 0 <= k < |lights| ==> fresh(lights[k])
    {
      var lamp := new Light(1, "Table Lamp", false);
      var porch := new Light(2, "Porch light", false);
      var chandelier := new Light(3, "Chandelier", true);
      lights := [lamp, porch, chandelier];
    }

    /** get_state returns the table itself, not a copy. */
    method GetState() returns (r: seq<Light>)
      ensures r == lights
      ensures StatesOf(r) == Snapshot()
    {
      r := lights;
    }

    /** change_state: switch the first light with this id and return it, or
        return None when no light has it. */
    method ChangeState(id: int, isOn: bool) returns (r: Light?)
      requires Valid()
      modifies lights
      ensures Valid()
      ensures Snapshot() == Changed(old(Snapshot()), id, isOn)
      ensures FirstWhere(old(Snapshot()), HasId(id)).None? ==> r == null
      ensures FirstWhere(old(Snapshot()), HasId(id)).Some? ==> r == lights[FirstWhere(old(Snapshot()), HasId(id)).value]
    {
      ghost var before := Snapshot();
      for i := 0 to |lights|
        invariant Snapshot() == before
        invariant forall k :: 0 <= k < i ==> before[k].id != id
      {
        var light := lights[i];
        if light.id == id {
          light.isOn := isOn;
          assert FirstWhere(before, HasId(id)) == Some(i);
          forall k | 0 <= k < |lights| ensures Snapshot()[k] == before[i := before[i].(isOn := isOn)][k] {
            if k != i {
              assert lights[k] != lights[i];
            }
          }
          return light;
        }
      }
      return null;
    }
  }

  // ----- what change_state does to the table

  /** The table keeps its length and every light its id and name; the first
      light with the id, and only it, takes the new state. An unknown id
      changes nothing. */
  lemma ChangedOnlyFirstMatch(states: seq<LightState>, id: int, isOn: bool)
    ensures var after := Changed(states, id, isOn);
      && |after| == |states|
      && (forall k :: 0 <= k < |states| ==> after[k].id == states[k].id && after[k].name == states[k].name)
      && (forall k :: 0 <= k < |states| && Some(k) != FirstWhere(states, HasId(id)) ==> after[k] == states[k])
      && (FirstWhere(states, HasId(id)).Some? ==> after[FirstWhere(states, HasId(id)).value].isOn == isOn)
      && ((forall k :: 0 <= k < |states| ==> states[k].id != id) ==> after == states)
  {
  }

  /** Switching a light twice to the same state is switching it once, and a
      later change of the same light overrides an earlier one. */
  lemma ChangedLastWins(states: seq<LightState>, id: int, first: bool, second: bool)
    ensures Changed(Changed(states, id, first), id, second) == Changed(states, id, second)
  {
    var once := Changed(states, id, first);
    match FirstWhere(states, HasId(id))
    case None =>
    case Some(k) =>
      assert forall j :: 0 <= j < |states| ==> once[j].id == states[j].id;
      FirstWhereSameTests(states, once, HasId(id));
  }

  /** The initial table: lights 1, 2 and 3, only the chandelier on. */
  lemma InitialLightsLookup()
    ensures FirstWhere(InitialLights, HasId(1)) == Some(0)
    ensures FirstWhere(InitialLights, HasId(2)) == Some(1)
    ensures FirstWhere(InitialLights, HasId(3)) == Some(2)
    ensures FirstWhere(InitialLights, HasId(4)) == None
    ensures Changed(InitialLights, 2, true)
         == [LightState(1, "Table Lamp", false), LightState(2, "Porch light", true), LightState(3, "Chandelier", true)]
  {
    assert FirstWhere(InitialLights, HasId(2)) == Some(1);
  }

  /** A table obtained from get_state before a change shows the change
      afterwards: it is the same list of the same light objects. */
  method StateIsShared() returns (seen: seq<LightState>, returned: LightState)
    ensures seen == [LightState(1, "Table Lamp", false), LightState(2, "Porch light", true), LightState(3, "Chandelier", true)]
    ensures returned == LightState(2, "Porch light", true)
  {
    var plugin := new LightsPlugin();
    var table := plugin.GetState();
    var light := plugin.ChangeState(2, true);
    InitialLightsLookup();
    seen := StatesOf(table);
    returned := LightState(light.id, light.name, light.isOn);
  }
}

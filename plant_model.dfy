/**
 * The toy plant's state and its sensor and actuator bindings: one scalar
 * state read by both sensors, one valve written by every valve-like
 * actuator, and a factory that accepts legacy parameter names.
 */
module PlantModel {
  import opened Wrappers
  import opened Json

  /** `clamp(x, lo, hi)`: `max(lo, min(hi, x))`. */
  function Clamp(x: real, lo: real, hi: real): (r: real)
    ensures lo <= hi ==> lo <= r <= hi
    ensures lo <= x <= hi ==> r == x
    ensures lo <= hi && x < lo ==> r == lo
    ensures lo <= hi && hi < x ==> r == hi
    ensures hi < lo ==> r == lo
  {
    var m := if hi <= x then hi else x;
    if lo >= m then lo else m
  }

  /** Clamping twice is clamping once. */
  lemma ClampIdempotent(x: real, lo: real, hi: real)
    requires lo <= hi
    ensures Clamp(Clamp(x, lo, hi), lo, hi) == Clamp(x, lo, hi)
  {
  }

  /** The plant's state; its dynamics are not part of this model. */
  class PlantSim {
    var t: real
    var tAmbient: real
    var valve: real
    var kCool: real
    var kHeat: real

    constructor (t: real, tAmbient: real, valve: real, kCool: real, kHeat: real)
      ensures this.t == t && this.tAmbient == tAmbient && this.valve == valve
      ensures this.kCool == kCool && this.kHeat == kHeat
    {
      this.t := t;
      this.tAmbient := tAmbient;
      this.valve := valve;
      this.kCool := kCool;
      this.kHeat := kHeat;
    }
  }

  /** Noise-free sensors: temperature and pressure both read the one scalar state. */
  class Sensors {
    const plant: PlantSim

    constructor (plant: PlantSim)
      ensures this.plant == plant
    {
      this.plant := plant;
    }

    method ReadTemp() returns (v: real)
      ensures v == plant.t
    {
      v := plant.t;
    }

    /** The pressure demo reuses the temperature state. */
    method ReadPressure() returns (v: real)
      ensures v == plant.t
    {
      v := plant.t;
    }

    method ReadP() returns (v: real)
      ensures v == plant.t
    {
      v := ReadPressure();
    }
  }

  /** A positional-argument count other than one or two. */
  const WrongArity := "TypeError: expects (u) or (name, u)"
  /** The valve opening is not a number. */
  const NotANumber := "ValueError: could not convert to float"

  class Actuators {
    const plant: PlantSim

    constructor (plant: PlantSim)
      ensures this.plant == plant
    {
      this.plant := plant;
    }

    /** The only valve: whatever its name, the opening is clamped to [0, 1]. */
    method OpenValve(name: string, u: real)
      modifies plant
      ensures plant.valve == Clamp(u, 0.0, 1.0) && 0.0 <= plant.valve <= 1.0
      ensures plant.t == old(plant.t) && plant.tAmbient == old(plant.tAmbient)
      ensures plant.kCool == old(plant.kCool) && plant.kHeat == old(plant.kHeat)
    {
      plant.valve := Clamp(u, 0.0, 1.0);
    }

    /**
     * `open_relief(*args)` and `open_vent(*args)`: the opening is the last
     * of one or two positional arguments (a leading name is ignored); any
     * other count raises and leaves the valve as it was.
     */
    method OpenRelief(args: seq<Json>) returns (err: Option<string>)
      modifies plant
      ensures err.None? <==> (|args| == 1 || |args| == 2) && PyFloat(args[|args| - 1]).Some?
      ensures !(|args| == 1 || |args| == 2) ==> err == Some(WrongArity)
      ensures err.None? ==> plant.valve == Clamp(PyFloat(args[|args| - 1]).value, 0.0, 1.0)
      ensures err.Some? ==> plant.valve == old(plant.valve)
      ensures plant.t == old(plant.t) && plant.tAmbient == old(plant.tAmbient)
      ensures plant.kCool == old(plant.kCool) && plant.kHeat == old(plant.kHeat)
    {
      if |args| != 1 && |args| != 2 {
        return Some(WrongArity);
      }
      var u := PyFloat(args[|args| - 1]);
      if u.None? {
        return Some(NotANumber);
      }
      OpenValve("relief", u.value);
      err := None;
    }

    method OpenVent(args: seq<Json>) returns (err: Option<string>)
      modifies plant
      ensures err.None? <==> (|args| == 1 || |args| == 2) && PyFloat(args[|args| - 1]).Some?
      ensures !(|args| == 1 || |args| == 2) ==> err == Some(WrongArity)
      ensures err.None? ==> plant.valve == Clamp(PyFloat(args[|args| - 1]).value, 0.0, 1.0)
      ensures err.Some? ==> plant.valve == old(plant.valve)
      ensures plant.t == old(plant.t) && plant.tAmbient == old(plant.tAmbient)
      ensures plant.kCool == old(plant.kCool) && plant.kHeat == old(plant.kHeat)
    {
      err := OpenRelief(args);
    }

    /** `set_valve(name, u)`: the same as opening the valve. */
    method SetValve(name: string, u: real)
      modifies plant
      ensures plant.valve == Clamp(u, 0.0, 1.0) && 0.0 <= plant.valve <= 1.0
      ensures plant.t == old(plant.t) && plant.tAmbient == old(plant.tAmbient)
      ensures plant.kCool == old(plant.kCool) && plant.kHeat == old(plant.kHeat)
    {
      OpenValve(name, u);
    }

    /** `set_relief(name, u)`: the same as opening the valve. */
    method SetRelief(name: string, u: real)
      modifies plant
      ensures plant.valve == Clamp(u, 0.0, 1.0) && 0.0 <= plant.valve <= 1.0
      ensures plant.t == old(plant.t) && plant.tAmbient == old(plant.tAmbient)
      ensures plant.kCool == old(plant.kCool) && plant.kHeat == old(plant.kHeat)
    {
      OpenValve(name, u);
    }

    /** The heater is not modelled by the unified plant: nothing changes. */
    method SetHeaterPower(p: real)
      modifies plant
      ensures plant.valve == old(plant.valve) && plant.t == old(plant.t)
      ensures plant.tAmbient == old(plant.tAmbient)
      ensures plant.kCool == old(plant.kCool) && plant.kHeat == old(plant.kHeat)
    {
    }
  }

  /**
   * The value of the first given alias, in order of precedence, or the
   * default when none is given.
   */
  function FirstGiven(aliases: seq<Option<real>>, default: real): (r: real)
    ensures (forall i | 0 <= i < |aliases| :: aliases[i].None?) ==> r == default
    ensures forall i | 0 <= i < |aliases| && aliases[i].Some? ::
      (forall j | 0 <= j < i :: aliases[j].None?) ==> r == aliases[i].value
  {
    if aliases == [] then default
    else if aliases[0].Some? then aliases[0].value
    else FirstGiven(aliases[1..], default)
  }

  lemma PrecedenceOfThree(a: Option<real>, b: Option<real>, c: Option<real>, default: real)
    ensures FirstGiven([a, b, c], default)
      == if a.Some? then a.value else if b.Some? then b.value else if c.Some? then c.value else default
  {
    assert [a, b, c][1..] == [b, c] && [b, c][1..] == [c] && [c][1..] == [];
    assert FirstGiven([c], default) == if c.Some? then c.value else default;
    assert FirstGiven([b, c], default) == if b.Some? then b.value else FirstGiven([c], default);
  }

  /**
   * `make_plant`: the state from `T`, else `temp`, else `pressure`, else
   * 85.0; the ambient value from `T_ambient`, else `T_env`, else `p_env`,
   * else 25.0. `p` and `p_ambient` are accepted and never read.
   */
  method MakePlant(temp: Option<real>, T: Option<real>, tEnv: Option<real>, tAmbient: Option<real>,
                   pressure: Option<real>, p: Option<real>, pEnv: Option<real>, pAmbient: Option<real>,
                   valve: real, kCool: real, kHeat: real)
    returns (plant: PlantSim)
    ensures fresh(plant)
    ensures plant.t == FirstGiven([T, temp, pressure], 85.0)
    ensures plant.tAmbient == FirstGiven([tAmbient, tEnv, pEnv], 25.0)
    ensures plant.valve == valve && plant.kCool == kCool && plant.kHeat == kHeat
  {
    var t: real;
    if T.Some? {
      t := T.value;
    } else if temp.Some? {
      t := temp.value;
    } else if pressure.Some? {
      t := pressure.value;
    } else {
      t := 85.0;
    }
    var ambient: real;
    if tAmbient.Some? {
      ambient := tAmbient.value;
    } else if tEnv.Some? {
      ambient := tEnv.value;
    } else if pEnv.Some? {
      ambient := pEnv.value;
    } else {
      ambient := 25.0;
    }
    PrecedenceOfThree(T, temp, pressure, 85.0);
    PrecedenceOfThree(tAmbient, tEnv, pEnv, 25.0);
    plant := new PlantSim(t, ambient, valve, kCool, kHeat);
  }
}

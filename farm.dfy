/** The farm orchestrator of floris/simulation/farm.py and the in-place
    state it updates: the wake's model pair, the flow field's grid
    resolution and the turbines' yaw angles. FlowField, TurbineMap, Turbine
    and Wake are collaborators whose own code is not part of this model;
    they appear only with the fields the farm reads or writes. */
module Simulation {
  import opened Wrappers
  import opened WakeModels
  import opened YawAssignment

  /** An opaque grid-resolution descriptor: what a velocity model's
      `model_grid_resolution` holds is not part of this model. */
  datatype Resolution = Resolution(descriptor: seq<int>)

  /** The `properties` record of the farm's input dictionary. */
  datatype Properties = Properties(
    windSpeed: real,
    windDirection: real,
    turbulenceIntensity: real,
    windShear: real,
    windVeer: real,
    airDensity: real,
    layoutX: seq<real>,
    layoutY: seq<real>)

  /** The farm's input dictionary: a description and the properties. */
  datatype Instance = Instance(description: string, properties: Properties)

  /** Errors `set_wake_model` raises. */
  datatype FarmError = InvalidWakeModel(message: string)

  /** The message of the exception raised for an unknown wake model name. */
  const InvalidWakeModelMessage: string :=
    "Invalid wake model. Valid options include: curl, gauss, jensen, floris."

  /** A turbine: its yaw angle, which the farm sets, and the rest of its
      configuration, which the farm only copies. */
  class Turbine {
    var yawAngle: real
    var attributes: map<string, real>

    constructor (yawAngle: real, attributes: map<string, real>)
      ensures this.yawAngle == yawAngle && this.attributes == attributes
    {
      this.yawAngle := yawAngle;
      this.attributes := attributes;
    }

    /** `copy.deepcopy(turbine)`: a new object with equal contents. */
    method DeepCopy() returns (t: Turbine)
      ensures fresh(t)
      ensures t.yawAngle == yawAngle && t.attributes == attributes
    {
      t := new Turbine(yawAngle, attributes);
    }
  }

  /** No turbine object appears twice in the list. */
  ghost predicate Distinct(ts: seq<Turbine>)
  {
    forall i, j :: 0 <= i < j < |ts| ==> ts[i] != ts[j]
  }

  /** The yaw angles of `ts`, in list order. */
  function YawsOf(ts: seq<Turbine>): seq<real>
    reads ts
  {
    seq(|ts|, i requires 0 <= i < |ts| reads ts => ts[i].yawAngle)
  }

  /** `[copy.deepcopy(turbine) for ii in range(count)]`: `count` new
      turbines, each a separate copy of the template. */
  method CopyTurbines(template: Turbine, count: nat) returns (ts: seq<Turbine>)
    ensures |ts| == count
    ensures Distinct(ts)
    ensures forall i :: 0 <= i < count ==>
      fresh(ts[i]) && ts[i].yawAngle == template.yawAngle && ts[i].attributes == template.attributes
  {
    ts := [];
    while |ts| < count
      invariant |ts| <= count
      invariant Distinct(ts)
      invariant forall i :: 0 <= i < |ts| ==>
        fresh(ts[i]) && ts[i].yawAngle == template.yawAngle && ts[i].attributes == template.attributes
    {
      var t := template.DeepCopy();
      ts := ts + [t];
    }
  }

  /** The turbine map: the layout coordinates and the turbine list, in
      order. How it pairs coordinates with turbines is not modelled. */
  class TurbineMap {
    const layoutX: seq<real>
    const layoutY: seq<real>
    const turbines: seq<Turbine>

    constructor (layoutX: seq<real>, layoutY: seq<real>, turbines: seq<Turbine>)
      ensures this.layoutX == layoutX && this.layoutY == layoutY && this.turbines == turbines
    {
      this.layoutX := layoutX;
      this.layoutY := layoutY;
      this.turbines := turbines;
    }
  }

  /** The wake configuration: the current model pair, and the grid
      resolution each velocity model asks for (`model_grid_resolution`,
      supplied by model objects whose code is not part of this model). */
  class Wake {
    var velocityModel: VelocityModel
    var deflectionModel: DeflectionModel
    const gridResolution: VelocityModel -> Resolution

    constructor (velocityModel: VelocityModel, deflectionModel: DeflectionModel,
                 gridResolution: VelocityModel -> Resolution)
      ensures this.velocityModel == velocityModel && this.deflectionModel == deflectionModel
      ensures this.gridResolution == gridResolution
    {
      this.velocityModel := velocityModel;
      this.deflectionModel := deflectionModel;
      this.gridResolution := gridResolution;
    }
  }

  /** The flow field: ambient conditions, the turbine map, the wake it
      shares with the farm, and the resolution its grid was last built at.
      `reinitializations` counts the rebuilds requested since construction. */
  class FlowField {
    const windSpeed: real
    const windDirection: real
    const windShear: real
    const windVeer: real
    const turbulenceIntensity: real
    const airDensity: real
    const turbineMap: TurbineMap
    const wake: Wake
    var resolution: Resolution
    ghost var reinitializations: nat

    /** Builds the grid at the resolution of the wake's current velocity model. */
    constructor (windSpeed: real, windDirection: real, windShear: real, windVeer: real,
                 turbulenceIntensity: real, airDensity: real,
                 turbineMap: TurbineMap, wake: Wake)
      ensures this.windSpeed == windSpeed && this.windDirection == windDirection
      ensures this.windShear == windShear && this.windVeer == windVeer
      ensures this.turbulenceIntensity == turbulenceIntensity && this.airDensity == airDensity
      ensures this.turbineMap == turbineMap && this.wake == wake
      ensures resolution == wake.gridResolution(wake.velocityModel)
      ensures reinitializations == 0
    {
      this.windSpeed := windSpeed;
      this.windDirection := windDirection;
      this.windShear := windShear;
      this.windVeer := windVeer;
      this.turbulenceIntensity := turbulenceIntensity;
      this.airDensity := airDensity;
      this.turbineMap := turbineMap;
      this.wake := wake;
      this.resolution := wake.gridResolution(wake.velocityModel);
      this.reinitializations := 0;
    }

    /** `reinitialize_flow_field(with_resolution=...)`: rebuilds the grid at
        the given resolution (the grid arrays themselves are not modelled). */
    method ReinitializeFlowField(withResolution: Resolution)
      modifies this
      ensures resolution == withResolution
      ensures reinitializations == old(reinitializations) + 1
    {
      resolution := withResolution;
      reinitializations := reinitializations + 1;
    }
  }

  /** The farm: a description and the flow field it assembles. */
  class Farm {
    const description: string
    const wake: Wake
    const flowField: FlowField

    /** The farm's consistency invariant: the flow field shares the farm's
        wake, each turbine is a separate object, and the grid is built at
        the resolution the current velocity model asks for. */
    ghost predicate Valid()
      reads this, wake, flowField
    {
      flowField.wake == wake
      && Distinct(Turbines())
      && flowField.resolution == wake.gridResolution(wake.velocityModel)
    }

    /** `Farm(instance_dictionary, turbine, wake)`. */
    constructor (instance: Instance, turbine: Turbine, wake: Wake)
      ensures Valid()
      ensures description == instance.description
      ensures this.wake == wake && fresh(flowField) && fresh(flowField.turbineMap)
      ensures WindSpeed() == instance.properties.windSpeed
      ensures WindDirection() == instance.properties.windDirection
      ensures WindShear() == instance.properties.windShear
      ensures WindVeer() == instance.properties.windVeer
      ensures TurbulenceIntensity() == instance.properties.turbulenceIntensity
      ensures AirDensity() == instance.properties.airDensity
      ensures GetTurbineMap().layoutX == instance.properties.layoutX
      ensures GetTurbineMap().layoutY == instance.properties.layoutY
      ensures |Turbines()| == |instance.properties.layoutX|
      ensures forall i :: 0 <= i < |Turbines()| ==>
        fresh(Turbines()[i])
        && Turbines()[i].yawAngle == turbine.yawAngle
        && Turbines()[i].attributes == turbine.attributes
      ensures flowField.reinitializations == 0
    {
      description := instance.description;
      var properties := instance.properties;
      this.wake := wake;
      var turbines := CopyTurbines(turbine, |properties.layoutX|);
      var turbineMap := new TurbineMap(properties.layoutX, properties.layoutY, turbines);
      flowField := new FlowField(
        properties.windSpeed, properties.windDirection, properties.windShear,
        properties.windVeer, properties.turbulenceIntensity, properties.airDensity,
        turbineMap, wake);
    }

    /** `__str__`: description, velocity model and deflection model. */
    function ToString(): string
      reads flowField.wake
    {
      Summary(description, flowField.wake.velocityModel, flowField.wake.deflectionModel)
    }

    /** `set_wake_model(wake_model)`: reject an unknown name before touching
        anything; otherwise install the name's (velocity, deflection) pair on
        the shared wake and rebuild the flow field once at the resolution the
        new velocity model asks for. */
    method SetWakeModel(name: string) returns (outcome: Outcome<FarmError>)
      requires Valid()
      modifies flowField.wake, flowField
      ensures Valid()
      ensures outcome.Fail? <==> name !in ValidWakeModels
      ensures outcome.Fail? ==>
        outcome.error == InvalidWakeModel(InvalidWakeModelMessage)
        && wake.velocityModel == old(wake.velocityModel)
        && wake.deflectionModel == old(wake.deflectionModel)
        && flowField.resolution == old(flowField.resolution)
        && flowField.reinitializations == old(flowField.reinitializations)
      ensures outcome.Pass? ==>
        ParseWakeModel(name).Some?
        && (wake.velocityModel, wake.deflectionModel) == PairFor(ParseWakeModel(name).value)
        && flowField.resolution == wake.gridResolution(wake.velocityModel)
        && flowField.reinitializations == old(flowField.reinitializations) + 1
    {
      var parsed := ParseWakeModel(name);
      if parsed.None? {
        return Fail(InvalidWakeModel(InvalidWakeModelMessage));
      }
      var shared := flowField.wake;
      match parsed.value {
        case Jensen =>
          shared.velocityModel := JensenVelocity;
          shared.deflectionModel := Jimenez;
        case Floris =>
          shared.velocityModel := FlorisVelocity;
          shared.deflectionModel := FlorisDeflection;
        case Gauss =>
          shared.velocityModel := GaussVelocity;
          shared.deflectionModel := GaussDeflection;
        case Curl =>
          shared.velocityModel := CurlVelocity;
          shared.deflectionModel := CurlDeflection;
      }
      flowField.ReinitializeFlowField(shared.gridResolution(shared.velocityModel));
      outcome := Pass;
    }

    /** `set_yaw_angles(yaw_angles)`: broadcast a scalar, then set each
        turbine's yaw angle in list order until the angles or the turbines
        run out. Nothing but yaw angles changes and no error is raised. */
    method SetYawAngles(input: YawInput)
      requires Valid()
      modifies Turbines()
      ensures Valid()
      ensures YawsOf(Turbines()) == Zipped(old(YawsOf(Turbines())), AngleList(input, |Turbines()|))
      ensures forall t :: t in Turbines() ==> t.attributes == old(t.attributes)
    {
      var turbines := Turbines();
      var angles := AngleList(input, |turbines|);
      ghost var before := YawsOf(turbines);
      var i := 0;
      while i < |angles| && i < |turbines|
        invariant 0 <= i <= |turbines| && i <= |angles|
        invariant forall k :: 0 <= k < i ==> turbines[k].yawAngle == angles[k]
        invariant forall k :: i <= k < |turbines| ==> turbines[k].yawAngle == before[k]
        invariant forall t :: t in turbines ==> t.attributes == old(t.attributes)
      {
        turbines[i].yawAngle := angles[i];
        i := i + 1;
      }
      ZippedPointwise(before, angles);
    }

    function WindSpeed(): real { flowField.windSpeed }
    function WindDirection(): real { flowField.windDirection }
    function WindShear(): real { flowField.windShear }
    function WindVeer(): real { flowField.windVeer }
    function TurbulenceIntensity(): real { flowField.turbulenceIntensity }
    function AirDensity(): real { flowField.airDensity }
    function GetTurbineMap(): TurbineMap { flowField.turbineMap }
    function Turbines(): seq<Turbine> { flowField.turbineMap.turbines }
  }

  /** What a caller can conclude about model switching from the contracts
      alone: a rejected name changes nothing, "jensen" installs
      jensen/jimenez and rebuilds the grid at jensen's resolution. */
  method WakeScenario(instance: Instance, turbine: Turbine, wake: Wake)
    modifies wake
  {
    var farm := new Farm(instance, turbine, wake);
    var before := farm.flowField.resolution;
    var outcome := farm.SetWakeModel("not_a_model");
    assert outcome == Fail(InvalidWakeModel(InvalidWakeModelMessage));
    assert farm.flowField.resolution == before;

    outcome := farm.SetWakeModel("jensen");
    assert outcome.Pass?;
    assert wake.velocityModel == JensenVelocity && wake.deflectionModel == Jimenez;
    assert farm.flowField.resolution == wake.gridResolution(JensenVelocity);
    assert farm.ToString() == Summary(instance.description, JensenVelocity, Jimenez);
  }

  /** What a caller can conclude about yaw assignment from the contracts
      alone, on a three-turbine farm: a scalar reaches every turbine, a
      two-element list only the first two, and turbines are independent. */
  method YawScenario(farm: Farm)
    requires farm.Valid() && |farm.Turbines()| == 3
    modifies farm.Turbines()
  {
    ghost var yaws := YawsOf(farm.Turbines());
    farm.SetYawAngles(Uniform(5.0));
    UniformSetsAll(yaws, 5.0);
    assert YawsOf(farm.Turbines())[2] == 5.0;

    yaws := YawsOf(farm.Turbines());
    farm.SetYawAngles(PerTurbine([1.0, 2.0]));
    ZippedAt(yaws, [1.0, 2.0], 0);
    ZippedAt(yaws, [1.0, 2.0], 1);
    ZippedAt(yaws, [1.0, 2.0], 2);
    assert YawsOf(farm.Turbines())[0] == 1.0 && YawsOf(farm.Turbines())[1] == 2.0;
    assert YawsOf(farm.Turbines())[2] == 5.0;

    farm.Turbines()[0].yawAngle := 7.0;
    assert farm.Turbines()[1].yawAngle == 2.0 && farm.Turbines()[2].yawAngle == 5.0;
  }
}

# FLORIS farm orchestrator, modelled in Dafny

This project models `Farm`, the container class of the FLORIS wind-farm wake
simulation (floris/simulation/farm.py). A farm is built from an input
dictionary (a description and wind/layout properties), a turbine template and
a wake configuration. It owns a flow field, which holds the ambient wind
properties, the turbine map and the same wake object. After construction the
farm changes state in two ways:

- `set_wake_model(name)` accepts one of the four names `curl`, `gauss`,
  `jensen`, `floris`. It installs that name's fixed (velocity model,
  deflection model) pair on the shared wake. It then rebuilds the flow-field
  grid at the resolution the new velocity model asks for. Any other name
  raises before anything is assigned.
- `set_yaw_angles(v)` broadcasts a scalar to every turbine, or pairs a list
  of angles with the turbines through `zip`. Pairing stops at the shorter of
  the two, and no error is raised on a length mismatch.

Files:

- `wrappers.dfy` — `Option` and `Outcome`.
- `wake_models.dfy` (module `WakeModels`) — the accepted names, the parse of
  a name, the name-to-pair table, and the three-line text of `__str__`.
- `yaw.dfy` (module `YawAssignment`) — `set_yaw_angles` on values: the
  scalar broadcast (`AngleList`) and the `zip` pairing (`Zipped`), with
  lemmas on what each turbine ends up with.
- `farm.dfy` (module `Simulation`) — classes `Turbine`, `TurbineMap`, `Wake`,
  `FlowField` and `Farm`. Their fields are updated in place as in the source.
  `Farm.Valid()` is the farm's invariant: the flow field shares the farm's
  wake, no turbine object appears twice, and the grid resolution equals the
  resolution the current velocity model asks for. `SetWakeModel` and
  `SetYawAngles` preserve it. `SetYawAngles` is a loop proved against
  `Zipped`. `WakeScenario` and `YawScenario` are clients that derive the
  documented examples from the contracts alone.

The read-only properties (`wind_speed`, `wind_direction`, `wind_shear`,
`wind_veer`, `turbulence_intensity`, `air_density`, `turbine_map`, `turbines`,
farm.py:139-225) are the functions `Farm.WindSpeed` … `Farm.Turbines`. Each
returns a field of the flow field. The constructor's contract says what they
return after construction. No method changes the fields they read, except
for the yaw angles reached through `Turbines`.

Numbers (wind properties, coordinates, yaw angles) are `real`. The farm only
stores and copies them and does no arithmetic on them.

Where the design documentation of this layer and farm.py differ, the model
follows farm.py:

- The documentation asks for a ShapeMismatch error when a yaw list's length
  differs from the turbine count. farm.py raises nothing and truncates
  through `zip`. `SetYawAngles` has no error path.
- The documentation asks for a ShapeMismatch error when `layout_x` and
  `layout_y` differ in length. farm.py never compares them. The model builds
  one turbine per `layout_x` entry and stores `layout_y` as given.
- The documentation names the error for an unknown wake model
  InvalidConfiguration. farm.py raises a plain `Exception` with the message
  `Invalid wake model. Valid options include: curl, gauss, jensen, floris.`
  The model returns `Fail(InvalidWakeModel(<that message>))`.
- The docstring of `set_yaw_angles` says the method optionally calculates
  the new wake velocities and updates them in the flow field. Its body only
  assigns yaw angles. `SetYawAngles` leaves the flow field out of its
  `modifies` frame, so the flow field is unchanged after it.

## Model

| member | source | states |
|---|---|---|
| `WakeModels.ParseWakeModel` | floris/simulation/farm.py:98-113 | A name is accepted exactly when it is one of the four valid identifiers, and an accepted name is recognised as the model it spells |
| `WakeModels.ParseIdentifier` | floris/simulation/farm.py:98-113 | Parsing the identifier of any of the four models gives that model back |
| `WakeModels.IdentifierInjective` | floris/simulation/farm.py:98 | The four accepted identifiers are distinct, so each names one model |
| `WakeModels.PairFor` | floris/simulation/farm.py:102-113 | The installed deflection model is always the one paired with the installed velocity model |
| `WakeModels.DocumentedPairs` | floris/simulation/farm.py:102-113 | jensen → jensen/jimenez, floris → floris/floris, gauss → gauss/gauss_deflection, curl → curl/curl |
| `WakeModels.PairForInjective` | floris/simulation/farm.py:102-113 | Distinct names install distinct velocity models, so the velocity model alone tells which name was chosen |
| `WakeModels.Summary` | floris/simulation/farm.py:80-84 | No contract of its own: the three lines `Description: …`, `Wake Model: …`, `Deflection Model: …`, each ending in a line break; what it guarantees is stated by `SummaryIdentifiesModels` |
| `Simulation.Farm.ToString` | floris/simulation/farm.py:80-84 | No contract of its own: `Summary` of the description and the shared wake's current velocity and deflection models |
| `WakeModels.SummaryIdentifiesModels` | floris/simulation/farm.py:80-84 | For a fixed description, the summary text determines the current velocity and deflection models |
| `Simulation.Farm.SetWakeModel` | floris/simulation/farm.py:86-115 | An unknown name fails with the source's message and leaves the model pair, the resolution and the rebuild count unchanged. A valid name installs its documented pair on the shared wake and rebuilds the grid exactly once, at the new velocity model's resolution. The farm invariant is kept |
| `Simulation.FlowField.ReinitializeFlowField` | floris/simulation/farm.py:115 | The grid is rebuilt at the requested resolution, and the rebuild is counted once |
| `YawAssignment.Zipped` | floris/simulation/farm.py:134-135 | No contract of its own: one `zip` step per element, until the angles or the turbines run out; its meaning is stated by `ZippedAt`, `SurplusIgnored`, `FullLengthReplaces` and `ZippedIdempotent` |
| `Simulation.Farm.SetYawAngles` | floris/simulation/farm.py:118-135 | The yaw angles become `Zipped(old yaws, AngleList(input, turbine count))`. Only yaw angles change: other turbine attributes, the turbine list, the wake and the flow field do not. The farm invariant is kept |
| `YawAssignment.AngleList` | floris/simulation/farm.py:131-132 | A scalar becomes a list with one copy per turbine; a sequence is used unchanged |
| `YawAssignment.ZippedAt` | floris/simulation/farm.py:134-135 | Turbine k gets the k-th angle when there is one and keeps its previous yaw otherwise; the turbine count is unchanged |
| `YawAssignment.ZippedLength` | floris/simulation/farm.py:134-135 | Pairing angles with turbines never changes the number of turbines |
| `YawAssignment.ZippedPointwise` | floris/simulation/farm.py:134-135 | The per-index outcome of `ZippedAt`, for all indices at once |
| `YawAssignment.UniformSetsAll` | floris/simulation/farm.py:131-135 | A scalar argument leaves every turbine at that angle, whatever the previous yaws |
| `YawAssignment.SurplusIgnored` | floris/simulation/farm.py:134 | Angles beyond the last turbine have no effect |
| `YawAssignment.FullLengthReplaces` | floris/simulation/farm.py:134-135 | A list exactly as long as the turbine list replaces every yaw, in turbine order |
| `YawAssignment.ZippedIdempotent` | floris/simulation/farm.py:134-135 | Assigning the same angles twice has the same effect as assigning them once |
| `Simulation.Farm.constructor` | floris/simulation/farm.py:59-78 | The description and wind properties are stored verbatim, and the layout lists are handed to the turbine map. There is exactly one new turbine per `layout_x` entry, each a separate copy of the template. The flow field shares the given wake, and the farm invariant holds |
| `Simulation.Farm.WindSpeed` | floris/simulation/farm.py:139-147 | No contract of its own: returns the flow field's wind speed, which no method changes; the constructor's ensures fixes it to the input's `windSpeed` |
| `Simulation.Farm.WindDirection` | floris/simulation/farm.py:150-158 | No contract of its own: returns the flow field's wind direction, which no method changes; the constructor's ensures fixes it to the input's `windDirection` |
| `Simulation.Farm.WindShear` | floris/simulation/farm.py:161-169 | No contract of its own: returns the flow field's wind shear exponent, which no method changes; the constructor's ensures fixes it to the input's `windShear` |
| `Simulation.Farm.WindVeer` | floris/simulation/farm.py:172-180 | No contract of its own: returns the flow field's wind veer, which no method changes; the constructor's ensures fixes it to the input's `windVeer` |
| `Simulation.Farm.TurbulenceIntensity` | floris/simulation/farm.py:183-191 | No contract of its own: returns the flow field's turbulence intensity, which no method changes; the constructor's ensures fixes it to the input's `turbulenceIntensity` |
| `Simulation.Farm.AirDensity` | floris/simulation/farm.py:194-202 | No contract of its own: returns the flow field's air density, which no method changes; the constructor's ensures fixes it to the input's `airDensity` |
| `Simulation.Farm.GetTurbineMap` | floris/simulation/farm.py:205-213 | No contract of its own: returns the flow field's turbine map; the constructor's ensures fixes its layout lists to the input's |
| `Simulation.Farm.Turbines` | floris/simulation/farm.py:216-225 | No contract of its own: returns the turbine map's turbine list; the constructor's ensures gives its length, freshness and contents, and `Farm.Valid()` says no turbine appears twice |
| `Simulation.CopyTurbines` | floris/simulation/farm.py:76 | Gives `count` new turbine objects, pairwise distinct, each equal in content to the template |
| `Simulation.Turbine.DeepCopy` | floris/simulation/farm.py:76 | The copy is a new object with the template's yaw angle and attributes |
| `Simulation.TurbineMap.constructor` | floris/simulation/farm.py:73-76 | The turbine map keeps both layout lists and the turbine list as given |
| `Simulation.FlowField.constructor` | floris/simulation/farm.py:66-78 | The flow field stores the ambient properties, the turbine map and the shared wake, and builds its grid at the resolution of the wake's current velocity model |

`WakeModels.DropCommonPrefix`, `SplitAtNewline`, `SameLines` and
`LastTwoLinesDetermined` are facts about strings. They serve only the proof
of `SummaryIdentifiesModels` and model nothing of the source by themselves.

## Left out

- Coordinate rotation (`Coordinate.rotate_z`, `xprime`/`yprime`) is not part of this model. It is floating-point trigonometry in `Coordinate.py`, which is not part of this model either.
- The flow field's grid arrays and wake computation: `ReinitializeFlowField` records only the resolution it was asked for and a ghost count of rebuilds.
- `Simulation.FlowField.constructor`: `FlowField.__init__` is not part of this model. Building the grid at the wake's current velocity-model resolution, with the rebuild count starting at zero, is an assumption of the model.
- The `Wake` class and the velocity-model objects are not part of this model. Line 115 reads `model_grid_resolution` off the velocity model just assigned. The model takes the resolution from `Wake.gridResolution`, a function of the velocity-model kind that the wake is built with and that the farm never changes.
- How `TurbineMap` pairs coordinates with turbines is not modelled. The map keeps `layout_x`, `layout_y` and the turbine list as given.
- `copy.deepcopy` is modelled as "a new object with equal fields". A turbine's state other than its yaw angle is an opaque `attributes` map.
- Missing keys in the input dictionary (a `KeyError` in Python) cannot occur: the input is a typed record.
- `Simulation.Farm.SetYawAngles`: the Python type test for scalars (`int`/`float`, which also admits `bool` and refuses NumPy integers) becomes the explicit choice `Uniform`/`PerTurbine` of `YawInput`. An argument that is neither a number nor iterable, which fails inside `zip` in Python, is not modelled.
- `Simulation.Farm.SetWakeModel` returns the error as an `Outcome` value instead of raising it.
- The exact rendering of the model objects in `__str__` is not modelled. Each model is rendered by the name it was installed under (`WakeModels.VelocityName`, `WakeModels.DeflectionName`).
- `Farm.Valid()` does not require the wake's initial pair to be one of the four documented pairs. The initial wake comes from the configuration, and farm.py never checks it. The pairing holds after every accepted `SetWakeModel`.

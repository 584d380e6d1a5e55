# Pano-Movie `ptgui.py` in Dafny

Pano-Movie turns one PTGui panorama project into an animation. It reads a list of
transforms and, for each, steps a parameter through a range. The parameter is the
horizontal or vertical field of view (fov), or a rotation of every image. After each
step it writes a new project file. At the end of each transform it writes a batch list
naming those files.

This project models the core of `ptgui.py`:

- `Ranges` (`ranges.dfy`): `make_range`. It flips the step when `end < begin`, truncates
  `begin` with `int()` and builds Python's `range`. Python raises `ValueError` on a zero step.
- `Quaternions` (`quaternions.dfy`): the `quaternion` class. The Hamilton product is over
  exact reals. `fromEuler` and `asEuler` keep their algebra, but cos, sin, sqrt, atan2 and
  pi come from a `Numerics` parameter. Degree/radian conversion is modelled too.
- `Projects` (`projects.dfy`): the project fields the tool touches, as a value. Also
  `set_resolution`'s frame fitting (`Fit`, `Resolved`) and the rotation of every image group.
- `Transforms` (`transforms.dfy`): the engine as values. It covers the per-step lambda of
  each action (`Modify`, `FovTarget`, `ApplyModify`), one step of `transform` (`Step`) and
  a whole `transform` (`Run`). It also covers the snapshot names, `do_transforms`
  (`Stepped`), `exec_transform` (`Exec`) and the main loop over the actions (`RunAll`).
- `PtguiState` (`ptgui.dfy`): the `Ptgui` object as a class with fields `hfov`, `vfov`,
  `projection`, `pixels` and `imageGroups`. Its methods change them in place. Each method
  is proved against the value-level definition above. `write_project` and `write_batches`
  append to the ghost logs `written` and `batches`.
- `Errors` (`errors.dfy`): `Option`, `Result` and the ways a run stops. These are
  `ValueError` for a zero step, `ZeroDivisionError`, `NameError` and `exit(1)` for an
  unknown action. Each is an `Error` value; no precondition rules them out.

Behaviour of the code that the model keeps, although a reader might not expect it:

- A zero step is an error even when `begin == end`, because Python's `range` rejects it.
- Only `begin` is truncated. A negative step always gives an empty range: either it
  already points away from `end`, or the flip turns it away.
- The first snapshot of a fov action has int() of the current fov: the fov itself only
  when it is a whole number. The target is never reached. A zoom from vfov 60 toward 30 in steps of 3 writes ten files, with vfov
  60, 57, …, 33 (`ZoomScenario`).
- `change_vfov` reads an unbound `v` (ptgui.py:206), so it raises `NameError` on its first
  step and writes nothing. With an empty range it completes.
- `rotate` ignores the step value. Each step composes the same rotation with every
  orientation as the previous step left it.
- The fov captured when an action starts is reused at every step.
- `set_resolution` runs after the step's mutation. The mutation stands if
  `set_resolution` then raises.

## Model

| member | source | states |
|---|---|---|
| `Ranges.Trunc` | ptgui.py:154 | `int()` of a float rounds toward zero: the result lies within 1 of x, on the zero side |
| `Ranges.PyRange` | ptgui.py:154 | `range()` fails exactly when the step is 0; element k is start + k·step |
| `Ranges.PyRangeUpExact` | ptgui.py:154 | with a positive step, index k is in range exactly when start + k·step < stop |
| `Ranges.PyRangeDownExact` | ptgui.py:154 | with step −d, index k is in range exactly when start − k·d > stop |
| `Ranges.PyRangeMonotone` | ptgui.py:154 | elements strictly increase for a positive step and strictly decrease for a negative one |
| `Ranges.MakeRange` | ptgui.py:152-154 | `make_range` fails exactly when the step is 0, with the range error |
| `Ranges.MakeRangeDown` | ptgui.py:152-154 | end below begin, positive step: int(begin), int(begin)−step, …; strictly decreasing, all above end, and exactly those terms |
| `Ranges.MakeRangeUp` | ptgui.py:152-154 | begin at or below end, positive step: int(begin), int(begin)+step, …; strictly increasing, all below end, and exactly those terms |
| `Ranges.MakeRangeEqualBounds` | ptgui.py:152-154 | begin equal to end with a non-zero step gives the empty range |
| `Ranges.MakeRangeNegativeStep` | ptgui.py:152-154 | a negative step gives the empty range, whichever way begin and end lie |
| `Ranges.MakeRangeExamples` | ptgui.py:152-154 | (10,0,2) ↦ [10,8,6,4,2]; (0,10,2) ↦ [0,2,4,6,8]; (5,5,1) ↦ []; (60,30,3) ↦ [60,…,33]; (30.5,30,1) ↦ [] |
| `Quaternions.Deg2Rad` | ptgui.py:6-7 | definition; no contract of its own: π·d/180 |
| `Quaternions.Rad2Deg` | ptgui.py:9-10 | definition; no contract of its own: 180·r/π |
| `Quaternions.AngleConversionsInverse` | ptgui.py:6-10 | over exact reals, `rad2deg` and `deg2rad` undo each other (float64 rounding is not modelled) |
| `Quaternions.HamiltonProduct` | ptgui.py:60-67 | definition; no contract of its own; its properties are the four rows below |
| `Quaternions.HamiltonIdentity` | ptgui.py:60-67 | (1,0,0,0) on either side returns the other operand |
| `Quaternions.HamiltonNotCommutative` | ptgui.py:60-67 | i·j = k but j·i = −k, so the order of the operands in `rotation` matters |
| `Quaternions.NormMultiplicative` | ptgui.py:60-67 | ‖u·v‖² = ‖u‖²·‖v‖² |
| `Quaternions.UnitProduct` | ptgui.py:60-67 | the product of two unit quaternions is a unit quaternion without renormalisation |
| `Quaternions.FromHalfAngles` | ptgui.py:35-39 | definition; no contract of its own: the four component formulas of `fromEuler` over the half-angle cosines and sines |
| `Quaternions.FromHalfAnglesComposes` | ptgui.py:27-39 | the half-angle formula of `fromEuler` is the product of the yaw (Z), pitch (Y) and roll (X) rotations, in that order |
| `Quaternions.FromHalfAnglesUnit` | ptgui.py:27-39 | when each (cos, sin) pair lies on the unit circle, `fromEuler` returns a unit quaternion |
| `Quaternions.FromEuler` | ptgui.py:20-40 | definition; no contract of its own: degrees to radians, then the half-angle formula |
| `Quaternions.FromEulerUnit` | ptgui.py:20-40 | when cos² + sin² = 1 for every angle, `fromEuler` returns a unit quaternion |
| `Quaternions.PitchArgsIdentity` | ptgui.py:48-51 | each square-root argument of the pitch formula is (1 − ‖q‖²) plus a sum of two squares: (w+y)² + (x−z)², respectively (w−y)² + (x+z)² |
| `Quaternions.PitchArgsNonNegative` | ptgui.py:48-51 | for a quaternion of norm at most 1, neither square root of the pitch formula gets a negative argument |
| `Quaternions.PitchCosArgNegativeAtNinety` | ptgui.py:48-51 | at pitch 90° (w = y, x = −z) the cosine square root gets a negative argument exactly when ‖q‖² > 1 |
| `Quaternions.PitchArgNegativeAfterDrift` | ptgui.py:48-51 | a pitch-90° quaternion just above norm 1 gives the cosine square root a negative argument |
| `Quaternions.AsEuler` | ptgui.py:42-58 | definition; no contract of its own: roll, pitch and yaw through `atan2` and `sqrt`, back to degrees |
| `Quaternions.RotatePosition` | ptgui.py:131-138 | definition; no contract of its own: `asEuler(HamiltonProduct(fromEuler(rot), fromEuler(pos)))` |
| `Projects.Fit` | ptgui.py:104-115 | raises ZeroDivisionError exactly when vres = 0, vfov = 0, or hfov = 0 while hres/vres < 0 |
| `Projects.FitFillsFrame` | ptgui.py:104-115 | positive inputs: h/v = hfov/vfov, 0 < h ≤ hres, 0 < v ≤ vres; h = hres when hfov/vfov > hres/vres, otherwise v = vres |
| `Projects.FitIsLargest` | ptgui.py:104-115 | no positive frame with the fov's aspect ratio that fits the resolution is larger than the chosen one |
| `Projects.Resolved` | ptgui.py:104-116 | `set_resolution` succeeds exactly when `Fit` does; `pixels` then becomes h·v of the fitted frame (h, v), and nothing else changes |
| `Projects.RotateGroup` | ptgui.py:131-138 | definition; no contract of its own: both orientations of one group through `RotatePosition` |
| `Projects.RotateGroups` | ptgui.py:129-138 | same number of groups; group i has both orientations composed with the rotation |
| `Projects.IterateGroupsPointwise` | ptgui.py:129-138 | after k rotations each group holds the k-fold iterate of its own position and linkable position |
| `Transforms.FileName` | ptgui.py:163 | definition; no contract of its own: name + '_' + str(i) + '.pts' |
| `Transforms.NatToString` | ptgui.py:163 | `str(i)`: non-empty, decimal digits only, no leading zero |
| `Transforms.NatToStringRoundTrip` | ptgui.py:163 | reading back the digits of `str(n)` gives n |
| `Transforms.FileNames` | ptgui.py:160-164 | the `projects` list transform builds: one name per step, and the name at index i is name_i.pts |
| `Transforms.FileNamesDistinct` | ptgui.py:163 | different steps of one transform write files with different names |
| `Transforms.FovTarget` | ptgui.py:193-210 | set_vfov gives (·, v) and set_hfov gives (h, ·), both at the start fov's aspect ratio and both raising on a zero divisor; change_vfov raises NameError for `v`; change_hfov gives (h, vfov0) |
| `Transforms.ApplyModify` | ptgui.py:197-214 | definition; no contract of its own: the lambda of each action (lines 197, 202, 206, 210, 214) through `FovTarget` or `RotateGroups` |
| `Transforms.Step` | ptgui.py:162-166 | definition; no contract of its own: modify, then set_resolution; the first exception stops the step |
| `Transforms.Run` | ptgui.py:159-167 | definition; no contract of its own: the loop of transform over the steps, stopping at the first exception |
| `Transforms.RunLength` | ptgui.py:159-167 | a completed transform writes one snapshot per step; a stopped one writes fewer |
| `Transforms.RunStops` | ptgui.py:159-167 | once a step raises, later steps change and write nothing |
| `Transforms.RunFinal` | ptgui.py:159-167 | a completed transform leaves the state of its last snapshot, or the untouched project when there are no steps |
| `Transforms.RunChainAt` | ptgui.py:159-167 | snapshot i is modify and then set_resolution, applied to the state snapshot i−1 left |
| `Transforms.RunFailure` | ptgui.py:159-167 | a stopped transform failed in the step after its last snapshot, applied to the state that snapshot left |
| `Transforms.FovStep` | ptgui.py:162-165 | a fov step that succeeds sets the fov from `FovTarget` and `pixels` to h·v of the frame that fov fits into the resolution, and nothing else |
| `Transforms.FovRunSnapshots` | ptgui.py:159-167 | snapshot i of a fov action has the fov `FovTarget` gives for step value i, with image groups and projection unchanged |
| `Transforms.RotateRunSnapshots` | ptgui.py:211-214 | snapshot i of rotate holds the (i+1)-fold rotation of every group, with fov and projection unchanged |
| `Transforms.RotateIgnoresValues` | ptgui.py:214 | rotate's result depends only on how many steps there are, not on their values |
| `Transforms.RotateRunCompletes` | ptgui.py:211-214 | rotate raises nothing when the project's own frame fits the resolution, and keeps the fov |
| `Transforms.UnboundVRunFails` | ptgui.py:206 | change_vfov with any step raises NameError at once and writes nothing |
| `Transforms.FovRunCompletes` | ptgui.py:159-167 | a fov transform completes when every step gives a fov whose frame fits the resolution |
| `Transforms.ExecSetVfovCompletes` | ptgui.py:194-197 | set_vfov with positive fov and resolution, vfov ≥ 1 and target ≥ 0 completes, with one snapshot per range element |
| `Transforms.ZoomScenario` | ptgui.py:194-197 | fov (120,60), set_vfov toward 30 by 3: ten files zoom_0 … zoom_9, vfov 60 − 3i, hfov twice vfov, one batch listing them |
| `Transforms.ExitStatus` | ptgui.py:217-219 | definition; no contract of its own: 1 after an exception or an unknown action, 0 otherwise (what the run leaves is stated by `UnknownActionHalts` and `RunTransforms`) |
| `Transforms.ActionRange` | ptgui.py:196-213 | definition; no contract of its own: the `make_range` call of each stepping branch (lines 196, 200, 205, 209, 213), from the current vfov or hfov, or from the given begin for rotate |
| `Transforms.ActionModify` | ptgui.py:195-214 | definition; no contract of its own: the lambda of each stepping branch with the fov it captured before the first step (lines 195, 199, 204, 208), or the angle for rotate |
| `Transforms.Stepped` | ptgui.py:170-172 | definition; no contract of its own: the range, then transform and the batch list |
| `Transforms.Exec` | ptgui.py:193-219 | definition; no contract of its own: the dispatch on the action |
| `Transforms.RunAll` | ptgui.py:233-235 | definition; no contract of its own: the main loop over the actions, stopping at the first exception |
| `Transforms.ExecWrittenNames` | ptgui.py:163 | snapshot i of any stepping action is written as name_i.pts |
| `Transforms.ExecCompleted` | ptgui.py:170-172 | a completed stepping action writes one snapshot per range element and one batch list naming those files, in order |
| `Transforms.ExecZeroStep` | ptgui.py:193-214 | a zero step stops a stepping action before it changes or writes anything |
| `Transforms.ExecSetVfov` | ptgui.py:194-197 | the vfov of snapshot i is the i-th range value (starting at int() of the current vfov, which is the vfov itself only when it is a whole number), at the start aspect ratio |
| `Transforms.ExecSetHfov` | ptgui.py:198-202 | the hfov of snapshot i is the i-th range value (starting at int() of the current hfov, which is the hfov itself only when it is a whole number), at the start aspect ratio |
| `Transforms.ExecChangeHfov` | ptgui.py:207-210 | the hfov of snapshot i is the i-th range value, and vfov stays at its start value |
| `Transforms.ExecChangeVfov` | ptgui.py:203-206 | a non-empty range stops the run with NameError and no change or write |
| `Transforms.ExecRotate` | ptgui.py:211-214 | in snapshot i both orientations of every group are the (i+1)-fold rotation of the originals |
| `Transforms.RunAllStops` | ptgui.py:233-235 | after an action stops the run, later actions do nothing |
| `Transforms.UnknownActionHalts` | ptgui.py:217-219 | an unknown action ends the run with status 1, and earlier actions' changes and writes stand |
| `Transforms.RunAllCons` | ptgui.py:233-235 | the first action runs on the loaded project and the rest on the state it left, with the logs concatenated in order |
| `PtguiState.Ptgui.constructor` | ptgui.py:76-80 | a loaded project with nothing written yet |
| `PtguiState.Ptgui.GetFov` | ptgui.py:82-85 | returns (hfov, vfov) |
| `PtguiState.Ptgui.SetFov` | ptgui.py:87-90 | sets hfov and vfov and nothing else |
| `PtguiState.Ptgui.SetResolution` | ptgui.py:104-116 | the new state is `Resolved` of the old, or it raises with the state unchanged |
| `PtguiState.Ptgui.SetProjection` | ptgui.py:118-119 | sets the projection and nothing else |
| `PtguiState.Ptgui.Rotation` | ptgui.py:129-138 | the loop replaces position and linkable position of every group with the composed rotation; nothing else changes |
| `PtguiState.Ptgui.WriteProject` | ptgui.py:124-126 | appends (file name, current project) to the log of written files |
| `PtguiState.Ptgui.WriteBatches` | ptgui.py:144-150 | appends (batch name, project names) to the batch log |
| `PtguiState.Ptgui.Apply` | ptgui.py:193-214 | the per-step lambda: the new state is `ApplyModify` of the old, or it raises with the state unchanged |
| `PtguiState.Ptgui.Transform` | ptgui.py:159-167 | the loop leaves the state `Run` gives and logs its snapshots as name_i.pts; it returns the names in step order, or the exception |
| `PtguiState.Ptgui.TransformStep` | ptgui.py:162-166 | one pass of the loop body: the state and exception are those `Step` gives, the snapshot is written as name_i.pts only when no exception was raised |
| `PtguiState.Ptgui.DoTransforms` | ptgui.py:170-172 | transform, then one batch list of the returned names |
| `PtguiState.Ptgui.ExecTransform` | ptgui.py:193-219 | the dispatch leaves the state, writes, batches and exception that `Exec` gives |
| `PtguiState.RunTransforms` | ptgui.py:233-235 | the main loop runs the actions in order on one project and stops at the first error; its exit status |

## Left out

- Euler conversions: the bodies of `cos`, `sin`, `sqrt`, `atan2` and the value of pi are
  not modelled; they arrive as the `Numerics` parameter. So no Euler round trip is stated,
  and numpy's NaN for the square root of a negative number is whatever that `sqrt` returns.
- Floating point: reals are exact, so float64 rounding, overflow, infinities and NaN
  are not modelled. The drift that repeated composition causes is stated through its
  effect on the pitch formula: `PitchArgsIdentity` shows for every quaternion how a norm
  above 1 lowers both square-root arguments, `PitchCosArgNegativeAtNinety` shows that at
  pitch 90° any norm above 1 makes the cosine argument negative, and
  `PitchArgNegativeAfterDrift` gives a concrete such quaternion.
- JSON: `Ptgui.load` and the contents of the file `write_project` writes are not
  modelled. The constructor takes the project as a value, and a write logs that value.
  A `KeyError` from a project without the expected keys is not modelled either: every
  field is always present.
- `write_batches` XML: only the batch file name and the list of names passed are logged.
  The code writes each name with another `.pts` suffix, although the names already end
  in `.pts`.
- `set_seam_blend` and its call in the main block are left out: no transform reads the
  seam-finding flag.
- The module-level `resolution` is a parameter `res`. Without `--resolution` it is
  (0, 0), and then every step raises `ZeroDivisionError` in `set_resolution`; the model
  shows this through `Fit`.
- Argument parsing, printing, `tqdm` progress and the reading of the transforms file are
  left out. The main loop takes the actions as a list of the `Action` datatype.
- An action is one of the `Action` constructors, so a JSON field missing or of the wrong
  type is not modelled. Range ends and steps are ints; a float there makes Python's
  `range` raise `TypeError`, which the model does not represent.
- `get_position` and `set_position` are folded into `Rotation`, which reads and writes
  the (yaw, pitch, roll) triple of each orientation directly.

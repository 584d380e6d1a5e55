/**
 * The Ptgui accessor object and the transform driver that mutate one project in place,
 * each method proved against the value-level definitions of module Transforms.
 * Writing a project file and a batch file appends to the ghost logs written and batches.
 */
module PtguiState {
  import opened Errors
  import opened Ranges
  import opened Quaternions
  import opened Projects
  import opened Transforms

  class Ptgui {
    var hfov: real
    var vfov: real
    var projection: string
    var pixels: real
    var imageGroups: seq<ImageGroup>

    /** Every write_project call: the file name and the project it saved. */
    ghost var written: seq<(string, Project)>
    /** Every write_batches call: the batch file name and the project names it lists. */
    ghost var batches: seq<(string, seq<string>)>

    /** The project as a value. */
    function State(): Project
      reads this
    {
      Project(hfov, vfov, projection, pixels, imageGroups)
    }

    /** A loaded project; nothing written yet. */
    constructor (p: Project)
      ensures State() == p && written == [] && batches == []
    {
      hfov, vfov, projection, pixels, imageGroups := p.hfov, p.vfov, p.projection, p.pixels, p.imageGroups;
      written, batches := [], [];
    }

    method GetFov() returns (h: real, v: real)
      ensures h == hfov && v == vfov
    {
      h, v := hfov, vfov;
    }

    method SetFov(h: real, v: real)
      modifies this
      ensures State() == old(State()).(hfov := h, vfov := v)
      ensures written == old(written) && batches == old(batches)
    {
      hfov, vfov := h, v;
    }

    /** Sets outputsize.pixels to the area of the frame Fit chooses, or raises ZeroDivisionError. */
    method SetResolution(hres: int, vres: int) returns (err: Option<Error>)
      modifies this
      ensures var r := Resolved(old(State()), hres, vres);
        && (r.Ok? ==> err.None? && State() == r.value)
        && (r.Err? ==> err == Some(r.error) && State() == old(State()))
      ensures written == old(written) && batches == old(batches)
    {
      var h0, v0 := GetFov();
      var frame := Fit(h0, v0, hres, vres);
      if frame.Err? {
        return Some(frame.error);
      }
      var (h, v) := frame.value;
      pixels := h * v;
      err := None;
    }

    method SetProjection(p: string)
      modifies this
      ensures State() == old(State()).(projection := p)
      ensures written == old(written) && batches == old(batches)
    {
      projection := p;
    }

    /** Replaces both orientations of every image group with rot composed after it. */
    method Rotation(num: Numerics, rot: Euler)
      modifies this
      ensures State() == old(State()).(imageGroups := RotateGroups(num, rot, old(imageGroups)))
      ensures written == old(written) && batches == old(batches)
    {
      var i := 0;
      while i < |imageGroups|
        invariant 0 <= i <= |imageGroups| == |old(imageGroups)|
        invariant forall j :: 0 <= j < i ==> imageGroups[j] == RotateGroup(num, rot, old(imageGroups)[j])
        invariant forall j :: i <= j < |imageGroups| ==> imageGroups[j] == old(imageGroups)[j]
        invariant hfov == old(hfov) && vfov == old(vfov) && projection == old(projection) && pixels == old(pixels)
        invariant written == old(written) && batches == old(batches)
      {
        var ig := imageGroups[i];
        var qRot := FromEuler(num, rot);
        var pos := AsEuler(num, HamiltonProduct(qRot, FromEuler(num, ig.position)));
        var link := AsEuler(num, HamiltonProduct(qRot, FromEuler(num, ig.linkable)));
        imageGroups := imageGroups[i := ImageGroup(pos, link)];
        i := i + 1;
      }
      assert imageGroups == RotateGroups(num, rot, old(imageGroups));
    }

    /** write_project: the file itself is not modelled, only what was saved under which name. */
    method WriteProject(filename: string)
      modifies this
      ensures State() == old(State())
      ensures written == old(written) + [(filename, State())] && batches == old(batches)
    {
      written := written + [(filename, State())];
    }

    /** write_batches: only the batch file name and the listed project names are modelled. */
    method WriteBatches(filename: string, projects: seq<string>)
      modifies this
      ensures State() == old(State())
      ensures written == old(written) && batches == old(batches) + [(filename, projects)]
    {
      batches := batches + [(filename, projects)];
    }

    /** The per-step lambda of an action, applied with the step value x. */
    method Apply(m: Modify, x: int, num: Numerics) returns (err: Option<Error>)
      modifies this
      ensures var r := ApplyModify(old(State()), m, x, num);
        && (r.Ok? ==> err.None? && State() == r.value)
        && (r.Err? ==> err == Some(r.error) && State() == old(State()))
      ensures written == old(written) && batches == old(batches)
    {
      ghost var p0 := State();
      err := None;
      match m
      case KeepAspectVfov(h0, v0) =>
        if v0 == 0.0 {
          return Some(ZeroDivision);
        }
        SetFov((x as real) * h0 / v0, x as real);
        assert FovTarget(m, x).Ok? && FovTarget(m, x).value.0 == (x as real) * h0 / v0 && FovTarget(m, x).value.1 == x as real;
        assert ApplyModify(p0, m, x, num) == Ok(p0.(hfov := (x as real) * h0 / v0, vfov := x as real));
      case KeepAspectHfov(h0, v0) =>
        if h0 == 0.0 {
          return Some(ZeroDivision);
        }
        SetFov(x as real, (x as real) * v0 / h0);
        assert FovTarget(m, x).Ok? && FovTarget(m, x).value.0 == x as real && FovTarget(m, x).value.1 == (x as real) * v0 / h0;
        assert ApplyModify(p0, m, x, num) == Ok(p0.(hfov := x as real, vfov := (x as real) * v0 / h0));
      case UnboundV(_) =>
        return Some(NameNotDefined("v"));
      case KeepVfov(v0) =>
        SetFov(x as real, v0);
        assert FovTarget(m, x).Ok? && FovTarget(m, x).value.0 == x as real && FovTarget(m, x).value.1 == v0;
        assert ApplyModify(p0, m, x, num) == Ok(p0.(hfov := x as real, vfov := v0));
      case RotateBy(rot) =>
        Rotation(num, rot);
    }

    /**
     * transform: for each step, modify, name the snapshot, set the resolution and
     * write it; the names of the snapshots, in step order.
     */
    method Transform(res: (int, int), name: string, steps: seq<int>, m: Modify, num: Numerics)
      returns (r: Result<seq<string>>)
      modifies this
      ensures var o := Run(old(State()), res, m, steps, num);
        && State() == o.final
        && written == old(written) + Written(name, o.snapshots)
        && batches == old(batches)
        && (o.err.None? ==> r == Ok(FileNames(name, |steps|)))
        && (o.err.Some? ==> r == Err(o.err.value))
    {
      ghost var p0 := State();
      var projects := [];
      var i := 0;
      while i < |steps|
        invariant 0 <= i <= |steps|
        invariant Run(p0, res, m, steps[..i], num).err.None?
        invariant State() == Run(p0, res, m, steps[..i], num).final
        invariant written == old(written) + Written(name, Run(p0, res, m, steps[..i], num).snapshots)
        invariant batches == old(batches)
        invariant projects == FileNames(name, i)
      {
        ghost var o := Run(p0, res, m, steps[..i], num);
        RunLength(p0, res, m, steps[..i], num);
        assert steps[..i + 1] == steps[..i] + [steps[i]];
        RunSnoc(p0, res, m, steps[..i], steps[i], num);
        var project, err := TransformStep(res, name, i, m, steps[i], num);
        if err.Some? {
          RunStops(p0, res, m, steps, i + 1, num);
          return Err(err.value);
        }
        projects := projects + [project];
        WrittenSnoc(name, o.snapshots, State());
        ConcatAssoc(old(written), Written(name, o.snapshots), [(project, State())]);
        i := i + 1;
      }
      assert steps[..i] == steps;
      r := Ok(projects);
    }

    /** One step of transform: modify with x, name the snapshot, set the resolution, write the snapshot. */
    method TransformStep(res: (int, int), name: string, i: nat, m: Modify, x: int, num: Numerics)
      returns (project: string, err: Option<Error>)
      modifies this
      ensures var (q, e) := Step(old(State()), res, m, x, num);
        && State() == q && err == e && project == FileName(name, i)
        && written == old(written) + (if e.None? then [(project, q)] else [])
        && batches == old(batches)
    {
      err := Apply(m, x, num);
      project := name + "_" + NatToString(i) + ".pts";
      if err.Some? {
        return;
      }
      err := SetResolution(res.0, res.1);
      if err.Some? {
        return;
      }
      WriteProject(project);
    }

    /** do_transforms: transform, then write the batch list of what it returned. */
    method DoTransforms(res: (int, int), name: string, steps: seq<int>, m: Modify, num: Numerics)
      returns (err: Option<Error>)
      modifies this
      ensures var x := Stepped(old(State()), name, Ok(steps), m, res, num);
        State() == x.final && written == old(written) + x.written && batches == old(batches) + x.batches
        && err == x.err
    {
      var r := Transform(res, name, steps, m, num);
      if r.Err? {
        return Some(r.error);
      }
      WriteBatches(name + ".ptgbatch", r.value);
      err := None;
    }

    /** exec_transform: dispatch on the action; an unknown one ends the run. */
    method ExecTransform(t: Action, res: (int, int), num: Numerics) returns (err: Option<Error>)
      modifies this
      ensures var x := Exec(old(State()), t, res, num);
        State() == x.final && written == old(written) + x.written && batches == old(batches) + x.batches
        && err == x.err
    {
      match t
      case SetVfov(name, target, step) =>
        var h0, v0 := GetFov();
        var r := MakeRange(v0, target, step);
        if r.Err? {
          return Some(r.error);
        }
        err := DoTransforms(res, name, r.value, KeepAspectVfov(h0, v0), num);
      case SetHfov(name, target, step) =>
        var h0, v0 := GetFov();
        var r := MakeRange(h0, target, step);
        if r.Err? {
          return Some(r.error);
        }
        err := DoTransforms(res, name, r.value, KeepAspectHfov(h0, v0), num);
      case ChangeVfov(name, target, step) =>
        var h0, v0 := GetFov();
        var r := MakeRange(v0, target, step);
        if r.Err? {
          return Some(r.error);
        }
        err := DoTransforms(res, name, r.value, UnboundV(h0), num);
      case ChangeHfov(name, target, step) =>
        var h0, v0 := GetFov();
        var r := MakeRange(h0, target, step);
        if r.Err? {
          return Some(r.error);
        }
        err := DoTransforms(res, name, r.value, KeepVfov(v0), num);
      case Rotate(name, angle, begin, end, step) =>
        var r := MakeRange(begin, end, step);
        if r.Err? {
          return Some(r.error);
        }
        err := DoTransforms(res, name, r.value, RotateBy(angle), num);
      case Projection(value) =>
        SetProjection(value);
        err := None;
      case Unknown(action) =>
        err := Some(UnknownAction(action));
    }
  }

  /** The main loop: every action in list order on one project; the exit status. */
  method RunTransforms(ptgui: Ptgui, actions: seq<Action>, res: (int, int), num: Numerics) returns (status: int)
    modifies ptgui
    ensures var e := RunAll(old(ptgui.State()), actions, res, num);
      && ptgui.State() == e.final
      && ptgui.written == old(ptgui.written) + e.written
      && ptgui.batches == old(ptgui.batches) + e.batches
      && status == ExitStatus(e)
  {
    ghost var p0 := ptgui.State();
    var i := 0;
    while i < |actions|
      invariant 0 <= i <= |actions|
      invariant RunAll(p0, actions[..i], res, num).err.None?
      invariant ptgui.State() == RunAll(p0, actions[..i], res, num).final
      invariant ptgui.written == old(ptgui.written) + RunAll(p0, actions[..i], res, num).written
      invariant ptgui.batches == old(ptgui.batches) + RunAll(p0, actions[..i], res, num).batches
    {
      ghost var e := RunAll(p0, actions[..i], res, num);
      ghost var x := Exec(e.final, actions[i], res, num);
      RunAllPrefix(p0, actions, i, res, num);
      var err := ptgui.ExecTransform(actions[i], res, num);
      ConcatAssoc(old(ptgui.written), e.written, x.written);
      ConcatAssoc(old(ptgui.batches), e.batches, x.batches);
      if err.Some? {
        RunAllStops(p0, actions, i + 1, res, num);
        return 1;
      }
      i := i + 1;
    }
    assert actions[..i] == actions;
    status := 0;
  }
}

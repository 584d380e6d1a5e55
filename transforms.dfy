/**
 * The transform engine as values: the per-step mutation of each action, the run of a
 * transform over its steps, the output names, the dispatch on the action and the
 * in-order run of a list of actions.
 */
module Transforms {
  import opened Errors
  import opened Ranges
  import opened Quaternions
  import opened Projects

  /** str(n) for a non-negative int: its decimal digits. */
  function NatToString(n: nat): (s: string)
    ensures |s| > 0
    ensures forall i :: 0 <= i < |s| ==> '0' <= s[i] <= '9'
    ensures |s| > 1 ==> s[0] != '0'
  {
    if n < 10 then [('0' as int + n) as char]
    else NatToString(n / 10) + [('0' as int + n % 10) as char]
  }

  /** The value of a string of decimal digits. */
  function DecimalValue(s: string): nat {
    if s == [] then 0
    else 10 * DecimalValue(s[..|s| - 1]) + (if '0' <= s[|s| - 1] <= '9' then s[|s| - 1] as int - '0' as int else 0)
  }

  /** Reading back the digits of str(n) gives n. */
  lemma {:induction false} NatToStringRoundTrip(n: nat)
    ensures DecimalValue(NatToString(n)) == n
  {
    var s := NatToString(n);
    if n >= 10 {
      NatToStringRoundTrip(n / 10);
      assert s[..|s| - 1] == NatToString(n / 10);
    } else {
      assert s[..|s| - 1] == [];
    }
  }

  /** The name transform gives the snapshot of step i. */
  function FileName(name: string, i: nat): string {
    name + "_" + NatToString(i) + ".pts"
  }

  /** Distinct steps of one transform write distinct files. */
  lemma FileNamesDistinct(name: string, i: nat, j: nat)
    requires i != j
    ensures FileName(name, i) != FileName(name, j)
  {
    var a, b := FileName(name, i), FileName(name, j);
    if a == b {
      var si, sj := NatToString(i), NatToString(j);
      assert |si| == |sj|;
      assert a[|name| + 1 .. |a| - 4] == si;
      assert b[|name| + 1 .. |b| - 4] == sj;
      NatToStringRoundTrip(i);
      NatToStringRoundTrip(j);
    }
  }

  /** The names of the first n steps, in order. */
  function FileNames(name: string, n: nat): (r: seq<string>)
    ensures |r| == n
    ensures forall i :: 0 <= i < n ==> r[i] == FileName(name, i)
  {
    seq(n, (i: nat) => FileName(name, i))
  }

  /** The snapshots written by a transform, paired with their file names. */
  function Written(name: string, snapshots: seq<Project>): (r: seq<(string, Project)>)
    ensures |r| == |snapshots|
    ensures forall i :: 0 <= i < |r| ==> r[i] == (FileName(name, i), snapshots[i])
  {
    seq(|snapshots|, i requires 0 <= i < |snapshots| => (FileName(name, i), snapshots[i]))
  }

  /** One more snapshot is written under the next step's name. */
  lemma WrittenSnoc(name: string, snapshots: seq<Project>, q: Project)
    ensures Written(name, snapshots + [q]) == Written(name, snapshots) + [(FileName(name, |snapshots|), q)]
  {
  }

  /**
   * The per-step mutation of each action, with the field of view it captured when
   * the action started.
   */
  datatype Modify =
    | KeepAspectVfov(hfov0: real, vfov0: real) // set_vfov: (v * hfov0 / vfov0, v)
    | KeepAspectHfov(hfov0: real, vfov0: real) // set_hfov: (h, h * vfov0 / hfov0)
    | UnboundV(hfov0: real)                    // change_vfov as written: reads an unbound v
    | KeepVfov(vfov0: real)                    // change_hfov: (h, vfov0)
    | RotateBy(rot: Euler)                     // rotate: the step value is ignored

  /** (h, v) has the aspect ratio h0 : v0. */
  predicate SameAspect(h: real, v: real, h0: real, v0: real) {
    h * v0 == h0 * v
  }

  /** The field of view a fov mutation sets for step value x, or the exception it raises. */
  function FovTarget(m: Modify, x: int): (r: Result<(real, real)>)
    requires !m.RotateBy?
    ensures m.KeepAspectVfov? ==> (r.Err? <==> m.vfov0 == 0.0)
    ensures m.KeepAspectVfov? && r.Ok? ==> r.value.1 == x as real && SameAspect(r.value.0, r.value.1, m.hfov0, m.vfov0)
    ensures m.KeepAspectHfov? ==> (r.Err? <==> m.hfov0 == 0.0)
    ensures m.KeepAspectHfov? && r.Ok? ==> r.value.0 == x as real && SameAspect(r.value.0, r.value.1, m.hfov0, m.vfov0)
    ensures m.UnboundV? ==> r == Err(NameNotDefined("v"))
    ensures m.KeepVfov? ==> r == Ok((x as real, m.vfov0))
    ensures r.Err? ==> r.error != ZeroStep
  {
    match m
    case KeepAspectVfov(h0, v0) =>
      if v0 == 0.0 then Err(ZeroDivision) else Ok(((x as real) * h0 / v0, x as real))
    case KeepAspectHfov(h0, v0) =>
      if h0 == 0.0 then Err(ZeroDivision) else Ok((x as real, (x as real) * v0 / h0))
    case UnboundV(_) => Err(NameNotDefined("v"))
    case KeepVfov(v0) => Ok((x as real, v0))
  }

  /** modify(ptgui, x) on the project value. */
  function ApplyModify(p: Project, m: Modify, x: int, num: Numerics): Result<Project> {
    if m.RotateBy? then Ok(p.(imageGroups := RotateGroups(num, m.rot, p.imageGroups)))
    else match FovTarget(m, x)
      case Err(e) => Err(e)
      case Ok((h, v)) => Ok(p.(hfov := h, vfov := v))
  }

  /** One step of transform: modify, then set_resolution; the state left behind and the exception, if any. */
  function Step(p: Project, res: (int, int), m: Modify, x: int, num: Numerics): (Project, Option<Error>) {
    match ApplyModify(p, m, x, num)
    case Err(e) => (p, Some(e))
    case Ok(p1) =>
      match Resolved(p1, res.0, res.1)
      case Err(e) => (p1, Some(e))
      case Ok(p2) => (p2, None)
  }

  /** The snapshots a transform writes, the state it leaves and the exception that stopped it. */
  datatype Outcome = Outcome(snapshots: seq<Project>, final: Project, err: Option<Error>)

  /** transform over steps, one step after the other on the state the previous one left. */
  function Run(p: Project, res: (int, int), m: Modify, steps: seq<int>, num: Numerics): Outcome
    decreases |steps|
  {
    if steps == [] then Outcome([], p, None)
    else
      var o := Run(p, res, m, steps[..|steps| - 1], num);
      if o.err.Some? then o
      else
        var (q, e) := Step(o.final, res, m, steps[|steps| - 1], num);
        Outcome(if e.None? then o.snapshots + [q] else o.snapshots, q, e)
  }

  /** One more step after a run that has not stopped: the step runs on the state the run left. */
  lemma RunSnoc(p: Project, res: (int, int), m: Modify, steps: seq<int>, x: int, num: Numerics)
    requires Run(p, res, m, steps, num).err.None?
    ensures var o := Run(p, res, m, steps, num);
      var (q, e) := Step(o.final, res, m, x, num);
      Run(p, res, m, steps + [x], num) == Outcome(if e.None? then o.snapshots + [q] else o.snapshots, q, e)
  {
    assert (steps + [x])[..|steps|] == steps;
  }

  /** A run that completes writes one snapshot per step; one that stops writes one per step before the failing one. */
  lemma {:induction false} RunLength(p: Project, res: (int, int), m: Modify, steps: seq<int>, num: Numerics)
    ensures var o := Run(p, res, m, steps, num);
      (o.err.None? ==> |o.snapshots| == |steps|) && (o.err.Some? ==> |o.snapshots| < |steps|)
  {
    if steps != [] {
      RunLength(p, res, m, steps[..|steps| - 1], num);
    }
  }

  /** Once a run has stopped, later steps change nothing. */
  lemma {:induction false} RunStops(p: Project, res: (int, int), m: Modify, steps: seq<int>, k: nat, num: Numerics)
    requires k <= |steps| && Run(p, res, m, steps[..k], num).err.Some?
    ensures Run(p, res, m, steps, num) == Run(p, res, m, steps[..k], num)
  {
    if k < |steps| {
      assert steps[..|steps| - 1][..k] == steps[..k];
      RunStops(p, res, m, steps[..|steps| - 1], k, num);
    } else {
      assert steps[..k] == steps;
    }
  }

  /** The state step i starts from: the project for step 0, the previous snapshot after that. */
  function Before(p: Project, snapshots: seq<Project>, i: nat): Project
    requires i <= |snapshots|
  {
    if i == 0 then p else snapshots[i - 1]
  }

  /** A run that completes leaves the state of its last snapshot (the project itself when there are no steps). */
  lemma RunFinal(p: Project, res: (int, int), m: Modify, steps: seq<int>, num: Numerics)
    requires Run(p, res, m, steps, num).err.None?
    ensures Run(p, res, m, steps, num).final
         == Before(p, Run(p, res, m, steps, num).snapshots, |Run(p, res, m, steps, num).snapshots|)
  {
  }

  /** Snapshot i is step i applied to the state step i - 1 left. */
  lemma {:induction false} RunChainAt(p: Project, res: (int, int), m: Modify, steps: seq<int>, num: Numerics, i: nat)
    requires i < |Run(p, res, m, steps, num).snapshots|
    ensures i < |steps|
    ensures Step(Before(p, Run(p, res, m, steps, num).snapshots, i), res, m, steps[i], num)
         == (Run(p, res, m, steps, num).snapshots[i], None)
  {
    var init := steps[..|steps| - 1];
    var oi := Run(p, res, m, init, num);
    var o := Run(p, res, m, steps, num);
    RunLength(p, res, m, init, num);
    if i < |oi.snapshots| {
      RunChainAt(p, res, m, init, num, i);
      assert init[i] == steps[i];
      assert o.snapshots[..|oi.snapshots|] == oi.snapshots;
      assert Before(p, o.snapshots, i) == Before(p, oi.snapshots, i);
    } else {
      assert oi.err.None? && i == |init|;
      RunFinal(p, res, m, init, num);
      assert Before(p, o.snapshots, i) == oi.final;
    }
  }

  /** A run that stops does so at the step after its last snapshot, applied to the state that snapshot left. */
  lemma {:induction false} RunFailure(p: Project, res: (int, int), m: Modify, steps: seq<int>, num: Numerics)
    requires Run(p, res, m, steps, num).err.Some?
    ensures var o := Run(p, res, m, steps, num);
      && |o.snapshots| < |steps|
      && Step(Before(p, o.snapshots, |o.snapshots|), res, m, steps[|o.snapshots|], num) == (o.final, o.err)
  {
    var init := steps[..|steps| - 1];
    var oi := Run(p, res, m, init, num);
    RunLength(p, res, m, init, num);
    if oi.err.Some? {
      RunFailure(p, res, m, init, num);
      assert init[|oi.snapshots|] == steps[|oi.snapshots|];
    } else {
      RunFinal(p, res, m, init, num);
    }
  }

  /** A fov step that succeeds sets the fov to FovTarget and the pixel count to the area of its fitted frame; nothing else changes. */
  lemma FovStep(b: Project, res: (int, int), m: Modify, x: int, num: Numerics)
    requires !m.RotateBy?
    ensures var (s, e) := Step(b, res, m, x, num);
      e.None? ==>
        && FovTarget(m, x).Ok?
        && var (h, v) := FovTarget(m, x).value;
        && Fit(h, v, res.0, res.1).Ok?
        && s == b.(hfov := h, vfov := v, pixels := Fit(h, v, res.0, res.1).value.0 * Fit(h, v, res.0, res.1).value.1)
  {
    var t := FovTarget(m, x);
    if t.Ok? {
      var p1 := b.(hfov := t.value.0, vfov := t.value.1);
      assert ApplyModify(b, m, x, num) == Ok(p1);
      var r := Resolved(p1, res.0, res.1);
      if r.Ok? {
        assert Step(b, res, m, x, num) == (r.value, None);
      }
    }
  }

  /** The snapshots of a fov action: step value x gives the fov FovTarget(x), the groups and projection stay. */
  lemma {:induction false} FovRunSnapshots(p: Project, res: (int, int), m: Modify, steps: seq<int>, num: Numerics, i: nat)
    requires !m.RotateBy?
    requires i < |Run(p, res, m, steps, num).snapshots|
    ensures var s := Run(p, res, m, steps, num).snapshots[i];
      && i < |steps| && FovTarget(m, steps[i]).Ok?
      && (s.hfov, s.vfov) == FovTarget(m, steps[i]).value
      && s.imageGroups == p.imageGroups && s.projection == p.projection
  {
    var o := Run(p, res, m, steps, num);
    var b := Before(p, o.snapshots, i);
    if i > 0 {
      FovRunSnapshots(p, res, m, steps, num, i - 1);
    }
    assert b.imageGroups == p.imageGroups && b.projection == p.projection;
    RunChainAt(p, res, m, steps, num, i);
    FovStep(b, res, m, steps[i], num);
  }

  /** The snapshots of rotate: snapshot i holds the (i + 1)-fold rotation of every group; the fov and projection stay. */
  lemma {:induction false} RotateRunSnapshots(p: Project, res: (int, int), rot: Euler, steps: seq<int>, num: Numerics, i: nat)
    requires i < |Run(p, res, RotateBy(rot), steps, num).snapshots|
    ensures var s := Run(p, res, RotateBy(rot), steps, num).snapshots[i];
      && s.imageGroups == IterateGroups(num, rot, i + 1, p.imageGroups)
      && s.hfov == p.hfov && s.vfov == p.vfov && s.projection == p.projection
  {
    RunChainAt(p, res, RotateBy(rot), steps, num, i);
    if i > 0 {
      RotateRunSnapshots(p, res, rot, steps, num, i - 1);
    }
  }

  /** rotate ignores the step values: only their number matters. */
  lemma {:induction false} RotateIgnoresValues(p: Project, res: (int, int), rot: Euler, s1: seq<int>, s2: seq<int>, num: Numerics)
    requires |s1| == |s2|
    ensures Run(p, res, RotateBy(rot), s1, num) == Run(p, res, RotateBy(rot), s2, num)
  {
    if s1 != [] {
      RotateIgnoresValues(p, res, rot, s1[..|s1| - 1], s2[..|s2| - 1], num);
    }
  }

  /** rotate never fails while the project's own frame fits the resolution. */
  lemma {:induction false} RotateRunCompletes(p: Project, res: (int, int), rot: Euler, steps: seq<int>, num: Numerics)
    requires Fit(p.hfov, p.vfov, res.0, res.1).Ok?
    ensures Run(p, res, RotateBy(rot), steps, num).err.None?
    ensures Run(p, res, RotateBy(rot), steps, num).final.hfov == p.hfov
    ensures Run(p, res, RotateBy(rot), steps, num).final.vfov == p.vfov
  {
    if steps != [] {
      RotateRunCompletes(p, res, rot, steps[..|steps| - 1], num);
    }
  }

  /** change_vfov as written raises NameError on its first step, before writing anything. */
  lemma UnboundVRunFails(p: Project, res: (int, int), hfov0: real, steps: seq<int>, num: Numerics)
    requires steps != []
    ensures Run(p, res, UnboundV(hfov0), steps, num) == Outcome([], p, Some(NameNotDefined("v")))
  {
    RunLength(p, res, UnboundV(hfov0), steps, num);
    assert Run(p, res, UnboundV(hfov0), steps, num).err.Some?;
    RunFailure(p, res, UnboundV(hfov0), steps, num);
  }

  /** A fov run completes when every step value gives a fov and that fov's frame fits the resolution. */
  lemma {:induction false} FovRunCompletes(p: Project, res: (int, int), m: Modify, steps: seq<int>, num: Numerics)
    requires !m.RotateBy?
    requires forall x :: x in steps ==>
      FovTarget(m, x).Ok? && Fit(FovTarget(m, x).value.0, FovTarget(m, x).value.1, res.0, res.1).Ok?
    ensures Run(p, res, m, steps, num).err.None?
  {
    if steps != [] {
      var init := steps[..|steps| - 1];
      assert forall x :: x in init ==> x in steps;
      FovRunCompletes(p, res, m, init, num);
      assert steps[|steps| - 1] in steps;
    }
  }

  /** A range that starts at 1 or above and ends at 0 or above, with a positive step, holds only positive values. */
  lemma MakeRangePositive(begin: real, end: int, step: int)
    requires begin >= 1.0 && end >= 0 && step > 0
    ensures MakeRange(begin, end, step).Ok?
    ensures forall x :: x in MakeRange(begin, end, step).value ==> x > 0
  {
    if (end as real) < begin {
      MakeRangeDown(begin, end, step);
    } else {
      MakeRangeUp(begin, end, step);
    }
  }

  /** Every positive step value of set_vfov gives a fov whose frame fits a resolution with a positive height. */
  lemma SetVfovStepFits(hfov: real, vfov: real, x: int, res: (int, int))
    requires vfov != 0.0 && x > 0 && res.0 >= 0 && res.1 > 0
    ensures FovTarget(KeepAspectVfov(hfov, vfov), x).Ok?
    ensures Fit(FovTarget(KeepAspectVfov(hfov, vfov), x).value.0, FovTarget(KeepAspectVfov(hfov, vfov), x).value.1, res.0, res.1).Ok?
  {
    var t := FovTarget(KeepAspectVfov(hfov, vfov), x).value;
    assert t.1 == x as real && t.1 != 0.0;
    assert (res.0 as real) / (res.1 as real) >= 0.0;
  }

  /** set_vfov with positive fields of view and resolution, a target not below 0 and a vfov of at least 1 completes. */
  lemma ExecSetVfovCompletes(p: Project, name: string, target: int, step: int, res: (int, int), num: Numerics)
    requires p.hfov > 0.0 && p.vfov >= 1.0 && res.0 > 0 && res.1 > 0
    requires step > 0 && target >= 0
    ensures MakeRange(p.vfov, target, step).Ok?
    ensures var x := Exec(p, SetVfov(name, target, step), res, num);
      x.err.None? && |x.written| == |MakeRange(p.vfov, target, step).value|
  {
    MakeRangePositive(p.vfov, target, step);
    var steps := MakeRange(p.vfov, target, step).value;
    var m := KeepAspectVfov(p.hfov, p.vfov);
    forall x | x in steps
      ensures FovTarget(m, x).Ok? && Fit(FovTarget(m, x).value.0, FovTarget(m, x).value.1, res.0, res.1).Ok?
    {
      SetVfovStepFits(p.hfov, p.vfov, x, res);
    }
    FovRunCompletes(p, res, m, steps, num);
    RunLength(p, res, m, steps, num);
    assert Exec(p, SetVfov(name, target, step), res, num) == Stepped(p, name, Ok(steps), m, res, num);
  }

  /** A zoom of the vertical fov from 60 toward 30 in steps of 3 writes ten snapshots, from 60 down to 33, at ratio 2. */
  lemma ZoomScenario(num: Numerics, groups: seq<ImageGroup>)
    ensures var p := Project(120.0, 60.0, "equirectangular", 0.0, groups);
      var x := Exec(p, SetVfov("zoom", 30, 3), (1920, 1080), num);
      && x.err.None? && |x.written| == 10
      && (forall i :: 0 <= i < 10 ==>
            x.written[i].0 == FileName("zoom", i)
            && x.written[i].1.vfov == (60 - 3 * i) as real
            && x.written[i].1.hfov == 2.0 * x.written[i].1.vfov)
      && x.batches == [("zoom.ptgbatch", FileNames("zoom", 10))]
  {
    var p := Project(120.0, 60.0, "equirectangular", 0.0, groups);
    var a := SetVfov("zoom", 30, 3);
    MakeRangeExamples();
    var range := MakeRange(60.0, 30, 3).value;
    ExecSetVfovCompletes(p, "zoom", 30, 3, (1920, 1080), num);
    var x := Exec(p, a, (1920, 1080), num);
    forall i | 0 <= i < 10
      ensures x.written[i].0 == FileName("zoom", i)
      ensures x.written[i].1.vfov == (60 - 3 * i) as real
      ensures x.written[i].1.hfov == 2.0 * x.written[i].1.vfov
    {
      ExecWrittenNames(p, a, (1920, 1080), num, i);
      ExecSetVfov(p, "zoom", 30, 3, (1920, 1080), num, i);
      assert range[i] == 60 - 3 * i;
      assert SameAspect(x.written[i].1.hfov, x.written[i].1.vfov, 120.0, 60.0);
    }
    ExecCompleted(p, a, (1920, 1080), num);
    assert MakeRange(p.vfov, 30, 3).value == range;
    assert |x.written| == 10;
    assert seq(|x.written|, i requires 0 <= i < |x.written| => x.written[i].0) == FileNames("zoom", 10);
    assert a.name + ".ptgbatch" == "zoom.ptgbatch";
  }

  /** What one action or a list of them leaves: the state, the snapshot log, the batch log, the exception. */
  datatype Effects = Effects(
    final: Project,
    written: seq<(string, Project)>,
    batches: seq<(string, seq<string>)>,
    err: Option<Error>)

  /** One transform description, by action. */
  datatype Action =
    | SetVfov(name: string, target: int, step: int)
    | SetHfov(name: string, target: int, step: int)
    | ChangeVfov(name: string, target: int, step: int)
    | ChangeHfov(name: string, target: int, step: int)
    | Rotate(name: string, angle: Euler, begin: real, end: int, step: int)
    | Projection(value: string)
    | Unknown(action: string)

  /** do_transforms over a range: transform, then the batch list of the names it returned. */
  function Stepped(p: Project, name: string, range: Result<seq<int>>, m: Modify, res: (int, int), num: Numerics): Effects {
    match range
    case Err(e) => Effects(p, [], [], Some(e))
    case Ok(steps) =>
      var o := Run(p, res, m, steps, num);
      Effects(o.final, Written(name, o.snapshots),
              if o.err.None? then [(name + ".ptgbatch", FileNames(name, |steps|))] else [],
              o.err)
  }

  /** The actions that step a transform over a range: all but projection and unknown ones. */
  predicate Stepping(a: Action) {
    !a.Projection? && !a.Unknown?
  }

  /** The range a stepping action runs over: from the current vfov or hfov, or from begin for rotate. */
  function ActionRange(p: Project, a: Action): Result<seq<int>>
    requires Stepping(a)
  {
    match a
    case SetVfov(_, target, step) => MakeRange(p.vfov, target, step)
    case SetHfov(_, target, step) => MakeRange(p.hfov, target, step)
    case ChangeVfov(_, target, step) => MakeRange(p.vfov, target, step)
    case ChangeHfov(_, target, step) => MakeRange(p.hfov, target, step)
    case Rotate(_, _, begin, end, step) => MakeRange(begin, end, step)
  }

  /** The per-step mutation of a stepping action, with the fields of view it captured before the first step. */
  function ActionModify(p: Project, a: Action): Modify
    requires Stepping(a)
  {
    match a
    case SetVfov(_, _, _) => KeepAspectVfov(p.hfov, p.vfov)
    case SetHfov(_, _, _) => KeepAspectHfov(p.hfov, p.vfov)
    case ChangeVfov(_, _, _) => UnboundV(p.hfov)
    case ChangeHfov(_, _, _) => KeepVfov(p.vfov)
    case Rotate(_, angle, _, _, _) => RotateBy(angle)
  }

  /** exec_transform. */
  function Exec(p: Project, a: Action, res: (int, int), num: Numerics): Effects {
    match a
    case Projection(value) => Effects(p.(projection := value), [], [], None)
    case Unknown(action) => Effects(p, [], [], Some(UnknownAction(action)))
    case _ => Stepped(p, a.name, ActionRange(p, a), ActionModify(p, a), res, num)
  }

  /** The actions in list order on one shared project, stopping at the first exception or unknown action. */
  function RunAll(p: Project, actions: seq<Action>, res: (int, int), num: Numerics): Effects
    decreases |actions|
  {
    if actions == [] then Effects(p, [], [], None)
    else
      var e := RunAll(p, actions[..|actions| - 1], res, num);
      if e.err.Some? then e
      else
        var x := Exec(e.final, actions[|actions| - 1], res, num);
        Effects(x.final, e.written + x.written, e.batches + x.batches, x.err)
  }

  /** The process's exit status: 1 after an exception or an unknown action, 0 otherwise. */
  function ExitStatus(e: Effects): int {
    if e.err.None? then 0 else 1
  }

  /** The name under which snapshot i of a transform is written. */
  lemma ExecWrittenNames(p: Project, a: Action, res: (int, int), num: Numerics, i: nat)
    requires Stepping(a)
    requires i < |Exec(p, a, res, num).written|
    ensures Exec(p, a, res, num).written[i].0 == FileName(a.name, i)
  {
  }

  /** A stepping action that completes writes one snapshot per range element and lists exactly those files in its batch. */
  lemma ExecCompleted(p: Project, a: Action, res: (int, int), num: Numerics)
    requires Stepping(a)
    requires Exec(p, a, res, num).err.None?
    ensures var x := Exec(p, a, res, num);
      && ActionRange(p, a).Ok?
      && |x.written| == |ActionRange(p, a).value|
      && x.batches == [(a.name + ".ptgbatch", seq(|x.written|, i requires 0 <= i < |x.written| => x.written[i].0))]
  {
    var x := Exec(p, a, res, num);
    var steps := ActionRange(p, a).value;
    var m := ActionModify(p, a);
    assert x == Stepped(p, a.name, Ok(steps), m, res, num);
    RunLength(p, res, m, steps, num);
    assert FileNames(a.name, |steps|) == seq(|x.written|, i requires 0 <= i < |x.written| => x.written[i].0);
  }

  /** A zero step stops a stepping action before it changes or writes anything. */
  lemma ExecZeroStep(p: Project, a: Action, res: (int, int), num: Numerics)
    requires Stepping(a) && a.step == 0
    ensures Exec(p, a, res, num) == Effects(p, [], [], Some(ZeroStep))
  {
  }

  /** set_vfov: snapshot i has the i-th range value as vfov and keeps the aspect ratio the action started with. */
  lemma ExecSetVfov(p: Project, name: string, target: int, step: int, res: (int, int), num: Numerics, i: nat)
    requires i < |Exec(p, SetVfov(name, target, step), res, num).written|
    ensures var s := Exec(p, SetVfov(name, target, step), res, num).written[i].1;
      && MakeRange(p.vfov, target, step).Ok? && i < |MakeRange(p.vfov, target, step).value|
      && s.vfov == MakeRange(p.vfov, target, step).value[i] as real
      && SameAspect(s.hfov, s.vfov, p.hfov, p.vfov)
      && s.imageGroups == p.imageGroups && s.projection == p.projection
  {
    var range := MakeRange(p.vfov, target, step);
    var m := KeepAspectVfov(p.hfov, p.vfov);
    assert Exec(p, SetVfov(name, target, step), res, num) == Stepped(p, name, range, m, res, num);
    var o := Run(p, res, m, range.value, num);
    FovRunSnapshots(p, res, m, range.value, num, i);
    var s := o.snapshots[i];
    assert Exec(p, SetVfov(name, target, step), res, num).written[i].1 == s;
  }

  /** set_hfov: snapshot i has the i-th range value as hfov and keeps the aspect ratio the action started with. */
  lemma ExecSetHfov(p: Project, name: string, target: int, step: int, res: (int, int), num: Numerics, i: nat)
    requires i < |Exec(p, SetHfov(name, target, step), res, num).written|
    ensures var s := Exec(p, SetHfov(name, target, step), res, num).written[i].1;
      && MakeRange(p.hfov, target, step).Ok? && i < |MakeRange(p.hfov, target, step).value|
      && s.hfov == MakeRange(p.hfov, target, step).value[i] as real
      && SameAspect(s.hfov, s.vfov, p.hfov, p.vfov)
      && s.imageGroups == p.imageGroups && s.projection == p.projection
  {
    var range := MakeRange(p.hfov, target, step);
    var m := KeepAspectHfov(p.hfov, p.vfov);
    assert Exec(p, SetHfov(name, target, step), res, num) == Stepped(p, name, range, m, res, num);
    var o := Run(p, res, m, range.value, num);
    FovRunSnapshots(p, res, m, range.value, num, i);
    var s := o.snapshots[i];
    assert Exec(p, SetHfov(name, target, step), res, num).written[i].1 == s;
  }

  /** change_hfov: snapshot i has the i-th range value as hfov and the vfov the action started with. */
  lemma ExecChangeHfov(p: Project, name: string, target: int, step: int, res: (int, int), num: Numerics, i: nat)
    requires i < |Exec(p, ChangeHfov(name, target, step), res, num).written|
    ensures var s := Exec(p, ChangeHfov(name, target, step), res, num).written[i].1;
      && MakeRange(p.hfov, target, step).Ok? && i < |MakeRange(p.hfov, target, step).value|
      && s.hfov == MakeRange(p.hfov, target, step).value[i] as real
      && s.vfov == p.vfov
      && s.imageGroups == p.imageGroups && s.projection == p.projection
  {
    FovRunSnapshots(p, res, KeepVfov(p.vfov), MakeRange(p.hfov, target, step).value, num, i);
  }

  /** change_vfov: any non-empty range ends the run with NameError before anything is written. */
  lemma ExecChangeVfov(p: Project, name: string, target: int, step: int, res: (int, int), num: Numerics)
    requires MakeRange(p.vfov, target, step).Ok? && MakeRange(p.vfov, target, step).value != []
    ensures Exec(p, ChangeVfov(name, target, step), res, num) == Effects(p, [], [], Some(NameNotDefined("v")))
  {
    UnboundVRunFails(p, res, p.hfov, MakeRange(p.vfov, target, step).value, num);
  }

  /** rotate: snapshot i holds the (i + 1)-fold rotation of every orientation; fov and projection stay. */
  lemma ExecRotate(p: Project, name: string, angle: Euler, begin: real, end: int, step: int,
                   res: (int, int), num: Numerics, i: nat, j: nat)
    requires i < |Exec(p, Rotate(name, angle, begin, end, step), res, num).written|
    requires j < |p.imageGroups|
    ensures var s := Exec(p, Rotate(name, angle, begin, end, step), res, num).written[i].1;
      && |s.imageGroups| == |p.imageGroups|
      && s.imageGroups[j].position == IteratePosition(num, angle, i + 1, p.imageGroups[j].position)
      && s.imageGroups[j].linkable == IteratePosition(num, angle, i + 1, p.imageGroups[j].linkable)
      && s.hfov == p.hfov && s.vfov == p.vfov && s.projection == p.projection
  {
    RotateRunSnapshots(p, res, angle, MakeRange(begin, end, step).value, num, i);
    IterateGroupsPointwise(num, angle, i + 1, p.imageGroups);
  }

  /** Appending a log in two pieces is appending their concatenation. */
  lemma ConcatAssoc<T>(a: seq<T>, b: seq<T>, c: seq<T>)
    ensures a + b + c == a + (b + c)
  {
  }

  /** One more action: nothing after a run that has stopped, otherwise its effects follow the run's. */
  lemma RunAllSnoc(p: Project, actions: seq<Action>, a: Action, res: (int, int), num: Numerics)
    ensures var e := RunAll(p, actions, res, num);
      var x := Exec(e.final, a, res, num);
      RunAll(p, actions + [a], res, num)
        == if e.err.Some? then e else Effects(x.final, e.written + x.written, e.batches + x.batches, x.err)
  {
    assert (actions + [a])[..|actions|] == actions;
  }

  /** The prefix of i + 1 actions is the prefix of i followed by action i. */
  lemma RunAllPrefix(p: Project, actions: seq<Action>, i: nat, res: (int, int), num: Numerics)
    requires i < |actions|
    ensures var e := RunAll(p, actions[..i], res, num);
      var x := Exec(e.final, actions[i], res, num);
      RunAll(p, actions[..i + 1], res, num)
        == if e.err.Some? then e else Effects(x.final, e.written + x.written, e.batches + x.batches, x.err)
  {
    assert actions[..i + 1] == actions[..i] + [actions[i]];
    RunAllSnoc(p, actions[..i], actions[i], res, num);
  }

  /** Once the list of actions has stopped, later actions do nothing. */
  lemma {:induction false} RunAllStops(p: Project, actions: seq<Action>, k: nat, res: (int, int), num: Numerics)
    requires k <= |actions| && RunAll(p, actions[..k], res, num).err.Some?
    ensures RunAll(p, actions, res, num) == RunAll(p, actions[..k], res, num)
  {
    if k < |actions| {
      assert actions[..|actions| - 1][..k] == actions[..k];
      RunAllStops(p, actions[..|actions| - 1], k, res, num);
    } else {
      assert actions[..k] == actions;
    }
  }

  /** An unknown action ends the run with status 1; what the earlier actions did and wrote stands. */
  lemma UnknownActionHalts(p: Project, before: seq<Action>, tag: string, after: seq<Action>, res: (int, int), num: Numerics)
    requires RunAll(p, before, res, num).err.None?
    ensures var e := RunAll(p, before, res, num);
      RunAll(p, before + [Unknown(tag)] + after, res, num) == e.(err := Some(UnknownAction(tag)))
    ensures ExitStatus(RunAll(p, before + [Unknown(tag)] + after, res, num)) == 1
  {
    var all := before + [Unknown(tag)] + after;
    var k := |before| + 1;
    assert all[..k] == before + [Unknown(tag)];
    assert all[..k][..k - 1] == before;
    RunAllStops(p, all, k, res, num);
  }

  /** The first action runs on the given project and the rest on the state it leaves, their logs concatenated. */
  lemma {:induction false} RunAllCons(p: Project, a: Action, rest: seq<Action>, res: (int, int), num: Numerics)
    requires Exec(p, a, res, num).err.None?
    ensures var x := Exec(p, a, res, num);
      var r := RunAll(x.final, rest, res, num);
      RunAll(p, [a] + rest, res, num) == Effects(r.final, x.written + r.written, x.batches + r.batches, r.err)
    decreases |rest|
  {
    var x := Exec(p, a, res, num);
    if rest == [] {
      RunAllSnoc(p, [], a, res, num);
      assert [a] + rest == [] + [a];
    } else {
      var init, last := rest[..|rest| - 1], rest[|rest| - 1];
      assert [a] + rest == ([a] + init) + [last];
      assert rest == init + [last];
      RunAllCons(p, a, init, res, num);
      RunAllSnoc(p, [a] + init, last, res, num);
      RunAllSnoc(x.final, init, last, res, num);
      var r' := RunAll(x.final, init, res, num);
      var y := Exec(r'.final, last, res, num);
      ConcatAssoc(x.written, r'.written, y.written);
      ConcatAssoc(x.batches, r'.batches, y.batches);
    }
  }
}

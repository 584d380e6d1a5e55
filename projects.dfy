/**
 * The part of a PTGui project that the tool reads and writes, as a value, and the
 * value-level effect of each accessor that changes it.
 */
module Projects {
  import opened Errors
  import opened Quaternions

  /** One image group: the image's own orientation and that of its linkable companion. */
  datatype ImageGroup = ImageGroup(position: Euler, linkable: Euler)

  /** panoramaparams.hfov/vfov/projection, outputsize.pixels and the image groups. */
  datatype Project = Project(
    hfov: real,
    vfov: real,
    projection: string,
    pixels: real,
    imageGroups: seq<ImageGroup>)

  /**
   * The output frame set_resolution chooses: the field of view's aspect ratio fitted
   * into the requested resolution, or the division by zero Python raises.
   */
  function Fit(hfov: real, vfov: real, hres: int, vres: int): (r: Result<(real, real)>)
    ensures r.Err? <==> vres == 0 || vfov == 0.0 || (hfov == 0.0 && (hres as real) / (vres as real) < 0.0)
    ensures r.Err? ==> r.error == ZeroDivision
  {
    if vres == 0 then Err(ZeroDivision)
    else
      var r1 := (hres as real) / (vres as real);
      if vfov == 0.0 then Err(ZeroDivision)
      else
        var r2 := hfov / vfov;
        if r2 > r1 then
          var h := hres as real;
          if r2 == 0.0 then Err(ZeroDivision) else Ok((h, h / r2))
        else
          var v := vres as real;
          Ok((v * r2, v))
  }

  /** For positive inputs the frame has the fov's aspect ratio, fits the resolution and fills one side of it. */
  lemma FitFillsFrame(hfov: real, vfov: real, hres: int, vres: int)
    requires hfov > 0.0 && vfov > 0.0 && hres > 0 && vres > 0
    ensures Fit(hfov, vfov, hres, vres).Ok?
    ensures var (h, v) := Fit(hfov, vfov, hres, vres).value;
      && 0.0 < h <= hres as real && 0.0 < v <= vres as real
      && h * vfov == v * hfov
      && (hfov / vfov > (hres as real) / (vres as real) ==> h == hres as real)
      && (hfov / vfov <= (hres as real) / (vres as real) ==> v == vres as real)
  {
    var r1 := (hres as real) / (vres as real);
    var r2 := hfov / vfov;
    assert hfov == r2 * vfov;
    assert hres as real == r1 * (vres as real);
    var (h, v) := Fit(hfov, vfov, hres, vres).value;
    if r2 > r1 {
      assert h == hres as real && v == h / r2;
      assert v * r2 == h;
      assert h * vfov == v * r2 * vfov;
      assert v * r2 < r2 * (vres as real);
    } else {
      assert v == vres as real && h == v * r2;
      assert h * vfov == v * (r2 * vfov);
      assert h <= r1 * v;
    }
  }

  /** No frame with the fov's aspect ratio that fits the resolution is larger than the chosen one. */
  lemma FitIsLargest(hfov: real, vfov: real, hres: int, vres: int, h': real, v': real)
    requires hfov > 0.0 && vfov > 0.0 && hres > 0 && vres > 0
    requires 0.0 < h' <= hres as real && 0.0 < v' <= vres as real && h' * vfov == v' * hfov
    ensures Fit(hfov, vfov, hres, vres).Ok?
    ensures h' <= Fit(hfov, vfov, hres, vres).value.0 && v' <= Fit(hfov, vfov, hres, vres).value.1
  {
    FitFillsFrame(hfov, vfov, hres, vres);
    var (h, v) := Fit(hfov, vfov, hres, vres).value;
    if h == hres as real {
      assert v' * hfov == h' * vfov <= h * vfov == v * hfov;
    } else {
      assert v == vres as real;
      assert h' * vfov == v' * hfov <= v * hfov == h * vfov;
    }
  }

  /** set_resolution: outputsize.pixels becomes the area of the fitted frame; nothing else changes. */
  function Resolved(p: Project, hres: int, vres: int): (r: Result<Project>)
    ensures r.Ok? <==> Fit(p.hfov, p.vfov, hres, vres).Ok?
    ensures r.Err? ==> r.error == ZeroDivision
    ensures r.Ok? ==> r.value == p.(pixels := r.value.pixels)
    ensures r.Ok? ==> r.value.pixels == Fit(p.hfov, p.vfov, hres, vres).value.0 * Fit(p.hfov, p.vfov, hres, vres).value.1
  {
    match Fit(p.hfov, p.vfov, hres, vres)
    case Err(e) => Err(e)
    case Ok((h, v)) => Ok(p.(pixels := h * v))
  }

  /** One image group after the rotation: both orientations composed with rot. */
  function RotateGroup(num: Numerics, rot: Euler, g: ImageGroup): ImageGroup {
    ImageGroup(RotatePosition(num, rot, g.position), RotatePosition(num, rot, g.linkable))
  }

  /** Every image group rotated, in the same order. */
  function RotateGroups(num: Numerics, rot: Euler, gs: seq<ImageGroup>): (r: seq<ImageGroup>)
    ensures |r| == |gs|
    ensures forall i :: 0 <= i < |gs| ==> r[i] == RotateGroup(num, rot, gs[i])
  {
    seq(|gs|, i requires 0 <= i < |gs| => RotateGroup(num, rot, gs[i]))
  }

  /** k rotations of every image group, each applied to the result of the previous one. */
  function IterateGroups(num: Numerics, rot: Euler, k: nat, gs: seq<ImageGroup>): seq<ImageGroup> {
    if k == 0 then gs else RotateGroups(num, rot, IterateGroups(num, rot, k - 1, gs))
  }

  /** After k rotations each group holds the k-fold iterate of its own two orientations. */
  lemma {:induction false} IterateGroupsPointwise(num: Numerics, rot: Euler, k: nat, gs: seq<ImageGroup>)
    ensures |IterateGroups(num, rot, k, gs)| == |gs|
    ensures forall j :: 0 <= j < |gs| ==>
      IterateGroups(num, rot, k, gs)[j]
        == ImageGroup(IteratePosition(num, rot, k, gs[j].position), IteratePosition(num, rot, k, gs[j].linkable))
  {
    if k > 0 {
      IterateGroupsPointwise(num, rot, k - 1, gs);
    }
  }
}

/** One call of datagen.gen_srnet_data_with_background, reduced to its
    integer and sequence bookkeeping (Synthtext/gen.py:90-214). Every random
    draw, and every size the opaque renderer and warp produce, is a field of
    `Draws`; pixel work is not modelled. */
module SampleGen {
  import opened Outcomes
  import opened Geometry
  import opened Casing

  /** The two casing probabilities of the configuration. */
  datatype Config = Config(capitalizeRate: real, uppercaseRate: real)

  /** Everything one pass of the generator loop draws or receives from its
      collaborators. */
  datatype Draws = Draws(
    text1: string,             // np.random.choice(en_text_list)
    text2: string,             // np.random.choice(ch_text_list)
    caseDraw: real,            // np.random.rand() for the casing
    curveCenter: nat,          // np.random.randint(0, len(text1))
    surf1: Size,               // text1 surface after perspective
    surf2: Size,               // text2 surface after perspective
    boxHeights1: seq<int>,     // bbs1[:, 3]
    boxHeights2: seq<int>,     // bbs2[:, 3]
    bgSize: Size,              // bg.shape[:2]
    bg: Grid,                  // the background image
    x: nat,                    // np.random.randint(0, bg_w - surf_w + 1)
    y: nat)                    // np.random.randint(0, bg_h - surf_h + 1)

  /** The draws lie in the ranges numpy produces them from, for the draws
      the attempt actually reaches. */
  ghost predicate ValidDraws(d: Draws) {
    && HasSize(d.bg, d.bgSize)
    && 0.0 <= d.caseDraw < 1.0
    && (|d.text1| > 0 ==> d.curveCenter < |d.text1|)
    && var canvas := CommonCanvas(d.surf1, d.surf2);
       !Rejects(d.bgSize, canvas) ==> d.x <= d.bgSize.w - canvas.w && d.y <= d.bgSize.h - canvas.h
  }

  /** The geometry one successful attempt settles on. */
  datatype Plan = Plan(
    text1: string,       // text1 after casing
    curveCenter2: nat,   // param['curve_center'] remapped to text2; never read afterwards
    canvas: Size,        // (surf_h, surf_w), the size of every artifact
    window: Window,      // where t_b was cut from the background
    tB: Grid,            // t_b before augmentation
    minH: int)           // min_h for the border and shadow effects

  datatype AttemptOutcome =
    | Retry                    // background too small: `continue`
    | Failed(error: Error)     // an exception leaves the generator
    | Planned(plan: Plan)

  /** One pass of the `while True` body, up to the point where only pixel
      work remains. */
  function Attempt(cfg: Config, d: Draws): (o: AttemptOutcome)
    requires ValidDraws(d)
    ensures o.Retry? <==> |d.text1| > 0 && Rejects(d.bgSize, CommonCanvas(d.surf1, d.surf2))
    ensures o.Failed? <==>
      |d.text1| == 0 ||
      (!Rejects(d.bgSize, CommonCanvas(d.surf1, d.surf2)) && (|d.boxHeights1| == 0 || |d.boxHeights2| == 0))
    ensures o.Failed? && |d.text1| == 0 ==> o.error == EmptyRange
    ensures o.Failed? && |d.text1| > 0 ==> o.error == EmptyReduction
    ensures o.Planned? ==>
      var p := o.plan;
      && p.text1 == CaseText(d.text1, d.caseDraw, cfg.capitalizeRate, cfg.uppercaseRate)
      && p.curveCenter2 == CurveCenterRemap(d.curveCenter, |d.text1|, |d.text2|)
      && p.canvas == CommonCanvas(d.surf1, d.surf2)
      && Contains(p.canvas, d.surf1) && Contains(p.canvas, d.surf2)
      && Contains(d.bgSize, p.canvas)
      && p.window == Window(d.y, d.x, p.canvas.h, p.canvas.w)
      && WithinImage(p.window, d.bgSize)
      && HasSize(p.tB, p.canvas)
      && (forall i, j :: 0 <= i < p.canvas.h && 0 <= j < p.canvas.w ==>
            p.tB[i][j] == d.bg[p.window.top + i][p.window.left + j])
      && MinBoxHeight(d.boxHeights1, d.boxHeights2) == Ok(p.minH)
      && (forall hgt :: hgt in d.boxHeights1 || hgt in d.boxHeights2 ==> p.minH <= hgt)
      && (p.minH in d.boxHeights1 || p.minH in d.boxHeights2)
  {
    var t1 := CaseText(d.text1, d.caseDraw, cfg.capitalizeRate, cfg.uppercaseRate);
    if |t1| == 0 then
      // curve_center: np.random.randint(0, 0) raises before anything is rendered
      Failed(EmptyRange)
    else
      var center2 := CurveCenterRemap(d.curveCenter, |t1|, |d.text2|);
      var canvas := CommonCanvas(d.surf1, d.surf2);
      if Rejects(d.bgSize, canvas) then Retry
      else
        var win := CropWindow(d.bgSize, canvas, d.x, d.y);
        var tB := Crop(d.bg, d.bgSize, win);
        match MinBoxHeight(d.boxHeights1, d.boxHeights2)
        case Err(e) => Failed(e)
        case Ok(m) => Planned(Plan(t1, center2, canvas, win, tB, m))
  }

  /** Where the loop stands after a finite list of passes. */
  datatype GenResult =
    | StillRetrying                                  // every pass so far hit `continue`
    | Finished(index: nat, outcome: AttemptOutcome)  // the pass that ended the loop

  /** The `while True` loop: passes are taken in order until one does not
      retry. */
  function Generate(cfg: Config, ds: seq<Draws>): (g: GenResult)
    requires forall k :: 0 <= k < |ds| ==> ValidDraws(ds[k])
    ensures g.StillRetrying? ==> forall k :: 0 <= k < |ds| ==> Attempt(cfg, ds[k]).Retry?
    ensures g.Finished? ==>
      && g.index < |ds|
      && g.outcome == Attempt(cfg, ds[g.index])
      && !g.outcome.Retry?
      && forall k :: 0 <= k < g.index ==> Attempt(cfg, ds[k]).Retry?
  {
    if |ds| == 0 then StillRetrying
    else
      var o := Attempt(cfg, ds[0]);
      if !o.Retry? then Finished(0, o)
      else
        match Generate(cfg, ds[1..])
        case StillRetrying => StillRetrying
        case Finished(i, o') => Finished(i + 1, o')
  }
}

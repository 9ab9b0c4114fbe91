/** Integer geometry of one sample: the curve-centre remap, the common
    canvas of the two warped text surfaces, the background fit test, the crop
    window and the minimum box height (Synthtext/gen.py:127-182). */
module Geometry {
  import opened Outcomes

  /** Height and width of an image, as `img.shape[:2]` gives them. */
  datatype Size = Size(h: nat, w: nat)

  /** A rectangle of a background: top row, left column, height, width. */
  datatype Window = Window(top: nat, left: nat, h: nat, w: nat)

  /** One channel-abstracted pixel value. */
  type Pixel = int

  /** An image as a list of rows. */
  type Grid = seq<seq<Pixel>>

  /** Every row has `sz.w` pixels and there are `sz.h` rows. */
  ghost predicate HasSize(g: Grid, sz: Size) {
    |g| == sz.h && forall i :: 0 <= i < |g| ==> |g[i]| == sz.w
  }

  ghost predicate Contains(outer: Size, inner: Size) {
    inner.h <= outer.h && inner.w <= outer.w
  }

  /** The window lies wholly inside an image of size `bg`. */
  ghost predicate WithinImage(win: Window, bg: Size) {
    win.top + win.h <= bg.h && win.left + win.w <= bg.w
  }

  /** The curve centre of text1 (an index drawn from [0, len1)) carried over
      to text2 proportionally: int(c / len1 * len2). This is the exact
      rational floor; the source computes it in floating point, where the
      product can fall just below an integer (1/49*49 is 0.9999999999999999)
      and truncate one lower. The value is never used for rendering: text2 is
      drawn with render_normal, which takes no curve parameter. */
  function CurveCenterRemap(c: nat, len1: nat, len2: nat): (r: nat)
    requires 0 < len1 && c < len1
    ensures r * len1 <= c * len2 < (r + 1) * len1
    ensures 0 < len2 ==> r < len2
    ensures c == 0 ==> r == 0
  {
    RemapBounds(c, len1, len2);
    (c * len2) / len1
  }

  lemma RemapBounds(c: nat, len1: nat, len2: nat)
    requires 0 < len1 && c < len1
    ensures 0 < len2 ==> (c * len2) / len1 < len2
  {
    if 0 < len2 {
      assert c * len2 < len1 * len2;
    }
  }

  /** A later character of text1 never maps to an earlier character of text2. */
  lemma CurveCenterRemapMonotone(c1: nat, c2: nat, len1: nat, len2: nat)
    requires 0 < len1 && c1 <= c2 < len1
    ensures CurveCenterRemap(c1, len1, len2) <= CurveCenterRemap(c2, len1, len2)
  {
    var r1 := CurveCenterRemap(c1, len1, len2);
    var r2 := CurveCenterRemap(c2, len1, len2);
    MulMonotone(c1, c2, len2);
    assert r1 * len1 < (r2 + 1) * len1;
    MulCancel(r1, r2 + 1, len1);
  }

  lemma MulMonotone(a: nat, b: nat, n: nat)
    requires a <= b
    ensures a * n <= b * n
  {
  }

  lemma MulCancel(a: nat, b: nat, n: nat)
    requires a * n < b * n
    ensures a < b
  {
    if b <= a {
      MulMonotone(b, a, n);
    }
  }

  /** Index 5 of a 10-character text1 maps to index 4 of an 8-character text2. */
  lemma CurveCenterRemapExample()
    ensures CurveCenterRemap(5, 10, 8) == 4
  {
  }

  /** The canvas both warped surfaces are padded or cropped to: the
      componentwise maximum of their sizes. */
  function CommonCanvas(s1: Size, s2: Size): (c: Size)
    ensures Contains(c, s1) && Contains(c, s2)
    ensures c.h == s1.h || c.h == s2.h
    ensures c.w == s1.w || c.w == s2.w
  {
    Size(if s1.h >= s2.h then s1.h else s2.h, if s1.w >= s2.w then s1.w else s2.w)
  }

  /** The canvas is the smallest size holding both surfaces. */
  lemma CommonCanvasLeast(s1: Size, s2: Size, other: Size)
    requires Contains(other, s1) && Contains(other, s2)
    ensures Contains(other, CommonCanvas(s1, s2))
  {
  }

  /** The background test that sends the generator back to the start of its
      loop: the background is narrower or shorter than the canvas. */
  predicate Rejects(bg: Size, canvas: Size) {
    bg.w < canvas.w || bg.h < canvas.h
  }

  lemma RejectsIffNotContains(bg: Size, canvas: Size)
    ensures Rejects(bg, canvas) <==> !Contains(bg, canvas)
  {
  }

  /** The crop window for offsets drawn as np.random.randint(0, bg_w - surf_w + 1)
      and np.random.randint(0, bg_h - surf_h + 1). */
  function CropWindow(bg: Size, canvas: Size, x: nat, y: nat): (win: Window)
    requires !Rejects(bg, canvas)
    requires x <= bg.w - canvas.w && y <= bg.h - canvas.h
    ensures win.h == canvas.h && win.w == canvas.w
    ensures WithinImage(win, bg)
    ensures win.left == x && win.top == y
  {
    Window(y, x, canvas.h, canvas.w)
  }

  /** Every window of the canvas's size that fits in the background is the
      window of some admissible offset pair, so the offset ranges cover all
      placements. */
  lemma CropWindowCoversAll(bg: Size, canvas: Size, win: Window)
    requires win.h == canvas.h && win.w == canvas.w && WithinImage(win, bg)
    ensures !Rejects(bg, canvas)
    ensures win.left <= bg.w - canvas.w && win.top <= bg.h - canvas.h
    ensures CropWindow(bg, canvas, win.left, win.top) == win
  {
  }

  /** `bg[y:y+h, x:x+w]`. */
  function Crop(g: Grid, bg: Size, win: Window): (t: Grid)
    requires HasSize(g, bg) && WithinImage(win, bg)
    ensures HasSize(t, Size(win.h, win.w))
    ensures forall i, j :: 0 <= i < win.h && 0 <= j < win.w ==> t[i][j] == g[win.top + i][win.left + j]
  {
    seq(win.h, i requires 0 <= i < win.h => g[win.top + i][win.left .. win.left + win.w])
  }

  /** Smallest element of a non-empty list (np.min). */
  function SeqMin(s: seq<int>): (m: int)
    requires |s| > 0
    ensures m in s
    ensures forall x :: x in s ==> m <= x
  {
    if |s| == 1 then s[0]
    else
      var rest := SeqMin(s[1..]);
      assert forall x :: x in s ==> x == s[0] || x in s[1..];
      if s[0] <= rest then s[0] else rest
  }

  /** min(np.min(bbs1[:, 3]), np.min(bbs2[:, 3])): the smallest character box
      height over both texts, which scales the border and shadow effects.
      np.min over an empty box array raises. */
  function MinBoxHeight(hs1: seq<int>, hs2: seq<int>): (r: Result<int>)
    ensures r.Ok? <==> |hs1| > 0 && |hs2| > 0
    ensures r.Err? ==> r.error == EmptyReduction
    ensures r.Ok? ==> forall x :: x in hs1 || x in hs2 ==> r.value <= x
    ensures r.Ok? ==> r.value in hs1 || r.value in hs2
  {
    if |hs1| == 0 || |hs2| == 0 then Err(EmptyReduction)
    else
      var m1 := SeqMin(hs1);
      var m2 := SeqMin(hs2);
      Ok(if m1 <= m2 then m1 else m2)
  }
}

/** Where the stamp goes on a page, and how that agrees with the preview on the phone.  Lengths are
    real numbers; rounding to two decimals is explicit, floating-point error is not modelled. */
module Stamp {
  import opened Basics

  const ASPECT: real := 0.42

  /** A product, named so that proofs can leave it alone. */
  function Times(a: real, b: real): (r: real) {
    a * b
  }

  function Clamp(v: real, lo: real, hi: real): (r: real) {
    if v < lo then lo else if v > hi then hi else v
  }

  function Max(a: real, b: real): (r: real) {
    if a < b then b else a
  }

  /** `math.Round`: to the nearest integer, halves away from zero. */
  function RoundInt(v: real): (n: int)
    ensures v - 0.5 <= n as real <= v + 0.5
  {
    if v >= 0.0 then (v + 0.5).Floor else -((-v + 0.5).Floor)
  }

  /** Two decimals. */
  function Round2(v: real): (r: real)
    ensures v - 0.005 <= r <= v + 0.005
  {
    RoundInt(v * 100.0) as real / 100.0
  }

  // ---- one placement ----

  /** Fractions of the page with the origin at the top left. */
  datatype Placement = Placement(page: int, x: real, y: real, w: real)

  datatype Dim = Dim(width: real, height: real)

  /** A box in page units, by its lower left corner. */
  datatype Box = Box(llx: real, lly: real, width: real, height: real)

  /** Width and height of a box asked to be `w0` wide on a page `h` high: at most nine tenths of it. */
  function Fitted(w0: real, h: real): (r: (real, real)) {
    if w0 * ASPECT > h * 0.9 then ((h * 0.9) / ASPECT, h * 0.9) else (w0, w0 * ASPECT)
  }

  /** Corner of a box at offset `x` from the left and `y` from the top, pushed back onto the page. */
  function Cornered(d: Dim, x: real, y: real, boxW: real, boxH: real): (b: Box) {
    Box(Clamp(x, 0.0, Max(0.0, d.width - boxW)), Clamp(d.height - y - boxH, 0.0, Max(0.0, d.height - boxH)), boxW, boxH)
  }

  /** The same in page units: offsets and requested width already multiplied out. */
  function BoxAt(d: Dim, x: real, y: real, w0: real): (b: Box) {
    var (boxW, boxH) := Fitted(w0, d.height);
    Cornered(d, x, y, boxW, boxH)
  }

  function BoxOn(d: Dim, p: Placement): (b: Box) {
    BoxAt(d, Times(Clamp(p.x, 0.0, 1.0), d.width), Times(Clamp(p.y, 0.0, 1.0), d.height), Times(Clamp(p.w, 0.06, 0.9), d.width))
  }

  predicate Drawable(b: Box) {
    b.width > 0.0 && b.height > 0.0
  }

  function Rounded(b: Box): (r: Box) {
    Box(Round2(b.llx), Round2(b.lly), Round2(b.width), Round2(b.height))
  }

  predicate OnPage(d: Dim, b: Box) {
    0.0 <= b.llx && 0.0 <= b.lly && b.llx + b.width <= d.width && b.lly + b.height <= d.height
  }

  lemma Scaled(f: real, a: real)
    requires 0.0 < f <= 0.9
    ensures a > 0.0 ==> 0.0 < Times(f, a) <= 0.9 * a
    ensures a <= 0.0 ==> Times(f, a) <= 0.0
  {
    if a > 0.0 { assert (0.9 - f) * a >= 0.0; }
  }

  /** A placement is drawable exactly when the page has positive dimensions. */
  lemma DrawableIff(d: Dim, p: Placement)
    ensures Drawable(BoxOn(d, p)) <==> d.width > 0.0 && d.height > 0.0
  {
    Scaled(Clamp(p.w, 0.06, 0.9), d.width);
    hide Times;
  }

  lemma BoxAtOnPage(d: Dim, x: real, y: real, w0: real)
    requires 0.0 < w0 <= 0.9 * d.width && d.height > 0.0
    ensures OnPage(d, BoxAt(d, x, y, w0)) && BoxAt(d, x, y, w0).height == ASPECT * BoxAt(d, x, y, w0).width
  {
  }

  /** The unrounded box lies fully on the page and has the stamp's aspect; rounding to two decimals
      moves no edge by more than 0.01 past the page. */
  lemma PlacedOnPage(d: Dim, p: Placement)
    requires d.width > 0.0 && d.height > 0.0
    ensures OnPage(d, BoxOn(d, p)) && BoxOn(d, p).height == ASPECT * BoxOn(d, p).width
    ensures var r := Rounded(BoxOn(d, p));
            && -0.01 <= r.llx && -0.01 <= r.lly
            && r.llx + r.width <= d.width + 0.01 && r.lly + r.height <= d.height + 0.01
  {
    hide Rounded, Round2, RoundInt, BoxAt, Times;
    Scaled(Clamp(p.w, 0.06, 0.9), d.width);
    BoxAtOnPage(d, Times(Clamp(p.x, 0.0, 1.0), d.width), Times(Clamp(p.y, 0.0, 1.0), d.height), Times(Clamp(p.w, 0.06, 0.9), d.width));
    RoundingOvershoot(d, BoxOn(d, p));
  }

  /** The box is as wide as asked, within 6 to 90 percent of the page, or as wide as nine tenths of the
      height allow; and it stands where asked, pushed back only as far as the page needs. */
  lemma PlacedAsAsked(d: Dim, p: Placement)
    requires d.width > 0.0 && d.height > 0.0
    ensures var b := BoxOn(d, p);
            var asked := Times(Clamp(p.w, 0.06, 0.9), d.width);
            && b.width <= asked && b.height <= 0.9 * d.height && (b.width == asked || b.height == 0.9 * d.height)
            && AsAsked(b.llx, Times(Clamp(p.x, 0.0, 1.0), d.width), b.width, d.width)
            && AsAsked(d.height - b.lly - b.height, Times(Clamp(p.y, 0.0, 1.0), d.height), b.height, d.height)
  {
    Scaled(Clamp(p.w, 0.06, 0.9), d.width);
    var x, y := Clamp(p.x, 0.0, 1.0), Clamp(p.y, 0.0, 1.0);
    assert 0.0 <= Times(x, d.width) && 0.0 <= Times(y, d.height) by { assert x * d.width >= 0.0 && y * d.height >= 0.0; }
    hide Times;
    BoxAtAsAsked(d, Times(x, d.width), Times(y, d.height), Times(Clamp(p.w, 0.06, 0.9), d.width));
  }

  /** An interval of some length is where it was asked to be, or, if that would leave the page, flush with
      its end. */
  predicate AsAsked(start: real, asked: real, length: real, page: real) {
    if asked + length <= page then start == asked else start + length == page
  }

  lemma BoxAtAsAsked(d: Dim, x: real, y: real, w0: real)
    requires 0.0 < w0 <= 0.9 * d.width && d.height > 0.0 && 0.0 <= x && 0.0 <= y
    ensures var b := BoxAt(d, x, y, w0);
            && b.width <= w0 && b.height <= 0.9 * d.height && (b.width == w0 || b.height == 0.9 * d.height)
            && AsAsked(b.llx, x, b.width, d.width) && AsAsked(d.height - b.lly - b.height, y, b.height, d.height)
  {
  }

  lemma ClampIff(v: real, lo: real, hi: real)
    requires lo <= hi
    ensures lo <= Clamp(v, lo, hi) <= hi
    ensures lo <= v <= hi ==> Clamp(v, lo, hi) == v
    ensures v < lo ==> Clamp(v, lo, hi) == lo
    ensures v > hi ==> Clamp(v, lo, hi) == hi
  {
  }

  /** Rounding to a hundredth: `n` hundredths are the result exactly when they are nearest, a half going
      away from zero. */
  lemma Round2Iff(v: real, n: int)
    ensures Round2(v) * 100.0 == n as real <==>
            if v >= 0.0 then n as real - 0.5 <= v * 100.0 < n as real + 0.5 else n as real - 0.5 < v * 100.0 <= n as real + 0.5
  {
    var u := v * 100.0;
    RoundIntIff(u, n);
    hide RoundInt;
    assert Round2(v) * 100.0 == RoundInt(u) as real;
    assert v >= 0.0 <==> u >= 0.0;
  }

  lemma RoundIntIff(u: real, n: int)
    ensures RoundInt(u) == n <==>
            if u >= 0.0 then n as real - 0.5 <= u < n as real + 0.5 else n as real - 0.5 < u <= n as real + 0.5
  {
  }

  lemma RoundingOvershoot(d: Dim, b: Box)
    requires OnPage(d, b)
    ensures var r := Rounded(b);
            && -0.01 <= r.llx && -0.01 <= r.lly
            && r.llx + r.width <= d.width + 0.01 && r.lly + r.height <= d.height + 0.01
  {
    hide RoundInt, Round2;
  }

  // ---- the list of placements ----

  datatype StampOutcome = NoPlacement | OffPage | IndexPanic | Images(byPage: map<int, seq<Box>>)

  /** The page a placement lands on: out-of-range numbers mean the last page. */
  function PageOf(p: Placement, pageCount: nat): (page: int) {
    if p.page < 1 || p.page > pageCount then pageCount else p.page
  }

  /** The images one page receives, in placement order. */
  function ImagesOf(dims: seq<Dim>, places: seq<Placement>, page: int): (bs: seq<Box>)
    requires 1 <= page <= |dims|
  {
    if places == [] then []
    else
      var n := |places| - 1;
      var rest := ImagesOf(dims, places[..n], page);
      if PageOf(places[n], |dims|) == page then rest + [Rounded(BoxOn(dims[page - 1], places[n]))] else rest
  }

  /** The page the placement lands on has a positive size. */
  predicate DrawableAt(dims: seq<Dim>, p: Placement) {
    && |dims| > 0
    && var d := if 1 <= p.page <= |dims| then dims[p.page - 1] else dims[|dims| - 1];
       d.width > 0.0 && d.height > 0.0
  }

  function Images1(o: StampOutcome, page: int): (bs: seq<Box>) {
    if o.Images? && page in o.byPage then o.byPage[page] else []
  }

  /** Where a placement lands: on the page it asks for, or on the last one if there is no such page. */
  predicate LandsOn(p: Placement, pageCount: nat, page: int) {
    if 1 <= p.page <= pageCount then page == p.page else page == pageCount
  }

  /** How many of the placements land on a page. */
  function Landing(places: seq<Placement>, pageCount: nat, page: int): (n: nat) {
    if places == [] then 0
    else
      var last := |places| - 1;
      Landing(places[..last], pageCount, page) + if LandsOn(places[last], pageCount, page) then 1 else 0
  }

  lemma {:induction false} LandingIsCount(dims: seq<Dim>, places: seq<Placement>, page: int)
    requires 1 <= page <= |dims|
    ensures |ImagesOf(dims, places, page)| == Landing(places, |dims|, page)
  {
    if places != [] { LandingIsCount(dims, places[..|places| - 1], page); }
  }

  /** The image of placement `i` is on the page it asks for, after those of the earlier placements there. */
  lemma {:induction false} ImageOfPlacement(dims: seq<Dim>, places: seq<Placement>, i: nat, page: int)
    requires dims != [] && i < |places| && LandsOn(places[i], |dims|, page)
    ensures 1 <= page <= |dims|
    ensures var n := Landing(places[..i], |dims|, page);
            n < |ImagesOf(dims, places, page)| && ImagesOf(dims, places, page)[n] == Rounded(BoxOn(dims[page - 1], places[i]))
  {
    hide Rounded, BoxOn;
    var last := |places| - 1;
    if i == last {
      LandingIsCount(dims, places[..last], page);
    } else {
      ImageOfPlacement(dims, places[..last], i, page);
      assert places[..last][..i] == places[..i];
    }
  }

  /** The placement loop of `stampQR`: it succeeds exactly when there is a placement and every one
      lands on a page of positive size; then each page holds exactly its own placements' images, in
      order, and no other page is mentioned.  A document without pages makes it index out of range. */
  method PlaceStamps(dims: seq<Dim>, places: seq<Placement>) returns (o: StampOutcome)
    ensures o.NoPlacement? <==> places == []
    ensures o.IndexPanic? <==> places != [] && dims == []
    ensures o.Images? <==> places != [] && forall i :: 0 <= i < |places| ==> DrawableAt(dims, places[i])
    ensures o.Images? ==> forall page :: page in o.byPage ==> 1 <= page <= |dims|
    ensures o.Images? ==> forall page :: 1 <= page <= |dims| ==> Images1(o, page) == ImagesOf(dims, places, page)
    // the image of each placement is on the page it asks for, in placement order
    ensures o.Images? ==> forall i, page :: 0 <= i < |places| && LandsOn(places[i], |dims|, page) ==>
      && page in o.byPage && Landing(places[..i], |dims|, page) < |o.byPage[page]|
      && o.byPage[page][Landing(places[..i], |dims|, page)] == Rounded(BoxOn(dims[page - 1], places[i]))
  {
    if |places| == 0 { return NoPlacement; }
    if |dims| == 0 {
      assert !DrawableAt(dims, places[0]);
      return IndexPanic;
    }
    var byPage: map<int, seq<Box>> := map[];
    for k := 0 to |places|
      invariant forall i :: 0 <= i < k ==> DrawableAt(dims, places[i])
      invariant forall page :: page in byPage ==> 1 <= page <= |dims|
      invariant forall page :: 1 <= page <= |dims| ==> Images1(Images(byPage), page) == ImagesOf(dims, places[..k], page)
    {
      hide BoxOn, Rounded;
      var p := places[k];
      var page := PageOf(p, |dims|);
      var b := BoxOn(dims[page - 1], p);
      DrawableIff(dims[page - 1], p);
      if b.width <= 0.0 || b.height <= 0.0 { return OffPage; }
      assert places[..k + 1][..k] == places[..k];
      byPage := byPage[page := (if page in byPage then byPage[page] else []) + [Rounded(b)]];
    }
    assert places[..|places|] == places;
    o := Images(byPage);
    hide ImagesOf, Images1, LandsOn, Landing, DrawableAt, BoxOn, Rounded;
    ImagesWhereAsked(dims, places, byPage);
  }

  lemma ImagesWhereAsked(dims: seq<Dim>, places: seq<Placement>, byPage: map<int, seq<Box>>)
    requires dims != [] && forall page :: 1 <= page <= |dims| ==> Images1(Images(byPage), page) == ImagesOf(dims, places, page)
    ensures forall i, page :: 0 <= i < |places| && LandsOn(places[i], |dims|, page) ==>
      && page in byPage && Landing(places[..i], |dims|, page) < |byPage[page]|
      && byPage[page][Landing(places[..i], |dims|, page)] == Rounded(BoxOn(dims[page - 1], places[i]))
  {
    hide ImagesOf, Landing, BoxOn, Rounded;
    forall i, page | 0 <= i < |places| && LandsOn(places[i], |dims|, page)
      ensures && page in byPage && Landing(places[..i], |dims|, page) < |byPage[page]|
              && byPage[page][Landing(places[..i], |dims|, page)] == Rounded(BoxOn(dims[page - 1], places[i]))
    {
      ImageOfPlacement(dims, places, i, page);
      assert Images1(Images(byPage), page) == ImagesOf(dims, places, page);
    }
  }

  function CountOn(dims: seq<Dim>, places: seq<Placement>, n: nat): (c: nat)
    requires n <= |dims|
  {
    if n == 0 then 0 else CountOn(dims, places, n - 1) + |ImagesOf(dims, places, n)|
  }

  /** Each placement yields exactly one image: the pages' images add up to the placements. */
  lemma {:induction false} OneImageEach(dims: seq<Dim>, places: seq<Placement>)
    requires dims != []
    ensures CountOn(dims, places, |dims|) == |places|
  {
    if places == [] {
      NoImages(dims, |dims|);
    } else {
      var front := places[..|places| - 1];
      OneImageEach(dims, front);
      OneMore(dims, places, |dims|);
    }
  }

  lemma {:induction false} NoImages(dims: seq<Dim>, n: nat)
    requires n <= |dims|
    ensures CountOn(dims, [], n) == 0
  {
    if n > 0 { NoImages(dims, n - 1); }
  }

  lemma {:induction false} OneMore(dims: seq<Dim>, places: seq<Placement>, n: nat)
    requires n <= |dims| && places != []
    ensures CountOn(dims, places, n) == CountOn(dims, places[..|places| - 1], n)
              + if PageOf(places[|places| - 1], |dims|) <= n && 1 <= PageOf(places[|places| - 1], |dims|) then 1 else 0
  {
    if n > 0 { OneMore(dims, places, n - 1); }
  }

  // ---- the preview on the phone ----

  /** `coerceIn` throws when its range is empty. */
  function CoerceIn(v: real, lo: real, hi: real): (r: Option<real>) {
    if lo > hi then None else Some(Clamp(v, lo, hi))
  }

  datatype Fractions = Fractions(x: real, y: real, w: real)

  /** The preview box in display units: position from the top left, width and height. */
  datatype Preview = Preview(x: real, y: real, w: real, h: real)

  /** Box size from the requested width: at least a tenth of the display, at most all of it, and no
      higher than it. */
  function PreviewSize(w0: real, dispW: real, dispH: real): (r: (real, real)) {
    var w := Clamp(w0, 0.10 * dispW, dispW);
    if w * ASPECT > dispH then (dispH / ASPECT, dispH) else (w, w * ASPECT)
  }

  /** The preview in display units: offsets and requested width already multiplied out. */
  function PreviewAt(x0: real, y0: real, w0: real, dispW: real, dispH: real): (r: Option<Preview>) {
    var (w, h) := PreviewSize(w0, dispW, dispH);
    match (CoerceIn(x0, 0.0, dispW - w), CoerceIn(y0, 0.0, dispH - h))
    case (Some(x), Some(y)) => Some(Preview(x, y, w, h))
    case _ => None
  }

  function PreviewBox(f: Fractions, dispW: real, dispH: real): (r: Option<Preview>) {
    PreviewAt(Times(f.x, dispW), Times(f.y, dispH), Times(f.w, dispW), dispW, dispH)
  }

  /** The three fraction fields of the screen. */
  class PlacementScreen {
    var fracs: Fractions

    constructor (f: Fractions)
      ensures fracs == f
    {
      fracs := f;
    }

    /** `applyBoxFromFracs`: draws the box and writes its fractions back.  A display that has no size
        yet changes nothing. */
    method ApplyBoxFromFracs(dispW: real, dispH: real) returns (shown: Option<Preview>)
      modifies this
      ensures dispW <= 0.0 || dispH <= 0.0 ==> shown == None && fracs == old(fracs)
      ensures dispW > 0.0 && dispH > 0.0 ==>
        && shown.Some? && shown == PreviewBox(old(fracs), dispW, dispH)
        && fracs == Applied(old(fracs), dispW, dispH)
    {
      if dispW <= 0.0 || dispH <= 0.0 { return None; }
      hide Times;
      var x0, y0, w0 := Times(fracs.x, dispW), Times(fracs.y, dispH), Times(fracs.w, dispW);
      PreviewInside(x0, y0, w0, dispW, dispH);
      var w := Clamp(w0, 0.10 * dispW, dispW);
      var h := w * ASPECT;
      if h > dispH { h := dispH; w := h / ASPECT; }
      var x := Clamp(x0, 0.0, dispW - w);
      var y := Clamp(y0, 0.0, dispH - h);
      assert PreviewAt(x0, y0, w0, dispW, dispH) == Some(Preview(x, y, w, h));
      hide PreviewAt;
      fracs := Fractions(x / dispW, y / dispH, w / dispW);
      return Some(Preview(x, y, w, h));
    }
  }

  /** The fractions after the preview step. */
  function Applied(f: Fractions, dispW: real, dispH: real): (r: Fractions)
    requires dispW > 0.0 && dispH > 0.0
  {
    match PreviewBox(f, dispW, dispH)
    case Some(b) => Fractions(b.x / dispW, b.y / dispH, b.w / dispW)
    case None => f
  }

  /** No range is ever empty, and the box is inside the display with the stamp's aspect. */
  lemma PreviewInside(x0: real, y0: real, w0: real, dispW: real, dispH: real)
    requires dispW > 0.0 && dispH > 0.0
    ensures PreviewAt(x0, y0, w0, dispW, dispH).Some?
    ensures var b := PreviewAt(x0, y0, w0, dispW, dispH).value;
            && 0.0 <= b.x && 0.0 <= b.y && 0.0 < b.w && b.h == ASPECT * b.w
            && b.x + b.w <= dispW && b.y + b.h <= dispH
            && (b.w >= 0.10 * dispW || b.h == dispH)
  {
  }

  lemma PreviewSettled(b: Preview, dispW: real, dispH: real)
    requires dispW > 0.0 && dispH > 0.0
    requires 0.0 <= b.x && 0.0 <= b.y && 0.0 < b.w && b.h == ASPECT * b.w
    requires b.x + b.w <= dispW && b.y + b.h <= dispH && (b.w >= 0.10 * dispW || b.h == dispH)
    ensures PreviewAt(b.x, b.y, b.w, dispW, dispH) == Some(b)
  {
  }

  lemma DivMul(a: real, b: real)
    requires b > 0.0
    ensures Times(a / b, b) == a
  {
  }

  /** Re-applying the preview step changes nothing. */
  lemma PreviewIsIdempotent(f: Fractions, dispW: real, dispH: real)
    requires dispW > 0.0 && dispH > 0.0
    ensures Applied(Applied(f, dispW, dispH), dispW, dispH) == Applied(f, dispW, dispH)
    ensures PreviewBox(Applied(f, dispW, dispH), dispW, dispH) == PreviewBox(f, dispW, dispH)
  {
    hide PreviewAt, Times;
    PreviewInside(Times(f.x, dispW), Times(f.y, dispH), Times(f.w, dispW), dispW, dispH);
    var b := PreviewBox(f, dispW, dispH).value;
    PreviewSettled(b, dispW, dispH);
    DivMul(b.x, dispW);
    DivMul(b.y, dispH);
    DivMul(b.w, dispW);
  }

  // ---- preview and server agree ----

  /** The server box, measured from the top left of the page. */
  function TopLeft(d: Dim, b: Box): (r: (real, real)) {
    (b.llx, d.height - b.lly - b.height)
  }

  /** On a page `k` times the display, the server's box for a settled preview has its top left corner
      and lies inside it; all in page units. */
  lemma SettledAgrees(d: Dim, x: real, y: real, w: real)
    requires d.width > 0.0 && d.height > 0.0
    requires 0.0 <= x && 0.0 <= y && 0.0 < w && x + w <= d.width && y + ASPECT * w <= d.height
    requires w >= 0.10 * d.width || ASPECT * w == d.height
    ensures var w0 := Clamp(w, 0.06 * d.width, 0.9 * d.width);
            var b := BoxAt(d, x, y, w0);
            TopLeft(d, b) == (x, y) && b.width <= w && b.height <= ASPECT * w
  {
  }

  /** For any box the preview leaves behind, on a page with the display's aspect ratio, the server's
      unrounded box has the same top left corner and is contained in the previewed box. */
  lemma PreviewAgreesWithServer(f: Fractions, dispW: real, dispH: real, d: Dim, page: int, k: real)
    requires dispW > 0.0 && dispH > 0.0 && k > 0.0
    requires d.width == Times(k, dispW) && d.height == Times(k, dispH)
    ensures PreviewBox(f, dispW, dispH).Some?
    ensures var shown, sent := PreviewBox(f, dispW, dispH).value, Applied(f, dispW, dispH);
            var b := BoxOn(d, Placement(page, sent.x, sent.y, sent.w));
            && TopLeft(d, b).0 == Times(k, shown.x) && TopLeft(d, b).1 == Times(k, shown.y)
            && b.width <= Times(k, shown.w) && b.height <= Times(k, shown.h)
  {
    hide PreviewAt, BoxAt, Times;
    PreviewInside(Times(f.x, dispW), Times(f.y, dispH), Times(f.w, dispW), dispW, dispH);
    var shown := PreviewBox(f, dispW, dispH).value;
    var sent := Applied(f, dispW, dispH);
    ScaleUp(shown.x, dispW, k, d.width);
    ScaleUp(shown.y, dispH, k, d.height);
    ScaleUp(shown.w, dispW, k, d.width);
    ScaleDim(d, shown, dispW, dispH, k);
    ClampScales(sent.w, d.width);
    SettledAgrees(d, Times(k, shown.x), Times(k, shown.y), Times(k, shown.w));
  }

  /** A length within the display becomes a fraction in 0..1, and scales to the page. */
  lemma ScaleUp(a: real, disp: real, k: real, page: real)
    requires disp > 0.0 && k > 0.0 && 0.0 <= a <= disp && page == Times(k, disp)
    ensures Clamp(a / disp, 0.0, 1.0) == a / disp
    ensures Times(a / disp, page) == Times(k, a)
  {
    DivMul(a, disp);
    assert (a / disp) * (k * disp) == k * ((a / disp) * disp);
  }

  lemma ScaleDim(d: Dim, b: Preview, dispW: real, dispH: real, k: real)
    requires dispW > 0.0 && dispH > 0.0 && k > 0.0 && d.width == Times(k, dispW) && d.height == Times(k, dispH)
    requires 0.0 <= b.x && 0.0 <= b.y && 0.0 < b.w && b.h == ASPECT * b.w
    requires b.x + b.w <= dispW && b.y + b.h <= dispH && (b.w >= 0.10 * dispW || b.h == dispH)
    ensures d.width > 0.0 && d.height > 0.0
    ensures 0.0 <= Times(k, b.x) && 0.0 <= Times(k, b.y) && 0.0 < Times(k, b.w) && Times(k, b.h) == ASPECT * Times(k, b.w)
    ensures Times(k, b.x) + Times(k, b.w) <= d.width && Times(k, b.y) + Times(k, b.h) <= d.height
    ensures Times(k, b.w) >= 0.10 * d.width || ASPECT * Times(k, b.w) == d.height
  {
    hide Times;
    TimesLinear(k, b.x, b.w, 0.10, dispW);
    TimesLinear(k, b.y, b.h, ASPECT, b.w);
    TimesMonotone(k, 0.0, b.x);
    TimesMonotone(k, 0.0, b.y);
    TimesMonotone(k, 0.0, dispW);
    TimesMonotone(k, 0.0, dispH);
    TimesMonotone(k, 0.0, b.w);
    TimesMonotone(k, b.x + b.w, dispW);
    TimesMonotone(k, b.y + b.h, dispH);
    TimesMonotone(k, 0.10 * dispW, b.w);
  }

  lemma TimesLinear(k: real, a: real, b: real, c: real, e: real)
    ensures Times(k, a + b) == Times(k, a) + Times(k, b) && Times(k, c * e) == c * Times(k, e)
  {
  }

  lemma TimesMonotone(k: real, a: real, b: real)
    requires k > 0.0
    ensures a <= b ==> Times(k, a) <= Times(k, b)
    ensures a < b ==> Times(k, a) < Times(k, b)
    ensures Times(k, 0.0) == 0.0
  {
    if a < b {
      assert (b - a) * k > 0.0;
    } else if a == b {
      assert Times(k, a) == Times(k, b);
    }
  }

  lemma ClampScales(f: real, a: real)
    requires a > 0.0
    ensures Times(Clamp(f, 0.06, 0.9), a) == Clamp(Times(f, a), 0.06 * a, 0.9 * a)
  {
    assert f < 0.06 <==> (f - 0.06) * a < 0.0;
    assert f > 0.9 <==> (f - 0.9) * a > 0.0;
  }
}

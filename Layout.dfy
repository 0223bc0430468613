/**
 * Responsive layout of the player: the 1512 x 982 design frame is scaled to
 * the viewport, and below a width of 768 the mobile layout, designed 610
 * units wide, is used instead. The same formula gives the initial state and
 * the state after every resize event.
 */
module Layout {
  import opened Tracks

  const MobileBreakpoint: int := 768
  const MobileFrameWidth: real := 610.0
  const DesignWidth: real := 1512.0
  const DesignHeight: real := 982.0

  /** Inner width and height of the browser window, in CSS pixels. */
  datatype Viewport = Viewport(width: int, height: int)

  datatype LayoutState = LayoutState(isMobile: bool, scale: real)

  function Min(a: real, b: real): (m: real)
    ensures m <= a && m <= b
    ensures m == a || m == b
  {
    if a <= b then a else b
  }

  /** The layout for a viewport, as the resize handler computes it. */
  function Compute(vw: int, vh: int): (l: LayoutState)
    ensures l.isMobile <==> vw < MobileBreakpoint
    ensures l.isMobile ==> l.scale * MobileFrameWidth == vw as real
    ensures !l.isMobile ==> l.scale <= vw as real / DesignWidth && l.scale <= vh as real / DesignHeight
    ensures !l.isMobile ==> l.scale == vw as real / DesignWidth || l.scale == vh as real / DesignHeight
  {
    var mobile := vw < MobileBreakpoint;
    LayoutState(mobile, if mobile then vw as real / MobileFrameWidth
                        else Min(vw as real / DesignWidth, vh as real / DesignHeight))
  }

  /** The initial layout state: without a window (server rendering) scale 1 on the desktop layout. */
  function Initial(window: Option<Viewport>): (l: LayoutState)
    ensures window.None? ==> l == LayoutState(false, 1.0)
    ensures window.Some? ==> l == Compute(window.value.width, window.value.height)
  {
    match window
    case None => LayoutState(false, 1.0)
    case Some(v) => LayoutState(v.width < MobileBreakpoint,
                                if v.width < MobileBreakpoint then v.width as real / MobileFrameWidth
                                else Min(v.width as real / DesignWidth, v.height as real / DesignHeight))
  }

  /** On the desktop layout the scaled design frame fits the viewport and fills it in one dimension. */
  lemma DesktopFrameFits(vw: int, vh: int)
    requires vw >= MobileBreakpoint && vh >= 0
    ensures var s := Compute(vw, vh).scale;
      s * DesignWidth <= vw as real && s * DesignHeight <= vh as real &&
      (s * DesignWidth == vw as real || s * DesignHeight == vh as real)
  {
  }

  /** A non-empty viewport gets a positive scale. */
  lemma ScalePositive(vw: int, vh: int)
    requires vw > 0 && vh > 0
    ensures Compute(vw, vh).scale > 0.0
  {
  }

  /** The mobile scale ignores the height; the desktop scale never decreases when the viewport grows. */
  lemma ScaleMonotone(vw: int, vh: int, vw': int, vh': int)
    requires vw <= vw' && vh <= vh'
    requires (vw < MobileBreakpoint) == (vw' < MobileBreakpoint)
    ensures Compute(vw, vh).scale <= Compute(vw', vh').scale
  {
  }

  /** The design frame itself is shown unscaled. */
  lemma DesignFrameScenario()
    ensures Compute(1512, 982) == LayoutState(false, 1.0)
  {
  }

  /** A narrow viewport uses the mobile layout, scaled to its width. */
  lemma MobileScenario()
    ensures Compute(600, 900) == LayoutState(true, 600.0 / 610.0)
  {
  }

  /** A wide viewport is limited by its height. */
  lemma WideScenario()
    ensures Compute(2000, 1000) == LayoutState(false, 1000.0 / 982.0)
  {
  }
}

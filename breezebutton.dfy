/** The title-bar buttons of the theme (breezebutton.cpp): which colour a
    button's glyph and background take in each interaction state, which draw
    operations its icon consists of, how it is created and shown, and how its
    hover animation is driven. The painter is modelled as the list of draw
    operations it receives; colours are the symbolic values of module Colors. */
module BreezeButton {
  import opened Wrappers
  import opened Geometry
  import opened Colors
  import opened Animation

  /** KDecoration2::DecorationButtonType. */
  datatype ButtonKind =
    | Menu | ApplicationMenu | OnAllDesktops | Minimize | Maximize
    | Close | ContextHelp | Shade | KeepBelow | KeepAbove | Custom

  /** Where the decoration placed the button in its group (m_flag). */
  datatype Flag = FlagNone | FlagStandalone | FlagFirstInList | FlagLastInList

  /** The button state KDecoration2 reports, and whether the hover animation runs. */
  datatype Interaction = Interaction(pressed: bool, hovered: bool, checked: bool, animating: bool)

  /** The colours and the option a button reads from the theme's decoration:
      Decoration::titleBarColor(), Decoration::fontColor() and outlineCloseButton. */
  datatype Palette = Palette(titleBar: Color, font: Color, outlineCloseButton: bool)
  {
    predicate IsValid() { titleBar.IsValid() && font.IsValid() }

    /** The decoration's colours never depend on a button's hover animation. */
    predicate IgnoresHover()
    {
      !UsesOpacity(titleBar, ButtonHover) && !UsesOpacity(font, ButtonHover)
    }
  }

  /** Everything a button reads from the theme's decoration and its client. */
  datatype Context = Context(palette: Palette, windowActive: bool, animationsEnabled: bool, animationsDuration: int)

  /** The client capabilities that decide whether a button is shown. */
  datatype Capabilities = Capabilities(
    closeable: bool, maximizeable: bool, minimizeable: bool, providesContextHelp: bool, shadeable: bool)

  /** The decoration a button is requested for: one of this theme's, with what
      the new button reads from it, or a decoration of some other theme. */
  datatype Host =
    | ThemeDecoration(capabilities: Capabilities, buttonHeight: int, context: Context)
    | OtherDecoration

  /** client->color(ColorGroup::Warning, ColorRole::Foreground). */
  const WarningColor: Color := ClientRole(Warning, Foreground)

  predicate IsKeep(kind: ButtonKind)
  {
    kind == KeepBelow || kind == KeepAbove
  }

  /** The states in which the glyph takes the title-bar colour whatever the
      hover state and the animation: pressed, an outlined Close button, or a
      checked keep-above/keep-below button. */
  predicate Emphasised(kind: ButtonKind, s: Interaction, outlineClose: bool)
  {
    s.pressed || (kind == Close && outlineClose) || (IsKeep(kind) && s.checked)
  }

  // ---------------------------------------------------------------- colours

  /** Button::foregroundColor: the colour of the glyph. */
  function ForegroundColor(kind: ButtonKind, s: Interaction, d: Option<Palette>): (r: Color)
    ensures d.None? ==> r == Invalid
    ensures d.Some? && d.value.IsValid() ==> r.IsValid()
    ensures d.Some? && Emphasised(kind, s, d.value.outlineCloseButton) ==> r == d.value.titleBar
    ensures d.Some? && !Emphasised(kind, s, d.value.outlineCloseButton) && s.animating ==>
      r == Mix(d.value.font, d.value.titleBar, OpacityOf(ButtonHover))
    ensures d.Some? && !Emphasised(kind, s, d.value.outlineCloseButton) && !s.animating ==>
      r == (if s.hovered then d.value.titleBar else d.value.font)
  {
    match d
    case None => Invalid
    case Some(p) =>
      if s.pressed then p.titleBar
      else if kind == Close && p.outlineCloseButton then p.titleBar
      else if IsKeep(kind) && s.checked then p.titleBar
      else if s.animating then Mix(p.font, p.titleBar, OpacityOf(ButtonHover))
      else if s.hovered then p.titleBar
      else p.font
  }

  /** The background of a pressed button: the warning colour for Close, the
      title-bar colour mixed 30% toward the font colour otherwise. */
  function PressedBackground(kind: ButtonKind, p: Palette): (r: Color)
    ensures kind == Close <==> r == WarningColor
    ensures kind != Close ==> r == Mix(p.titleBar, p.font, Fixed30)
    ensures p.IsValid() ==> r.IsValid()
  {
    if kind == Close then WarningColor else Mix(p.titleBar, p.font, Fixed30)
  }

  /** Button::backgroundColor: the colour of the disc behind the glyph, or
      Invalid for no disc. */
  function BackgroundColor(kind: ButtonKind, s: Interaction, d: Option<Palette>): (r: Color)
    ensures d.None? ==> r == Invalid
    ensures d.Some? && s.pressed ==> r == PressedBackground(kind, d.value)
    ensures d.Some? && !s.pressed && IsKeep(kind) && s.checked ==> r == d.value.font
    ensures d.Some? && !s.pressed && !(IsKeep(kind) && s.checked) && s.animating ==>
      r == (if kind != Close then AlphaScaled(d.value.font, ButtonHover)
            else if d.value.outlineCloseButton then Mix(d.value.font, Lighter(WarningColor), OpacityOf(ButtonHover))
            else AlphaScaled(Lighter(WarningColor), ButtonHover))
    ensures d.Some? && !s.pressed && !(IsKeep(kind) && s.checked) && !s.animating && s.hovered ==>
      r == (if kind == Close then Lighter(WarningColor) else d.value.font)
    ensures d.Some? && !s.pressed && !(IsKeep(kind) && s.checked) && !s.animating && !s.hovered ==>
      r == (if kind == Close && d.value.outlineCloseButton then d.value.font else Invalid)
    ensures d.Some? && d.value.IsValid() ==>
      (r.IsValid() <==>
        s.pressed || (IsKeep(kind) && s.checked) || s.animating || s.hovered
        || (kind == Close && d.value.outlineCloseButton))
    ensures d.Some? && d.value.IgnoresHover() ==>
      (UsesOpacity(r, ButtonHover) <==> !s.pressed && !(IsKeep(kind) && s.checked) && s.animating)
  {
    match d
    case None => Invalid
    case Some(p) =>
      if s.pressed then PressedBackground(kind, p)
      else if IsKeep(kind) && s.checked then p.font
      else if s.animating then
        (if kind == Close then
           (if p.outlineCloseButton then Mix(p.font, Lighter(WarningColor), OpacityOf(ButtonHover))
            else AlphaScaled(Lighter(WarningColor), ButtonHover))
         else AlphaScaled(p.font, ButtonHover))
      else if s.hovered then (if kind == Close then Lighter(WarningColor) else p.font)
      else if kind == Close && p.outlineCloseButton then p.font
      else Invalid
  }

  /** Where the disc is painted in the font colour, the glyph is painted in the
      title-bar colour; where there is no disc, the glyph is in the font colour. */
  lemma GlyphContrastsWithDisc(kind: ButtonKind, s: Interaction, p: Palette)
    requires p.IsValid()
    ensures !s.pressed && ((IsKeep(kind) && s.checked)
                           || (!s.animating && s.hovered && kind != Close)
                           || (!s.animating && !s.hovered && kind == Close && p.outlineCloseButton)) ==>
      BackgroundColor(kind, s, Some(p)) == p.font && ForegroundColor(kind, s, Some(p)) == p.titleBar
    ensures !BackgroundColor(kind, s, Some(p)).IsValid() ==> ForegroundColor(kind, s, Some(p)) == p.font
  {
  }

  /** When a hover animation ends, the colours it produced are the ones the
      button shows at rest in the state it led to: a forward run (hover
      entered) ends at opacity 1 and a backward run at opacity 0. A background
      faded to full transparency looks like no background at all. */
  lemma {:induction false} HoverAnimationEndsOnStaticColours(kind: ButtonKind, s: Interaction, p: Palette)
    requires p.IgnoresHover()
    requires s.animating
    ensures var e := if s.hovered then AtOne else AtZero;
            var rest := s.(animating := false);
            Settle(ForegroundColor(kind, s, Some(p)), ButtonHover, e) == ForegroundColor(kind, rest, Some(p))
            && SameAppearance(Settle(BackgroundColor(kind, s, Some(p)), ButtonHover, e),
                              BackgroundColor(kind, rest, Some(p)))
  {
    var e := if s.hovered then AtOne else AtZero;
    SettleFixesStatic(p.titleBar, ButtonHover, e);
    SettleFixesStatic(p.font, ButtonHover, e);
    SettleFixesStatic(WarningColor, ButtonHover, e);
    SettleFixesStatic(Lighter(WarningColor), ButtonHover, e);
  }

  // ------------------------------------------------------------ draw ops

  /** The elements of a QPainterPath. */
  datatype PathElement =
    | MoveTo(to: PointF)
    | ArcTo(box: RectF, startAngle: real, sweepLength: real)
    | CubicTo(c1: PointF, c2: PointF, end: PointF)

  /** What the button asks of the painter. */
  datatype DrawOp =
    | Translate(dx: real, dy: real)
    | Scale(factor: real)
    | FillEllipse(brush: Color, box: RectF)
    | StrokeLine(pen: Color, from: PointF, to: PointF)
    | StrokePolyline(pen: Color, points: seq<PointF>)
    | FillPath(brush: Color, points: seq<PointF>)
    | StrokePath(pen: Color, path: seq<PathElement>)
    | StrokePoint(pen: Color, at: PointF)
    | DrawWindowIcon(iconRect: Rect)

  /** The box every glyph is drawn in, after the painter is scaled so that the
      button's icon width maps to 20 units and shifted by one unit. */
  const GlyphBox := RectF(0.0, 0.0, 18.0, 18.0)

  /** The dark colour of the hover hints drawn on the coloured discs. */
  const HoverHintColor: Color := Rgb(41, 43, 50)

  /** The neutral grey every coloured disc takes in an inactive window. */
  const InactiveDiscColor: Color := Rgb(199, 199, 199)

  /** The hue of the kinds drawn as a coloured disc. */
  function KindHue(kind: ButtonKind): (r: Option<Color>)
    ensures r.Some? <==> kind in {Close, Maximize, Minimize, OnAllDesktops, KeepAbove}
  {
    match kind
    case Close => Some(Rgb(242, 80, 86))
    case Maximize => Some(Rgb(19, 209, 61))
    case Minimize => Some(Rgb(252, 190, 7))
    case OnAllDesktops => Some(Rgb(125, 209, 200))
    case KeepAbove => Some(Rgb(204, 176, 213))
    case _ => None
  }

  function Pt(x: real, y: real): PointF { PointF(x, y) }

  /** The hints drawn over the disc while the mouse is over the button: a cross
      for Close, two corner triangles for Maximize, a bar for Minimize. */
  function HoverHint(kind: ButtonKind): (ops: seq<DrawOp>)
    ensures forall k :: 0 <= k < |ops| ==> DrawsInGlyphBox(ops[k]) && UsesHoverHint(ops[k])
    ensures ops != [] <==> kind in {Close, Maximize, Minimize}
  {
    match kind
    case Close =>
      [StrokeLine(HoverHintColor, Pt(6.0, 6.0), Pt(12.0, 12.0)),
       StrokeLine(HoverHintColor, Pt(6.0, 12.0), Pt(12.0, 6.0))]
    case Maximize =>
      [FillPath(HoverHintColor, [Pt(5.0, 13.0), Pt(11.0, 13.0), Pt(5.0, 7.0)]),
       FillPath(HoverHintColor, [Pt(13.0, 4.0), Pt(7.0, 4.0), Pt(13.0, 10.0)])]
    case Minimize =>
      [StrokeLine(HoverHintColor, Pt(6.0, 9.0), Pt(12.0, 9.0))]
    case _ => []
  }

  /** The glyph of each kind, drawn with pen `fg`. */
  function Glyph(kind: ButtonKind, fg: Color, active: bool, hovered: bool, checked: bool): (ops: seq<DrawOp>)
    ensures forall k :: 0 <= k < |ops| ==> DrawsInGlyphBox(ops[k])
  {
    match KindHue(kind)
    case Some(hue) =>
      [FillEllipse(if active then hue else InactiveDiscColor, GlyphBox)]
      + (if hovered then HoverHint(kind) else [])
    case None =>
      match kind
      case Shade =>
        [StrokeLine(fg, Pt(4.0, 5.0), Pt(14.0, 5.0)),
         StrokePolyline(fg, if checked then [Pt(4.0, 8.0), Pt(9.0, 13.0), Pt(14.0, 8.0)]
                            else [Pt(4.0, 13.0), Pt(9.0, 8.0), Pt(14.0, 13.0)])]
      case KeepBelow =>
        [StrokePolyline(fg, [Pt(4.0, 5.0), Pt(9.0, 10.0), Pt(14.0, 5.0)]),
         StrokePolyline(fg, [Pt(4.0, 9.0), Pt(9.0, 14.0), Pt(14.0, 9.0)])]
      case ApplicationMenu =>
        [StrokeLine(fg, Pt(3.5, 5.0), Pt(14.5, 5.0)),
         StrokeLine(fg, Pt(3.5, 9.0), Pt(14.5, 9.0)),
         StrokeLine(fg, Pt(3.5, 13.0), Pt(14.5, 13.0))]
      case ContextHelp =>
        [StrokePath(fg, [MoveTo(Pt(5.0, 6.0)),
                         ArcTo(RectF(5.0, 3.5, 8.0, 5.0), 180.0, -180.0),
                         CubicTo(Pt(12.5, 9.5), Pt(9.0, 7.5), Pt(9.0, 11.5))]),
         StrokePoint(fg, Pt(9.0, 15.0))]
      case _ => []
  }

  predicate InGlyphBox(p: PointF)
  {
    0.0 <= p.x <= 18.0 && 0.0 <= p.y <= 18.0
  }

  predicate RectInGlyphBox(r: RectF)
  {
    0.0 <= r.width && 0.0 <= r.height && InGlyphBox(PointF(r.x, r.y))
    && InGlyphBox(PointF(r.x + r.width, r.y + r.height))
  }

  predicate PathElementInGlyphBox(e: PathElement)
  {
    match e
    case MoveTo(p) => InGlyphBox(p)
    case ArcTo(b, _, _) => RectInGlyphBox(b)
    case CubicTo(c1, c2, p) => InGlyphBox(c1) && InGlyphBox(c2) && InGlyphBox(p)
  }

  /** The operation draws, and every point it is given lies in the glyph box. */
  predicate DrawsInGlyphBox(op: DrawOp)
  {
    match op
    case FillEllipse(_, b) => RectInGlyphBox(b)
    case StrokeLine(_, a, b) => InGlyphBox(a) && InGlyphBox(b)
    case StrokePolyline(_, ps) => forall k :: 0 <= k < |ps| ==> InGlyphBox(ps[k])
    case FillPath(_, ps) => forall k :: 0 <= k < |ps| ==> InGlyphBox(ps[k])
    case StrokePath(_, es) => forall k :: 0 <= k < |es| ==> PathElementInGlyphBox(es[k])
    case StrokePoint(_, p) => InGlyphBox(p)
    case _ => false
  }

  predicate UsesHoverHint(op: DrawOp)
  {
    (op.StrokeLine? && op.pen == HoverHintColor) || (op.FillPath? && op.brush == HoverHintColor)
  }

  /** The painter set-up of drawIcon: to the button's top-left corner, scaled
      so that the icon width is 20 units, then one unit in. */
  function IconTransform(geometry: Rect, iconWidth: int): seq<DrawOp>
  {
    [Translate(geometry.x as real, geometry.y as real), Scale(iconWidth as real / 20.0), Translate(1.0, 1.0)]
  }

  /** Button::drawIcon: the background disc when the background colour is
      valid, then the glyph when the foreground colour is valid. */
  function IconOps(kind: ButtonKind, bg: Color, fg: Color, active: bool, hovered: bool, checked: bool,
                   geometry: Rect, iconWidth: int): (ops: seq<DrawOp>)
    ensures |ops| >= 3 && ops[..3] == IconTransform(geometry, iconWidth)
    ensures forall k :: 3 <= k < |ops| ==> DrawsInGlyphBox(ops[k])
    ensures bg.IsValid() <==> |ops| > 3 && ops[3] == FillEllipse(bg, GlyphBox)
    ensures !fg.IsValid() ==>
      ops == IconTransform(geometry, iconWidth) + (if bg.IsValid() then [FillEllipse(bg, GlyphBox)] else [])
  {
    IconTransform(geometry, iconWidth)
    + (if bg.IsValid() then [FillEllipse(bg, GlyphBox)] else [])
    + (if fg.IsValid() then Glyph(kind, fg, active, hovered, checked) else [])
  }

  /** With a valid foreground, drawIcon's output after the set-up and the
      optional background disc is exactly the kind's glyph, so every fact
      about Glyph is a fact about drawIcon. */
  lemma IconOpsEndsWithGlyph(kind: ButtonKind, bg: Color, fg: Color, active: bool, hovered: bool,
                             checked: bool, geometry: Rect, iconWidth: int)
    requires fg.IsValid()
    ensures var ops := IconOps(kind, bg, fg, active, hovered, checked, geometry, iconWidth);
            var n := if bg.IsValid() then 4 else 3;
            |ops| >= n && ops[n..] == Glyph(kind, fg, active, hovered, checked)
  {
  }

  /** The coloured kinds paint their own disc over the whole glyph box, right
      after the background disc, so the background never shows through; the
      disc is the kind's hue in an active window and grey otherwise. */
  lemma FilledKindCoversBackground(kind: ButtonKind, bg: Color, fg: Color, active: bool, hovered: bool,
                                   checked: bool, geometry: Rect, iconWidth: int)
    requires KindHue(kind).Some? && fg.IsValid()
    ensures var ops := IconOps(kind, bg, fg, active, hovered, checked, geometry, iconWidth);
            var k := if bg.IsValid() then 4 else 3;
            |ops| > k && ops[k] == FillEllipse(if active then KindHue(kind).value else InactiveDiscColor, GlyphBox)
  {
  }

  /** Within a glyph drawn with another pen, the hover hint's colour appears
      exactly when a button with a hint is hovered. */
  lemma GlyphHintOnlyWhileHovered(kind: ButtonKind, fg: Color, active: bool, hovered: bool, checked: bool)
    requires fg != HoverHintColor
    ensures var g := Glyph(kind, fg, active, hovered, checked);
            (exists k :: 0 <= k < |g| && UsesHoverHint(g[k])) <==> hovered && kind in {Close, Maximize, Minimize}
  {
    var g := Glyph(kind, fg, active, hovered, checked);
    if hovered && kind in {Close, Maximize, Minimize} {
      assert UsesHoverHint(g[1]);
    } else {
      forall k | 0 <= k < |g| ensures !UsesHoverHint(g[k]) {
      }
    }
  }

  /** Hover hints are drawn exactly on a hovered Close, Maximize or Minimize
      button whose glyph is drawn at all. */
  lemma {:induction false} HintOnlyWhileHovered(kind: ButtonKind, bg: Color, fg: Color, active: bool, hovered: bool,
                                                checked: bool, geometry: Rect, iconWidth: int)
    requires fg != HoverHintColor
    ensures var ops := IconOps(kind, bg, fg, active, hovered, checked, geometry, iconWidth);
            (exists k :: 0 <= k < |ops| && UsesHoverHint(ops[k]))
            <==> hovered && fg.IsValid() && kind in {Close, Maximize, Minimize}
  {
    var ops := IconOps(kind, bg, fg, active, hovered, checked, geometry, iconWidth);
    var prefix := IconTransform(geometry, iconWidth) + (if bg.IsValid() then [FillEllipse(bg, GlyphBox)] else []);
    if fg.IsValid() {
      var g := Glyph(kind, fg, active, hovered, checked);
      IconOpsEndsWithGlyph(kind, bg, fg, active, hovered, checked, geometry, iconWidth);
      assert ops == prefix + g;
      GlyphHintOnlyWhileHovered(kind, fg, active, hovered, checked);
      if hovered && kind in {Close, Maximize, Minimize} {
        var k :| 0 <= k < |g| && UsesHoverHint(g[k]);
        assert ops[|prefix| + k] == g[k];
      } else {
        forall k | 0 <= k < |ops| ensures !UsesHoverHint(ops[k]) {
          if k >= |prefix| {
            assert ops[k] == g[k - |prefix|];
          }
        }
      }
    } else {
      assert ops == prefix;
    }
  }

  /** The shade chevron points down (its middle point is lower on screen than
      its ends) exactly when the window is shaded, i.e. the button is checked. */
  lemma ShadeChevronFollowsChecked(fg: Color, active: bool, hovered: bool, checked: bool)
    ensures var g := Glyph(Shade, fg, active, hovered, checked);
            |g| == 2 && g[1].StrokePolyline? && |g[1].points| == 3
            && (g[1].points[1].y > g[1].points[0].y <==> checked)
            && g[1].points[0].y == g[1].points[2].y
  {
  }

  /** OnAllDesktops and KeepAbove draw their disc and nothing over it, hovered
      or not. */
  lemma PlainDiscKinds(kind: ButtonKind, fg: Color, active: bool, hovered: bool, checked: bool)
    requires kind in {OnAllDesktops, KeepAbove}
    ensures Glyph(kind, fg, active, hovered, checked)
            == [FillEllipse(if active then KindHue(kind).value else InactiveDiscColor, GlyphBox)]
  {
  }

  /** KeepBelow and ApplicationMenu do not depend on the button state:
      KeepBelow is two chevrons pointing down, ApplicationMenu three
      horizontal lines at heights 5, 9 and 13. */
  lemma StatelessGlyphs(fg: Color, active: bool, hovered: bool, checked: bool)
    ensures Glyph(KeepBelow, fg, active, hovered, checked) == Glyph(KeepBelow, fg, false, false, false)
    ensures Glyph(ApplicationMenu, fg, active, hovered, checked) == Glyph(ApplicationMenu, fg, false, false, false)
    ensures var g := Glyph(KeepBelow, fg, active, hovered, checked);
            |g| == 2 && forall k :: 0 <= k < 2 ==>
              g[k].StrokePolyline? && g[k].pen == fg && |g[k].points| == 3
              && g[k].points[1].y > g[k].points[0].y && g[k].points[0].y == g[k].points[2].y
    ensures var g := Glyph(ApplicationMenu, fg, active, hovered, checked);
            |g| == 3 && forall k :: 0 <= k < 3 ==>
              g[k].StrokeLine? && g[k].pen == fg && g[k].from.y == g[k].to.y == 5.0 + 4.0 * k as real
  {
  }

  /** The painter translation of Button::paint: the whole offset for the first
      button of a list, only the vertical part otherwise. */
  function PaintTranslation(flag: Flag, offset: Offset): (op: DrawOp)
    ensures op.Translate? && op.dy == offset.y as real
    ensures op.dx == (if flag == FlagFirstInList then offset.x as real else 0.0)
  {
    if flag == FlagFirstInList then Translate(offset.x as real, offset.y as real)
    else Translate(0.0, offset.y as real)
  }

  // ------------------------------------------------------------ creation

  /** The capability a kind's visibility follows, for the kinds that have one. */
  function CapabilityFlag(kind: ButtonKind, caps: Capabilities): (r: Option<bool>)
    ensures r.Some? <==> kind in {Close, Maximize, Minimize, ContextHelp, Shade}
    ensures kind == Close ==> r == Some(caps.closeable)
    ensures kind == Maximize ==> r == Some(caps.maximizeable)
    ensures kind == Minimize ==> r == Some(caps.minimizeable)
    ensures kind == ContextHelp ==> r == Some(caps.providesContextHelp)
    ensures kind == Shade ==> r == Some(caps.shadeable)
  {
    match kind
    case Close => Some(caps.closeable)
    case Maximize => Some(caps.maximizeable)
    case Minimize => Some(caps.minimizeable)
    case ContextHelp => Some(caps.providesContextHelp)
    case Shade => Some(caps.shadeable)
    case _ => None
  }

  class Button {
    const kind: ButtonKind
    const animation: PropertyAnimation
    var visible: bool
    var pressed: bool
    var hovered: bool
    var checked: bool
    var flag: Flag
    var geometry: Rect
    var offset: Offset
    var iconSize: Size

    /** Button(type, decoration, parent): a square of the decoration's button
        height, its icon the same size, and the hover animation configured. */
    constructor (kind: ButtonKind, buttonHeight: int, ctx: Context)
      ensures this.kind == kind && visible && !pressed && !hovered && !checked
      ensures flag == FlagNone && offset == Offset(0, 0)
      ensures geometry == Rect(0, 0, buttonHeight, buttonHeight) && iconSize == Size(buttonHeight, buttonHeight)
      ensures fresh(animation)
      ensures animation.View() ==
        Snapshot(Forward, Stopped, 0, if ctx.animationsDuration >= 0 then ctx.animationsDuration else 250)
    {
      this.kind := kind;
      animation := new PropertyAnimation();
      visible, pressed, hovered, checked := true, false, false, false;
      flag, offset := FlagNone, Offset(0, 0);
      geometry := Rect(0, 0, buttonHeight, buttonHeight);
      iconSize := Size(buttonHeight, buttonHeight);
      new;
      Reconfigure(Some(ctx));
    }

    /** Button::create: a button only for this theme's decorations, shown
        according to the client capability of its kind. */
    static method Create(kind: ButtonKind, host: Host) returns (b: Button?)
      ensures host.OtherDecoration? <==> b == null
      ensures b != null ==> fresh(b) && fresh(b.animation) && b.kind == kind
      ensures b != null ==>
        b.visible == (match CapabilityFlag(kind, host.capabilities)
                      case Some(v) => v
                      case None => true)
      ensures b != null ==> b.geometry == Rect(0, 0, host.buttonHeight, host.buttonHeight)
    {
      match host
      case OtherDecoration =>
        b := null;
      case ThemeDecoration(caps, height, ctx) =>
        b := new Button(kind, height, ctx);
        match CapabilityFlag(kind, caps)
        case Some(v) => b.visible := v;
        case None =>
    }

    /** The interaction state the colour rules read. */
    function State(): Interaction
      reads this, animation
    {
      Interaction(pressed, hovered, checked, animation.state == Running)
    }

    /** Button::paint: nothing without a decoration; otherwise the translation
        for the button's flag, then the window icon for the Menu button or the
        icon of drawIcon for every other kind. The icon size is taken from the
        geometry the first time it is needed. */
    method Paint(ctx: Option<Context>) returns (ops: seq<DrawOp>)
      modifies this`iconSize
      ensures ctx.None? ==> ops == [] && iconSize == old(iconSize)
      ensures ctx.Some? ==>
        iconSize == (if old(iconSize).IsValid() then old(iconSize) else Size(geometry.width, geometry.height))
      ensures ctx.Some? ==>
        ops == [PaintTranslation(flag, offset)] +
          (if kind == Menu then [DrawWindowIcon(Rect(geometry.x, geometry.y, iconSize.width, iconSize.height))]
           else IconOps(kind, BackgroundColor(kind, State(), Some(ctx.value.palette)),
                        ForegroundColor(kind, State(), Some(ctx.value.palette)),
                        ctx.value.windowActive, hovered, checked, geometry, iconSize.width))
    {
      if ctx.None? {
        return [];
      }
      var translation := PaintTranslation(flag, offset);
      if !iconSize.IsValid() {
        iconSize := Size(geometry.width, geometry.height);
      }
      if kind == Menu {
        ops := [translation, DrawWindowIcon(Rect(geometry.x, geometry.y, iconSize.width, iconSize.height))];
      } else {
        var s := State();
        var palette := Some(ctx.value.palette);
        ops := [translation] + IconOps(kind, BackgroundColor(kind, s, palette), ForegroundColor(kind, s, palette),
                                       ctx.value.windowActive, hovered, checked, geometry, iconSize.width);
      }
    }

    /** Button::reconfigure: the animation takes the configured duration. */
    method Reconfigure(ctx: Option<Context>)
      modifies animation
      ensures ctx.Some? && ctx.value.animationsDuration >= 0 ==>
        animation.View() == old(animation.View()).(duration := ctx.value.animationsDuration)
      ensures !(ctx.Some? && ctx.value.animationsDuration >= 0) ==> animation.View() == old(animation.View())
    {
      if ctx.Some? {
        animation.SetDuration(ctx.value.animationsDuration);
      }
    }

    /** Button::updateAnimationState, on a change of hover: with animations
        enabled the animation runs toward the new hover state, started only if
        idle; otherwise nothing changes. */
    method UpdateAnimationState(ctx: Option<Context>, hovered: bool)
      modifies animation
      ensures ctx.Some? && ctx.value.animationsEnabled ==>
        animation.View() == Retargeted(old(animation.View()), hovered)
      ensures !(ctx.Some? && ctx.value.animationsEnabled) ==> animation.View() == old(animation.View())
    {
      if !(ctx.Some? && ctx.value.animationsEnabled) {
        return;
      }
      animation.SetDirection(if hovered then Forward else Backward);
      if animation.state != Running {
        animation.Start();
      }
    }
  }
}

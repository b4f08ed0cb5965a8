/** The window decoration of the theme (breezedecoration.cpp): border sizes,
    the title-bar rectangle, the placement of the button groups, the caption
    rectangle and its alignment, the title-bar colours and their activation
    animation, the Konsole title-bar predicate, and the process-wide shadow
    shared by all decorations. Host queries (client state, spacing, font
    height) are inputs; the predicates breezedecoration.h defines over them
    (screen edges, hidden title bar, no borders) are inputs as well. */
module BreezeDecoration {
  import opened Wrappers
  import opened Geometry
  import opened Colors
  import opened Animation
  import opened Text
  import opened BreezeButton

  /** KDecoration2::BorderSize and InternalSettings::EnumBorderSize, which have
      the same values; BorderOther stands for any value outside the list. */
  datatype BorderSetting =
    | BorderNone | BorderNoSides | BorderTiny | BorderNormal | BorderLarge
    | BorderVeryLarge | BorderHuge | BorderVeryHuge | BorderOversized | BorderOther

  /** InternalSettings::EnumTitleAlignment; AlignOther for any other value. */
  datatype TitleAlignment = AlignLeft | AlignCenter | AlignCenterFullWidth | AlignRight | AlignOther

  /** The Qt alignment the caption is drawn with: vertically centred and to the
      left, vertically centred and to the right, or Qt::AlignCenter. */
  datatype TextAlignment = VCenterLeft | VCenterRight | Centered

  /** What the host's DecorationSettings report; fontHeight is the height of
      the title font's metrics. */
  datatype Settings = Settings(
    smallSpacing: nat, largeSpacing: nat, gridUnit: nat, fontHeight: nat, borderSize: BorderSetting)

  /** The theme's own settings, as InternalSettings holds them. */
  datatype InternalSettings = InternalSettings(
    maskHasBorderSize: bool, borderSize: BorderSetting,
    animationsEnabled: bool, animationsDuration: int,
    outlineCloseButton: bool, drawTitleBarSeparator: bool,
    buttonSize: int, buttonSpacing: int, buttonHPadding: int,
    titleAlignment: TitleAlignment,
    shadowSize: int, shadowStrength: int, shadowColor: Color, drawSizeGrip: bool)

  /** The values of the Metrics enumeration of breeze.h used here. */
  datatype Metrics = Metrics(
    titleBarTopMargin: nat, titleBarBottomMargin: nat, titleBarSideMargin: nat, shadowOverlap: int)

  /** The client's state and the header predicates over it: `maximized` is the
      decoration's isMaximized(), the edges are isLeftEdge() and its siblings,
      `hideTitleBar`, `hasNoBorders` and `hasNoSideBorders` the predicates of
      the same names; `width` is the client's width. */
  datatype Window = Window(
    active: bool, shaded: bool, maximized: bool, resizeable: bool, width: int, caption: string,
    leftEdge: bool, rightEdge: bool, topEdge: bool, bottomEdge: bool,
    hideTitleBar: bool, hasNoBorders: bool, hasNoSideBorders: bool)

  // ------------------------------------------------------------ borders

  /** The factor of the settings that scale the base size uniformly. */
  function Multiplier(setting: BorderSetting): nat
  {
    match setting
    case BorderNormal => 2
    case BorderLarge => 3
    case BorderVeryLarge => 4
    case BorderHuge => 5
    case BorderVeryHuge => 6
    case BorderOversized => 10
    case _ => 0
  }

  /** The width of one border for a setting and a base size (the two switches
      of Decoration::borderSize, which are the same table). */
  function BorderWidth(setting: BorderSetting, base: int, bottom: bool): (r: int)
    ensures setting == BorderNone ==> r == 0
    ensures setting == BorderNoSides ==> r == (if bottom then Max(4, base) else 0)
    ensures setting in {BorderTiny, BorderOther} ==> r == (if bottom then Max(4, base) else base)
    ensures Multiplier(setting) > 0 ==> r == base * Multiplier(setting)
  {
    match setting
    case BorderNone => 0
    case BorderNoSides => if bottom then Max(4, base) else 0
    case BorderTiny => if bottom then Max(4, base) else base
    case BorderOther => if bottom then Max(4, base) else base
    case BorderNormal => base * 2
    case BorderLarge => base * 3
    case BorderVeryLarge => base * 4
    case BorderHuge => base * 5
    case BorderVeryHuge => base * 6
    case BorderOversized => base * 10
  }

  /** The order of the settings from thinnest to thickest. */
  function Rank(setting: BorderSetting): nat
  {
    match setting
    case BorderNone => 0
    case BorderNoSides => 1
    case BorderTiny => 2
    case BorderOther => 2
    case BorderNormal => 3
    case BorderLarge => 4
    case BorderVeryLarge => 5
    case BorderHuge => 6
    case BorderVeryHuge => 7
    case BorderOversized => 8
  }

  /** With a base size of at least 2 a thicker setting never gives a thinner
      border, and every setting but None leaves a bottom border of at least 4. */
  lemma BorderWidthMonotone(a: BorderSetting, b: BorderSetting, base: int, bottom: bool)
    requires base >= 2 && Rank(a) <= Rank(b)
    ensures BorderWidth(a, base, bottom) <= BorderWidth(b, base, bottom)
    ensures bottom && b != BorderNone ==> BorderWidth(b, base, bottom) >= 4
  {
  }

  /** Below a base size of 2 the order breaks at the bottom: Tiny's minimum of
      4 is thicker than Normal's twice the base. */
  lemma BottomMinimumExceedsNormal()
    ensures BorderWidth(BorderTiny, 1, true) == 4 && BorderWidth(BorderNormal, 1, true) == 2
  {
  }

  /** The setting in force: the theme's own one when its settings exist and
      their mask has the BorderSize bit, the host's otherwise. */
  function EffectiveBorder(s: Settings, internal: Option<InternalSettings>): (r: BorderSetting)
    ensures internal.Some? && internal.value.maskHasBorderSize ==> r == internal.value.borderSize
    ensures !(internal.Some? && internal.value.maskHasBorderSize) ==> r == s.borderSize
  {
    if internal.Some? && internal.value.maskHasBorderSize then internal.value.borderSize else s.borderSize
  }

  /** Decoration::borderSize(bottom). */
  function BorderSize(s: Settings, internal: Option<InternalSettings>, bottom: bool): (r: int)
    ensures r == BorderWidth(EffectiveBorder(s, internal), s.smallSpacing, bottom)
    ensures r >= 0
    ensures bottom && EffectiveBorder(s, internal) in {BorderNoSides, BorderTiny, BorderOther} ==> r >= 4
  {
    BorderWidth(EffectiveBorder(s, internal), s.smallSpacing, bottom)
  }

  /** Whatever the setting, the bottom border is never thinner than the side
      borders: NoSides and Tiny raise it to at least 4, the others are uniform. */
  lemma BottomBorderNeverThinner(s: Settings, internal: Option<InternalSettings>)
    ensures BorderSize(s, internal, true) >= BorderSize(s, internal, false)
  {
  }

  /** Decoration::buttonHeight. */
  function ButtonHeight(s: Settings, internal: InternalSettings): (r: int)
    ensures r - internal.buttonSize == s.gridUnit
    ensures internal.buttonSize >= 0 ==> r >= s.gridUnit
  {
    s.gridUnit + internal.buttonSize
  }

  /** The height the title font or a button needs, whichever is taller. */
  function TitleContentHeight(s: Settings, internal: InternalSettings): int
  {
    Max(s.fontHeight, ButtonHeight(s, internal))
  }

  /** The borders Decoration::recalculateBorders sets. */
  function Borders(w: Window, s: Settings, internal: InternalSettings, m: Metrics): (r: Margins)
    ensures r.left == (if w.leftEdge then 0 else BorderSize(s, Some(internal), false))
    ensures r.right == (if w.rightEdge then 0 else BorderSize(s, Some(internal), false))
    ensures r.bottom == (if w.shaded || w.bottomEdge then 0 else BorderSize(s, Some(internal), true))
    ensures w.hideTitleBar ==> r.top == r.bottom
    ensures !w.hideTitleBar ==>
      r.top == TitleContentHeight(s, internal)
               + s.smallSpacing * (m.titleBarBottomMargin + m.titleBarTopMargin) + 1
    ensures !w.hideTitleBar ==> r.top > TitleContentHeight(s, internal)
  {
    var left := if w.leftEdge then 0 else BorderSize(s, Some(internal), false);
    var right := if w.rightEdge then 0 else BorderSize(s, Some(internal), false);
    var bottom := if w.shaded || w.bottomEdge then 0 else BorderSize(s, Some(internal), true);
    var top :=
      if w.hideTitleBar then bottom
      else TitleContentHeight(s, internal) + s.smallSpacing * m.titleBarBottomMargin + 1
           + s.smallSpacing * m.titleBarTopMargin;
    Margins(left, top, right, bottom)
  }

  /** The resize-only borders Decoration::recalculateBorders sets: an area of
      the large spacing, outside the window, where only resizing happens. */
  function ResizeOnlyBorders(w: Window, s: Settings): (r: Margins)
    ensures r.top == 0 && r.left == r.right
    ensures w.hasNoBorders ==> r == Margins(s.largeSpacing, 0, s.largeSpacing, s.largeSpacing)
    ensures !w.hasNoBorders && w.hasNoSideBorders ==> r == Margins(s.largeSpacing, 0, s.largeSpacing, 0)
    ensures !w.hasNoBorders && !w.hasNoSideBorders ==> r == Margins(0, 0, 0, 0)
  {
    var ext := s.largeSpacing;
    if w.hasNoBorders then Margins(ext, 0, ext, ext)
    else if w.hasNoSideBorders then Margins(ext, 0, ext, 0)
    else Margins(0, 0, 0, 0)
  }

  /** Decoration::captionHeight: the top border less its margins and the
      outline pixel, or the whole top border when the title bar is hidden. */
  function CaptionHeight(hideTitleBar: bool, borderTop: int, s: Settings, m: Metrics): (r: int)
    ensures hideTitleBar ==> r == borderTop
    ensures !hideTitleBar ==> r + s.smallSpacing * (m.titleBarBottomMargin + m.titleBarTopMargin) + 1 == borderTop
    ensures !hideTitleBar ==> r < borderTop
  {
    if hideTitleBar then borderTop
    else borderTop - s.smallSpacing * (m.titleBarBottomMargin + m.titleBarTopMargin) - 1
  }

  /** The caption height undoes the top-border computation: it is the height
      of the title font or a button, whichever is taller. */
  lemma CaptionHeightOfBorders(w: Window, s: Settings, internal: InternalSettings, m: Metrics)
    ensures var b := Borders(w, s, internal, m);
            CaptionHeight(w.hideTitleBar, b.top, s, m) ==
              (if w.hideTitleBar then b.bottom else TitleContentHeight(s, internal))
  {
  }

  /** Decoration::updateTitleBar: the title-bar rectangle. */
  function TitleBarRect(maximized: bool, clientWidth: int, borderTop: int, s: Settings, m: Metrics): (r: Rect)
    ensures r.x + r.width + r.x == clientWidth
    ensures r.y + r.height == borderTop
    ensures maximized ==> r == Rect(0, 0, clientWidth, borderTop)
    ensures !maximized ==> r.x == s.largeSpacing * m.titleBarSideMargin && r.y == s.smallSpacing * m.titleBarTopMargin
  {
    var x := if maximized then 0 else s.largeSpacing * m.titleBarSideMargin;
    var y := if maximized then 0 else s.smallSpacing * m.titleBarTopMargin;
    var width := if maximized then clientWidth else clientWidth - 2 * s.largeSpacing * m.titleBarSideMargin;
    var height := if maximized then borderTop else borderTop - s.smallSpacing * m.titleBarTopMargin;
    Rect(x, y, width, height)
  }

  // ------------------------------------------------------------ button groups

  /** The top margin a button absorbs when the window touches the top edge. */
  function TopEdgeExtra(topEdge: bool, s: Settings, m: Metrics): int
  {
    if topEdge then s.smallSpacing * m.titleBarTopMargin else 0
  }

  /** The height of every button's box. */
  function ButtonBoxHeight(topEdge: bool, s: Settings, m: Metrics, captionHeight: int): int
  {
    captionHeight + TopEdgeExtra(topEdge, s, m)
  }

  /** The vertical offset of every button's glyph within its box. */
  function ButtonVerticalOffset(topEdge: bool, s: Settings, m: Metrics, captionHeight: int, buttonHeight: int): int
  {
    TopEdgeExtra(topEdge, s, m) + CDiv(captionHeight - buttonHeight, 2)
  }

  /** The box every button gets before the edge buttons are widened: as wide
      as the button height, as tall as the caption plus the top margin on a top
      edge, with the glyph centred vertically in the caption. */
  datatype ButtonBox = ButtonBox(width: int, height: int, verticalOffset: int)

  function StandardButtonBox(w: Window, borderTop: int, s: Settings, internal: InternalSettings, m: Metrics): ButtonBox
  {
    var ch := CaptionHeight(w.hideTitleBar, borderTop, s, m);
    var bw := ButtonHeight(s, internal);
    ButtonBox(bw, ButtonBoxHeight(w.topEdge, s, m, ch), ButtonVerticalOffset(w.topEdge, s, m, ch, bw))
  }

  /** The vertical position of both button groups. */
  function GroupVerticalPadding(topEdge: bool, s: Settings, m: Metrics): int
  {
    if topEdge then 0 else s.smallSpacing * m.titleBarTopMargin
  }

  /** The horizontal position of the left group. */
  function LeftGroupX(leftEdge: bool, hPadding: int, borderLeft: int): int
  {
    if leftEdge then 0 else hPadding + borderLeft
  }

  /** The horizontal position of the right group, given the group's width. */
  function RightGroupX(rightEdge: bool, decorationWidth: int, groupWidth: int, hPadding: int, borderRight: int): int
  {
    if rightEdge then decorationWidth - groupWidth else decorationWidth - groupWidth - hPadding - borderRight
  }

  /** With the title bar shown, each button's glyph lies within its box and is
      centred in the caption height to within a pixel. */
  lemma ButtonsCentredInCaption(w: Window, s: Settings, internal: InternalSettings, m: Metrics)
    requires !w.hideTitleBar
    ensures var ch := CaptionHeight(w.hideTitleBar, Borders(w, s, internal, m).top, s, m);
            var bh := ButtonHeight(s, internal);
            var off := ButtonVerticalOffset(w.topEdge, s, m, ch, bh);
            var extra := TopEdgeExtra(w.topEdge, s, m);
            extra <= off && off + bh <= ButtonBoxHeight(w.topEdge, s, m, ch)
            && 2 * (off - extra) <= ch - bh <= 2 * (off - extra) + 1
  {
    CaptionHeightOfBorders(w, s, internal, m);
  }

  /** Fitts's law on the left edge: the first button's box reaches the screen
      edge while its glyph stays where the padding puts it. Whether or not the
      window touches the edge, and whatever flag the button kept from earlier,
      the glyph starts at the padding plus the left border. */
  lemma FirstLeftButtonKeepsPadding(w: Window, s: Settings, internal: InternalSettings, m: Metrics, flag: Flag)
    requires w.leftEdge ==> flag == FlagFirstInList
    ensures var left := Borders(w, s, internal, m).left;
            var hPad := internal.buttonHPadding;
            var groupX := LeftGroupX(w.leftEdge, hPad, left);
            var shift := PaintTranslation(flag, Offset(if w.leftEdge then hPad else 0, 0)).dx;
            groupX as real + shift == (hPad + left) as real
            && (w.leftEdge ==> groupX == 0 && left == 0)
  {
  }

  /** On the right edge the right group ends at the decoration's right edge;
      otherwise it ends the padding plus the right border before it. */
  lemma RightGroupReachesEdge(rightEdge: bool, decorationWidth: int, groupWidth: int, hPadding: int, borderRight: int)
    ensures RightGroupX(rightEdge, decorationWidth, groupWidth, hPadding, borderRight) + groupWidth
            == decorationWidth - (if rightEdge then 0 else hPadding + borderRight)
  {
  }

  // ------------------------------------------------------------ caption

  /** Where the caption may start: after the left group, or at the side margin. */
  function LeftOffset(leftGroupEnd: Option<int>, s: Settings, m: Metrics): int
  {
    m.titleBarSideMargin * s.smallSpacing + (if leftGroupEnd.Some? then leftGroupEnd.value else 0)
  }

  /** How far from the right the caption must stop: before the right group, or
      at the side margin. */
  function RightOffset(rightGroupStart: Option<int>, width: int, s: Settings, m: Metrics): int
  {
    m.titleBarSideMargin * s.smallSpacing + (if rightGroupStart.Some? then width - rightGroupStart.value else 0)
  }

  /** The left of a text of the given width centred in the full width, with the
      truncating division of the source. */
  function CenteredTextLeft(width: int, textWidth: int): (x: int)
    ensures 2 * x <= width - textWidth + 1 && width - textWidth - 1 <= 2 * x
  {
    CDiv(width - textWidth, 2)
  }

  /** Decoration::captionRect. `leftGroupEnd` is the right end of the left
      button group and `rightGroupStart` the left end of the right group, each
      None when its group is empty; `width` is the decoration's width and
      `textWidth` the width of the caption's bounding box. */
  function CaptionRect(hideTitleBar: bool, leftGroupEnd: Option<int>, rightGroupStart: Option<int>, width: int,
                       s: Settings, m: Metrics, captionHeight: int, alignment: TitleAlignment, textWidth: int)
    : (r: (Rect, TextAlignment))
    ensures hideTitleBar ==> r == (NullRect, Centered)
    ensures !hideTitleBar ==>
      var lo := LeftOffset(leftGroupEnd, s, m);
      var ro := RightOffset(rightGroupStart, width, s, m);
      var y := s.smallSpacing * m.titleBarTopMargin;
      var maxRect := Rect(lo, y, width - lo - ro, captionHeight);
      var x := CenteredTextLeft(width, textWidth);
      && maxRect.x + maxRect.width + ro == width
      && (alignment == AlignLeft ==> r == (maxRect, VCenterLeft))
      && (alignment == AlignRight ==> r == (maxRect, VCenterRight))
      && (alignment == AlignCenter ==> r == (maxRect, Centered))
      && (alignment in {AlignCenterFullWidth, AlignOther} ==>
            (r.1 == VCenterLeft <==> x < lo)
            && (r.1 == VCenterRight <==> lo <= x && x + textWidth - 1 > width - ro)
            && (r.1 == Centered <==> lo <= x && x + textWidth - 1 <= width - ro)
            && r.0 == (if r.1 == Centered then Rect(0, y, width, captionHeight) else maxRect))
  {
    if hideTitleBar then (NullRect, Centered)
    else
      var lo := LeftOffset(leftGroupEnd, s, m);
      var ro := RightOffset(rightGroupStart, width, s, m);
      var y := s.smallSpacing * m.titleBarTopMargin;
      var maxRect := Rect(lo, y, width - lo - ro, captionHeight);
      match alignment
      case AlignLeft => (maxRect, VCenterLeft)
      case AlignRight => (maxRect, VCenterRight)
      case AlignCenter => (maxRect, Centered)
      case _ =>
        var fullRect := Rect(0, y, width, captionHeight);
        var bounding := Rect(CenteredTextLeft(width, textWidth), y, textWidth, captionHeight);
        if bounding.x < lo then (maxRect, VCenterLeft)
        else if bounding.Right() > width - ro then (maxRect, VCenterRight)
        else (fullRect, Centered)
  }

  /** A caption centred over the full width never reaches into either button
      group: if it would, the caption falls back to the free space between the
      groups, and a collision on the left wins even when the text also
      collides on the right. */
  lemma CenteredCaptionClearsButtons(leftGroupEnd: Option<int>, rightGroupStart: Option<int>, width: int,
                                     s: Settings, m: Metrics, captionHeight: int, textWidth: int)
    ensures var r := CaptionRect(false, leftGroupEnd, rightGroupStart, width, s, m, captionHeight,
                                 AlignCenterFullWidth, textWidth);
            var x := CenteredTextLeft(width, textWidth);
            (r.1 == Centered ==>
               LeftOffset(leftGroupEnd, s, m) <= x
               && x + textWidth <= width - RightOffset(rightGroupStart, width, s, m) + 1)
            && (x < LeftOffset(leftGroupEnd, s, m) ==> r.1 == VCenterLeft)
  {
  }

  // ------------------------------------------------------------ colours

  /** Decoration::titleBarColor: the inactive title-bar colour whenever the
      title bar is hidden; a cross-fade while the activation animation runs;
      otherwise the colour of the window's activity. */
  function TitleBarColor(hideTitleBar: bool, running: bool, active: bool): (r: Color)
    ensures r.IsValid() && !UsesOpacity(r, ButtonHover)
    ensures hideTitleBar ==> r == ClientRole(Inactive, TitleBar)
    ensures UsesOpacity(r, WindowActivation) <==> !hideTitleBar && running
    ensures !running ==> r == ClientRole(if active && !hideTitleBar then Active else Inactive, TitleBar)
  {
    if hideTitleBar then ClientRole(Inactive, TitleBar)
    else if running then Mix(ClientRole(Inactive, TitleBar), ClientRole(Active, TitleBar), OpacityOf(WindowActivation))
    else ClientRole(if active then Active else Inactive, TitleBar)
  }

  /** Decoration::fontColor. */
  function FontColor(running: bool, active: bool): (r: Color)
    ensures r.IsValid() && !UsesOpacity(r, ButtonHover)
    ensures UsesOpacity(r, WindowActivation) <==> running
    ensures !running ==> r == ClientRole(if active then Active else Inactive, Foreground)
  {
    if running then Mix(ClientRole(Inactive, Foreground), ClientRole(Active, Foreground), OpacityOf(WindowActivation))
    else ClientRole(if active then Active else Inactive, Foreground)
  }

  /** Decoration::outlineColor: the separator under the title bar. */
  function OutlineColor(separator: bool, running: bool, active: bool): (r: Color)
    ensures !r.IsValid() <==> !separator || (!running && !active)
    ensures !UsesOpacity(r, ButtonHover)
    ensures r.IsValid() ==> r == (if running then AlphaScaled(Highlight, WindowActivation) else Highlight)
  {
    if !separator then Invalid
    else if running then AlphaScaled(Highlight, WindowActivation)
    else if active then Highlight
    else Invalid
  }

  /** When the activation animation ends (at opacity 1 for a window that became
      active, 0 for one that became inactive), the title bar, caption and
      separator colours are those of the window at rest. */
  lemma ActivationAnimationEndsOnStaticColours(hideTitleBar: bool, separator: bool, active: bool)
    ensures var e := if active then AtOne else AtZero;
            Settle(TitleBarColor(hideTitleBar, true, active), WindowActivation, e) == TitleBarColor(hideTitleBar, false, active)
            && Settle(FontColor(true, active), WindowActivation, e) == FontColor(false, active)
            && SameAppearance(Settle(OutlineColor(separator, true, active), WindowActivation, e),
                              OutlineColor(separator, false, active))
  {
  }

  // ------------------------------------------------------------ Konsole

  /** The text Konsole appends to its window titles. */
  const KonsoleMark: string := " — Konsole"

  /** Decoration::isKonsoleWindow: the caption carries Konsole's suffix and a
      colon, and a Konsole colour profile was read successfully. */
  function IsKonsoleWindow(caption: string, profileValid: bool): (r: bool)
    ensures r ==> profileValid && Contains(caption, KonsoleMark) && Contains(caption, ":")
    ensures profileValid && Contains(caption, KonsoleMark) && Contains(caption, ":") ==> r
  {
    Contains(caption, KonsoleMark) && Contains(caption, ":") && profileValid
  }

  /** The colon test is a test for the character: a caption without a colon is
      never a Konsole window, whatever the profile. */
  lemma KonsoleWindowNeedsColon(caption: string, profileValid: bool)
    ensures IsKonsoleWindow(caption, profileValid) <==>
              profileValid && ':' in caption && Contains(caption, KonsoleMark)
  {
    ContainsChar(caption, ':');
  }

  /** Whatever text a caption gains before or after it, a Konsole caption
      stays one: the predicate looks only for its two markers. */
  lemma KonsoleWindowSurvivesExtension(caption: string, before: string, after: string, profileValid: bool)
    requires IsKonsoleWindow(caption, profileValid)
    ensures IsKonsoleWindow(before + caption + after, profileValid)
  {
    ContainsExtended(caption, KonsoleMark, before, after);
    ContainsExtended(caption, ":", before, after);
  }

  /** The validity rule of Decoration::readKonsoleProfileColor, over the text
      already read: the profile and its colour scheme exist and both the
      background and the foreground colour split at commas into three parts,
      that is, hold exactly two commas. */
  function KonsoleProfileValid(profileFound: bool, schemeFound: bool, background: string, foreground: string)
    : (r: bool)
    ensures r <==> profileFound && schemeFound
                   && Occurrences(background, ',') == 2 && Occurrences(foreground, ',') == 2
  {
    SplitCount(background, ',');
    SplitCount(foreground, ',');
    profileFound && schemeFound && |Split(background, ',')| == 3 && |Split(foreground, ',')| == 3
  }

  // ------------------------------------------------------------ shadow

  /** The shadow parameters that decide whether the cached shadow can be reused. */
  datatype ShadowParams = ShadowParams(size: int, strength: int, color: Color)

  /** How far the shadow is shifted down under the window. */
  function ShadowOffset(size: int, m: Metrics): int
  {
    Max(CDiv(6 * size, 16), 2 * m.shadowOverlap)
  }

  /** The padding of the shadow: the same on three sides and smaller on top by
      the offset, so that the shadow falls below the window. */
  function ShadowPadding(size: int, m: Metrics): (r: Margins)
    ensures r.left == r.right == r.bottom == size - m.shadowOverlap
    ensures r.top == r.left - ShadowOffset(size, m)
    ensures r.top <= r.left - 2 * m.shadowOverlap
  {
    Margins(size - m.shadowOverlap, size - ShadowOffset(size, m) - m.shadowOverlap,
            size - m.shadowOverlap, size - m.shadowOverlap)
  }

  /** A DecorationShadow: its padding and inner rectangle. The image itself is
      not modelled. */
  class Shadow {
    const padding: Margins
    const innerShadowRect: Rect

    constructor (size: int, m: Metrics)
      ensures padding == ShadowPadding(size, m) && innerShadowRect == Rect(size, size, 1, 1)
    {
      padding := ShadowPadding(size, m);
      innerShadowRect := Rect(size, size, 1, 1);
    }
  }

  /** The process-wide state shared by all decorations: the number of live
      decorations, the parameters of the cached shadow and the shadow. */
  class ShadowCache {
    var decoCount: int
    var params: ShadowParams
    var shadow: Shadow?

    /** The globals at load time: no decoration, parameters 0, 0 and black, no shadow. */
    constructor ()
      ensures decoCount == 0 && params == ShadowParams(0, 0, Rgb(0, 0, 0)) && shadow == null
    {
      decoCount, params, shadow := 0, ShadowParams(0, 0, Rgb(0, 0, 0)), null;
    }
  }

  /** The shadow must be built afresh when none is cached or the cached one was
      built with other parameters. */
  predicate MustRebuild(cached: Shadow?, cachedParams: ShadowParams, wanted: ShadowParams)
  {
    cached == null || cachedParams != wanted
  }

  /** The size grip of an X11 window without borders. */
  class SizeGrip {
    var visible: bool
    var repaints: nat

    /** SizeGrip(decoration): breezesizegrip.cpp is not part of this model; a
        new grip is taken to be shown and not yet repainted. */
    constructor ()
      ensures visible && repaints == 0
    {
      visible, repaints := true, 0;
    }
  }

  /** What Decoration::readKonsoleProfileColor reads from the files: whether
      the default profile and its colour scheme exist, and the scheme's
      background and foreground colour entries. */
  datatype KonsoleConfig = KonsoleConfig(profileFound: bool, schemeFound: bool, background: string, foreground: string)

  // ------------------------------------------------------------ decoration

  class Decoration {
    const cache: ShadowCache
    const animation: PropertyAnimation
    const metrics: Metrics
    var window: Window
    var settings: Settings
    var internal: InternalSettings
    var konsoleProfileValid: bool
    var opacity: real
    var borders: Margins
    var resizeOnlyBorders: Margins
    var titleBar: Rect
    var leftButtons: seq<Button>
    var rightButtons: seq<Button>
    var leftSpacing: int
    var rightSpacing: int
    var leftPos: Offset
    var rightPos: Offset
    var sizeGrip: SizeGrip?
    var shadow: Shadow?
    var repaints: nat   // update() requests

    /** Decoration(parent, args): one more live decoration. */
    constructor (cache: ShadowCache, metrics: Metrics, window: Window, settings: Settings, internal: InternalSettings)
      modifies cache
      ensures cache.decoCount == old(cache.decoCount) + 1
      ensures cache.params == old(cache.params) && cache.shadow == old(cache.shadow)
      ensures this.cache == cache && this.metrics == metrics && this.window == window
      ensures this.settings == settings && this.internal == internal
      ensures fresh(animation) && animation.View() == Snapshot(Forward, Stopped, 0, 250)
      ensures opacity == 0.0 && sizeGrip == null && shadow == null && repaints == 0
      ensures leftButtons == [] && rightButtons == []
    {
      this.cache := cache;
      this.metrics := metrics;
      this.window := window;
      this.settings := settings;
      this.internal := internal;
      animation := new PropertyAnimation();
      konsoleProfileValid := false;
      opacity := 0.0;
      borders, resizeOnlyBorders := Margins(0, 0, 0, 0), Margins(0, 0, 0, 0);
      titleBar := NullRect;
      leftButtons, rightButtons := [], [];
      leftSpacing, rightSpacing := 0, 0;
      leftPos, rightPos := Offset(0, 0), Offset(0, 0);
      sizeGrip, shadow, repaints := null, null, 0;
      new;
      cache.decoCount := cache.decoCount + 1;
    }

    /** ~Decoration: one decoration fewer; the last one to go drops the shared
        shadow. The size grip is deleted. */
    method Destroy()
      modifies cache, this`sizeGrip
      ensures cache.decoCount == old(cache.decoCount) - 1 && cache.params == old(cache.params)
      ensures cache.shadow == (if cache.decoCount == 0 then null else old(cache.shadow))
      ensures sizeGrip == null
    {
      cache.decoCount := cache.decoCount - 1;
      if cache.decoCount == 0 {
        cache.shadow := null;
      }
      sizeGrip := null;
    }

    /** The decoration's size, as KDecoration2 computes it: the client width
        plus the side borders. */
    function Width(): int
      reads this`window, this`borders
    {
      window.width + borders.left + borders.right
    }

    function AllButtons(): seq<Button>
      reads this`leftButtons, this`rightButtons
    {
      leftButtons + rightButtons
    }

    /** The colours and the option the buttons read. */
    function ButtonPalette(): Palette
      reads this, animation
    {
      Palette(TitleBarColor(window.hideTitleBar, animation.state == Running, window.active),
              FontColor(animation.state == Running, window.active),
              internal.outlineCloseButton)
    }

    /** The test Decoration::paint puts to the window's caption before it
        picks Konsole's colours for the frame, the title bar and the text. */
    function IsKonsole(): (r: bool)
      reads this`window, this`konsoleProfileValid
      ensures r <==> konsoleProfileValid && ':' in window.caption && Contains(window.caption, KonsoleMark)
    {
      KonsoleWindowNeedsColon(window.caption, konsoleProfileValid);
      IsKonsoleWindow(window.caption, konsoleProfileValid)
    }

    /** What a button reads from this decoration. */
    function ButtonContext(): (ctx: Context)
      reads this, animation
      ensures ctx.palette.IsValid() && ctx.palette.IgnoresHover()
      ensures ctx.palette.titleBar == TitleBarColor(window.hideTitleBar, animation.state == Running, window.active)
      ensures ctx.palette.font == FontColor(animation.state == Running, window.active)
      ensures ctx.palette.outlineCloseButton == internal.outlineCloseButton
      ensures ctx.windowActive == window.active && ctx.animationsEnabled == internal.animationsEnabled
      ensures ctx.animationsDuration == internal.animationsDuration
    {
      Context(ButtonPalette(), window.active, internal.animationsEnabled, internal.animationsDuration)
    }

    /** Decoration::setOpacity: a new value is stored and repainted, together
        with the size grip; the current value changes nothing. */
    method SetOpacity(value: real)
      modifies this`opacity, this`repaints, sizeGrip
      ensures opacity == value
      ensures old(opacity) == value ==>
        repaints == old(repaints) && (sizeGrip != null ==> sizeGrip.repaints == old(sizeGrip.repaints))
      ensures old(opacity) != value ==>
        repaints == old(repaints) + 1 && (sizeGrip != null ==> sizeGrip.repaints == old(sizeGrip.repaints) + 1)
      ensures sizeGrip != null ==> sizeGrip.visible == old(sizeGrip.visible)
    {
      if opacity == value {
        return;
      }
      opacity := value;
      repaints := repaints + 1;
      if sizeGrip != null {
        sizeGrip.repaints := sizeGrip.repaints + 1;
      }
    }

    /** Decoration::updateAnimationState, on a change of activity: with
        animations enabled the animation runs toward the new activity, started
        only if idle; otherwise the decoration is just repainted. */
    method UpdateAnimationState()
      modifies animation, this`repaints
      ensures internal.animationsEnabled ==>
        animation.View() == Retargeted(old(animation.View()), window.active) && repaints == old(repaints)
      ensures !internal.animationsEnabled ==>
        animation.View() == old(animation.View()) && repaints == old(repaints) + 1
    {
      if internal.animationsEnabled {
        animation.SetDirection(if window.active then Forward else Backward);
        if animation.state != Running {
          animation.Start();
        }
      } else {
        repaints := repaints + 1;
      }
    }

    /** Decoration::updateSizeGripVisibility: the grip shows only for a
        resizable window that is neither maximized nor shaded. */
    method UpdateSizeGripVisibility()
      modifies sizeGrip
      ensures sizeGrip != null ==>
        sizeGrip.visible == (window.resizeable && !window.maximized && !window.shaded)
        && sizeGrip.repaints == old(sizeGrip.repaints)
    {
      if sizeGrip != null {
        sizeGrip.visible := window.resizeable && !window.maximized && !window.shaded;
      }
    }

    /** Decoration::recalculateBorders. */
    method RecalculateBorders()
      modifies this`borders, this`resizeOnlyBorders
      ensures borders == Borders(window, settings, internal, metrics)
      ensures resizeOnlyBorders == ResizeOnlyBorders(window, settings)
    {
      var left := if window.leftEdge then 0 else BorderSize(settings, Some(internal), false);
      var right := if window.rightEdge then 0 else BorderSize(settings, Some(internal), false);
      var bottom := if window.shaded || window.bottomEdge then 0 else BorderSize(settings, Some(internal), true);
      var top := 0;
      if window.hideTitleBar {
        top := bottom;
      } else {
        top := top + Max(settings.fontHeight, ButtonHeight(settings, internal));
        var baseSize := settings.smallSpacing;
        top := top + baseSize * metrics.titleBarBottomMargin + 1;
        top := top + baseSize * metrics.titleBarTopMargin;
      }
      borders := Margins(left, top, right, bottom);

      var extSize := settings.largeSpacing;
      var extSides, extBottom := 0, 0;
      if window.hasNoBorders {
        extSides, extBottom := extSize, extSize;
      } else if window.hasNoSideBorders {
        extSides := extSize;
      }
      resizeOnlyBorders := Margins(extSides, 0, extSides, extBottom);
    }

    /** Decoration::updateTitleBar. */
    method UpdateTitleBar()
      modifies this`titleBar
      ensures titleBar == TitleBarRect(window.maximized, window.width, borders.top, settings, metrics)
    {
      titleBar := TitleBarRect(window.maximized, window.width, borders.top, settings, metrics);
    }

    /** The button has the given box, glyph offset and icon size. */
    static predicate HasBox(b: Button, geometry: Rect, offset: Offset, iconSize: Size)
      reads b`geometry, b`offset, b`iconSize
    {
      b.geometry == geometry && b.offset == offset && b.iconSize == iconSize
    }

    /** The first pass of Decoration::updateButtonsGeometry: every button gets
        the same box, glyph offset and icon size. */
    static method ResetButtons(all: seq<Button>, geometry: Rect, offset: Offset, iconSize: Size)
      modifies all`geometry, all`offset, all`iconSize
      ensures forall b :: b in all ==> HasBox(b, geometry, offset, iconSize)
    {
      var i := 0;
      while i < |all|
        invariant 0 <= i <= |all|
        invariant forall j :: 0 <= j < i ==>
          all[j].geometry == geometry && all[j].offset == offset && all[j].iconSize == iconSize
      {
        all[i].geometry := geometry;
        all[i].offset := offset;
        all[i].iconSize := iconSize;
        i := i + 1;
      }
    }

    /** A button at a screen edge: a wider box, its position in the group, and
        the horizontal offset of its glyph. */
    static method MakeEdgeButton(b: Button, geometry: Rect, flag: Flag, glyphX: int)
      modifies b`geometry, b`flag, b`offset
      ensures b.geometry == geometry && b.flag == flag && b.offset == Offset(glyphX, old(b.offset.y))
    {
      b.geometry := geometry;
      b.flag := flag;
      b.offset := b.offset.(x := glyphX);
    }

    /** The first left button when the window touches the left edge. */
    function LeftEdgeButton(): set<Button>
      reads this`window, this`leftButtons
    {
      if window.leftEdge && leftButtons != [] then {leftButtons[0]} else {}
    }

    /** The last right button when the window touches the right edge. */
    function RightEdgeButton(): set<Button>
      reads this`window, this`rightButtons
    {
      if window.rightEdge && rightButtons != [] then {rightButtons[|rightButtons| - 1]} else {}
    }

    /** The buttons whose box reaches a screen edge. */
    function EdgeButtons(): set<Button>
      reads this`window, this`leftButtons, this`rightButtons
    {
      LeftEdgeButton() + RightEdgeButton()
    }

    /** Each edge button is one of the decoration's buttons. */
    lemma EdgeButtonsAreButtons()
      ensures forall b :: b in EdgeButtons() ==> b in AllButtons()
    {
    }

    /** The left group's spacing and position; on a left edge the first button
        widens to reach the edge and its glyph moves by the padding. */
    method PlaceLeftGroup(buttonWidth: int, boxHeight: int)
      modifies this`leftSpacing, this`leftPos, LeftEdgeButton()`geometry, LeftEdgeButton()`flag, LeftEdgeButton()`offset
      ensures var hPad := internal.buttonHPadding;
              && (window.leftEdge && leftButtons != [] ==>
                    var b := leftButtons[0];
                    b.geometry == Rect(0, 0, buttonWidth + hPad, boxHeight) && b.flag == FlagFirstInList
                    && b.offset == Offset(hPad, old(b.offset.y)) && b.iconSize == old(b.iconSize))
              && (leftButtons != [] ==>
                    leftSpacing == internal.buttonSpacing
                    && leftPos == Offset(LeftGroupX(window.leftEdge, hPad, borders.left),
                                         GroupVerticalPadding(window.topEdge, settings, metrics)))
              && (leftButtons == [] ==> leftSpacing == old(leftSpacing) && leftPos == old(leftPos))
    {
      var hPad := internal.buttonHPadding;
      var vPad := GroupVerticalPadding(window.topEdge, settings, metrics);
      if leftButtons != [] {
        leftSpacing := internal.buttonSpacing;
        if window.leftEdge {
          MakeEdgeButton(leftButtons[0], Rect(0, 0, buttonWidth + hPad, boxHeight), FlagFirstInList, hPad);
          leftPos := Offset(0, vPad);
        } else {
          leftPos := Offset(hPad + borders.left, vPad);
        }
      }
    }

    /** The right group's spacing and position; on a right edge the last
        button widens to reach the edge, its glyph staying where it was. */
    method PlaceRightGroup(buttonWidth: int, boxHeight: int, rightGroupWidth: int)
      modifies this`rightSpacing, this`rightPos, RightEdgeButton()`geometry, RightEdgeButton()`flag, RightEdgeButton()`offset
      ensures var hPad := internal.buttonHPadding;
              && (window.rightEdge && rightButtons != [] ==>
                    var b := rightButtons[|rightButtons| - 1];
                    b.geometry == Rect(0, 0, buttonWidth + hPad, boxHeight) && b.flag == FlagLastInList
                    && b.offset == old(b.offset) && b.iconSize == old(b.iconSize))
              && (rightButtons != [] ==>
                    rightSpacing == internal.buttonSpacing
                    && rightPos == Offset(RightGroupX(window.rightEdge, Width(), rightGroupWidth, hPad, borders.right),
                                          GroupVerticalPadding(window.topEdge, settings, metrics)))
              && (rightButtons == [] ==> rightSpacing == old(rightSpacing) && rightPos == old(rightPos))
    {
      var hPad := internal.buttonHPadding;
      var vPad := GroupVerticalPadding(window.topEdge, settings, metrics);
      if rightButtons != [] {
        rightSpacing := internal.buttonSpacing;
        if window.rightEdge {
          var b := rightButtons[|rightButtons| - 1];
          MakeEdgeButton(b, Rect(0, 0, buttonWidth + hPad, boxHeight), FlagLastInList, b.offset.x);
          rightPos := Offset(Width() - rightGroupWidth, vPad);
        } else {
          rightPos := Offset(Width() - rightGroupWidth - hPad - borders.right, vPad);
        }
      }
    }

    /** The second pass of Decoration::updateButtonsGeometry: both groups
        placed, then a repaint requested. */
    method PlaceGroups(buttonWidth: int, boxHeight: int, rightGroupWidth: int)
      requires leftButtons != [] && rightButtons != [] ==> leftButtons[0] != rightButtons[|rightButtons| - 1]
      modifies this`leftSpacing, this`rightSpacing, this`leftPos, this`rightPos, this`repaints
      modifies EdgeButtons()`geometry, EdgeButtons()`flag, EdgeButtons()`offset
      ensures var hPad := internal.buttonHPadding;
              && (window.leftEdge && leftButtons != [] ==>
                    var b := leftButtons[0];
                    b.geometry == Rect(0, 0, buttonWidth + hPad, boxHeight) && b.flag == FlagFirstInList
                    && b.offset == Offset(hPad, old(b.offset.y)) && b.iconSize == old(b.iconSize))
              && (window.rightEdge && rightButtons != [] ==>
                    var b := rightButtons[|rightButtons| - 1];
                    b.geometry == Rect(0, 0, buttonWidth + hPad, boxHeight) && b.flag == FlagLastInList
                    && b.offset == old(b.offset) && b.iconSize == old(b.iconSize))
      ensures var vPad := GroupVerticalPadding(window.topEdge, settings, metrics);
              var hPad := internal.buttonHPadding;
              && (leftButtons != [] ==>
                    leftSpacing == internal.buttonSpacing
                    && leftPos == Offset(LeftGroupX(window.leftEdge, hPad, borders.left), vPad))
              && (leftButtons == [] ==> leftSpacing == old(leftSpacing) && leftPos == old(leftPos))
              && (rightButtons != [] ==>
                    rightSpacing == internal.buttonSpacing
                    && rightPos == Offset(RightGroupX(window.rightEdge, Width(), rightGroupWidth, hPad, borders.right), vPad))
              && (rightButtons == [] ==> rightSpacing == old(rightSpacing) && rightPos == old(rightPos))
      ensures repaints == old(repaints) + 1
    {
      PlaceLeftGroup(buttonWidth, boxHeight);
      PlaceRightGroup(buttonWidth, boxHeight, rightGroupWidth);
      repaints := repaints + 1;
    }

    /** Decoration::updateButtonsGeometry: every button gets the standard box,
        offset and icon size; a button at a screen edge widens its box by the
        padding (and, on the left, moves its glyph by it) so that it reaches
        the edge; then the groups are placed. `rightGroupWidth` is the width
        KDecoration2 reports for the right group once its buttons are sized. */
    method UpdateButtonsGeometry(rightGroupWidth: int)
      requires leftButtons != [] && rightButtons != [] ==> leftButtons[0] != rightButtons[|rightButtons| - 1]
      modifies this`leftSpacing, this`rightSpacing, this`leftPos, this`rightPos, this`repaints
      modifies AllButtons()`geometry, AllButtons()`offset, AllButtons()`iconSize, AllButtons()`flag
      ensures var box := StandardButtonBox(window, borders.top, settings, internal, metrics);
              var bw := box.width;
              var bh := box.height;
              var vo := box.verticalOffset;
              var hPad := internal.buttonHPadding;
              && (forall b :: b in AllButtons() && b !in EdgeButtons() ==>
                    HasBox(b, Rect(0, 0, bw, bh), Offset(0, vo), Size(bw, bw)) && b.flag == old(b.flag))
              && (window.leftEdge && leftButtons != [] ==>
                    var b := leftButtons[0];
                    b.geometry == Rect(0, 0, bw + hPad, bh) && b.flag == FlagFirstInList
                    && b.offset == Offset(hPad, vo) && b.iconSize == Size(bw, bw))
              && (window.rightEdge && rightButtons != [] ==>
                    var b := rightButtons[|rightButtons| - 1];
                    b.geometry == Rect(0, 0, bw + hPad, bh) && b.flag == FlagLastInList
                    && b.offset == Offset(0, vo) && b.iconSize == Size(bw, bw))
      ensures var vPad := GroupVerticalPadding(window.topEdge, settings, metrics);
              var hPad := internal.buttonHPadding;
              && (leftButtons != [] ==>
                    leftSpacing == internal.buttonSpacing
                    && leftPos == Offset(LeftGroupX(window.leftEdge, hPad, borders.left), vPad))
              && (leftButtons == [] ==> leftSpacing == old(leftSpacing) && leftPos == old(leftPos))
              && (rightButtons != [] ==>
                    rightSpacing == internal.buttonSpacing
                    && rightPos == Offset(RightGroupX(window.rightEdge, Width(), rightGroupWidth, hPad, borders.right), vPad))
              && (rightButtons == [] ==> rightSpacing == old(rightSpacing) && rightPos == old(rightPos))
      ensures repaints == old(repaints) + 1
    {
      var box := StandardButtonBox(window, borders.top, settings, internal, metrics);
      ResetButtons(AllButtons(), Rect(0, 0, box.width, box.height), Offset(0, box.verticalOffset),
                   Size(box.width, box.width));
      EdgeButtonsAreButtons();
      PlaceGroups(box.width, box.height, rightGroupWidth);
    }

    /** Decoration::createShadow: the cached shadow is reused when one exists
        with the configured size, strength and colour; otherwise a new one is
        built and the parameters recorded. Either way this decoration takes it. */
    method CreateShadow()
      modifies cache, this`shadow
      ensures var wanted := ShadowParams(internal.shadowSize, internal.shadowStrength, internal.shadowColor);
              && cache.params == wanted && cache.decoCount == old(cache.decoCount)
              && cache.shadow != null && shadow == cache.shadow
              && (MustRebuild(old(cache.shadow), old(cache.params), wanted) ==>
                    fresh(cache.shadow) && cache.shadow.padding == ShadowPadding(wanted.size, metrics)
                    && cache.shadow.innerShadowRect == Rect(wanted.size, wanted.size, 1, 1))
              && (!MustRebuild(old(cache.shadow), old(cache.params), wanted) ==> cache.shadow == old(cache.shadow))
    {
      var wanted := ShadowParams(internal.shadowSize, internal.shadowStrength, internal.shadowColor);
      if cache.shadow == null || cache.params != wanted {
        cache.params := wanted;
        cache.shadow := new Shadow(wanted.size, metrics);
      }
      shadow := cache.shadow;
    }

    /** Decoration::createSizeGrip: nothing if a grip exists; otherwise a grip
        is made when the platform allows one (X11 and a client window id),
        which `gripPossible` stands for. */
    method CreateSizeGrip(gripPossible: bool)
      modifies this`sizeGrip
      ensures old(sizeGrip) != null ==> sizeGrip == old(sizeGrip)
      ensures old(sizeGrip) == null && !gripPossible ==> sizeGrip == null
      ensures old(sizeGrip) == null && gripPossible ==>
        sizeGrip != null && fresh(sizeGrip) && sizeGrip.visible && sizeGrip.repaints == 0
    {
      if sizeGrip != null {
        return;
      }
      if gripPossible {
        sizeGrip := new SizeGrip();
      }
    }

    /** Decoration::deleteSizeGrip: the grip, if any, is dropped. */
    method DeleteSizeGrip()
      modifies this`sizeGrip
      ensures sizeGrip == null
    {
      if sizeGrip != null {
        sizeGrip := null;
      }
    }

    /** Decoration::reconfigure: the theme's settings are read again; the
        activation animation takes the configured duration, the borders are
        recalculated, the shadow is created or reused, the Konsole profile is
        read, and a size grip exists only for a borderless window whose
        settings ask for one. */
    method Reconfigure(newInternal: InternalSettings, konsole: KonsoleConfig, gripPossible: bool)
      modifies this`internal, animation, this`borders, this`resizeOnlyBorders, cache, this`shadow
      modifies this`konsoleProfileValid, this`sizeGrip
      ensures internal == newInternal
      ensures animation.View() ==
        if newInternal.animationsDuration >= 0 then old(animation.View()).(duration := newInternal.animationsDuration)
        else old(animation.View())
      ensures borders == Borders(window, settings, newInternal, metrics)
      ensures resizeOnlyBorders == ResizeOnlyBorders(window, settings)
      ensures var wanted := ShadowParams(newInternal.shadowSize, newInternal.shadowStrength, newInternal.shadowColor);
              && cache.params == wanted && cache.decoCount == old(cache.decoCount)
              && cache.shadow != null && shadow == cache.shadow
              && (MustRebuild(old(cache.shadow), old(cache.params), wanted) ==>
                    fresh(cache.shadow) && cache.shadow.padding == ShadowPadding(wanted.size, metrics)
                    && cache.shadow.innerShadowRect == Rect(wanted.size, wanted.size, 1, 1))
              && (!MustRebuild(old(cache.shadow), old(cache.params), wanted) ==> cache.shadow == old(cache.shadow))
      ensures konsoleProfileValid ==
        KonsoleProfileValid(konsole.profileFound, konsole.schemeFound, konsole.background, konsole.foreground)
      ensures window.hasNoBorders && newInternal.drawSizeGrip ==>
        (old(sizeGrip) != null ==> sizeGrip == old(sizeGrip))
        && (old(sizeGrip) == null ==> (sizeGrip != null <==> gripPossible))
        && (old(sizeGrip) == null && gripPossible ==> fresh(sizeGrip) && sizeGrip.visible)
      ensures !(window.hasNoBorders && newInternal.drawSizeGrip) ==> sizeGrip == null
    {
      internal := newInternal;
      animation.SetDuration(internal.animationsDuration);
      RecalculateBorders();
      CreateShadow();
      konsoleProfileValid :=
        KonsoleProfileValid(konsole.profileFound, konsole.schemeFound, konsole.background, konsole.foreground);
      if window.hasNoBorders && internal.drawSizeGrip {
        CreateSizeGrip(gripPossible);
      } else {
        DeleteSizeGrip();
      }
    }
  }
}

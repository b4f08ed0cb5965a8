# SierraBreeze window decoration — a Dafny model

This project models the decision logic of the SierraBreeze KWin window
decoration: the title-bar buttons (`breezebutton.cpp`) and the decoration
that hosts them (`breezedecoration.cpp`).

Colours are symbolic values (`Colors.Color`). A colour records which source
it comes from and how it is blended: a client colour role, the palette's
Highlight, a fixed RGB triple, a mix, an alpha scaled by an animation's
opacity, or a lightened colour. What the painter receives is a list of draw
operations (`BreezeButton.DrawOp`). The host's answers are inputs:
- the client state;
- the spacing and font height;
- the screen edges the window touches;
- the theme's own settings.

QPropertyAnimation is modelled by `Animation.PropertyAnimation`. It keeps
only what the code reads and sets: direction, running state, current time
and duration.

Modules:
- `Geometry`: QRect, QMargins, QSize, and C++ integer division.
- `Colors`: symbolic colours. `Settle` gives the colour a running animation
  leaves behind once it comes to rest.
- `Animation`: the animation object, and the rule "set the direction, start
  only if idle" (`Retargeted`).
- `Text`: QString `contains` and `split`.
- `BreezeButton`: button colours, the glyph table, painting, creation, and
  the hover animation.
- `BreezeDecoration`:
  - the border table, the borders, the title bar and the caption rectangle;
  - button placement, title-bar colours, the activation animation and the
    opacity;
  - the size grip, the Konsole predicate, and the shadow shared by all
    decorations.

## Model

| member | source | states |
|---|---|---|
| BreezeButton.ForegroundColor | breezebutton.cpp:435-468 | The glyph colour follows the first match: Invalid without a decoration; the title-bar colour when pressed, for an outlined Close, or for a checked keep button; otherwise the font-to-title-bar mix while the hover animation runs; otherwise the title-bar colour when hovered and the font colour at rest. It is valid whenever the palette is. |
| BreezeButton.PressedBackground | breezebutton.cpp:481-484 | A pressed Close takes the warning colour, and only Close does. Any other pressed button mixes the title-bar colour 30% toward the font colour. It is valid whenever the palette is. |
| BreezeButton.BackgroundColor | breezebutton.cpp:471-530 | The disc colour follows the first match: Invalid without a decoration; the pressed background; the font colour for a checked keep button; while the hover animation runs, the font colour faded by the hover opacity, except for Close, which is the font colour mixed toward the lightened warning colour when outlined and the lightened warning colour faded by the opacity otherwise; when hovered at rest, the lightened warning colour for Close and the font colour otherwise; at rest, the font colour for an outlined Close and Invalid otherwise. With a valid palette there is a disc exactly when the button is pressed, checked-keep, animating, hovered, or an outlined Close. It depends on the hover opacity exactly while animating and neither pressed nor checked-keep. |
| BreezeButton.GlyphContrastsWithDisc | breezebutton.cpp:435-530 | Where the disc is in the font colour the glyph is in the title-bar colour. Where there is no disc the glyph is in the font colour. |
| BreezeButton.HoverAnimationEndsOnStaticColours | breezebutton.cpp:453-455 | Let the hover animation come to rest: at opacity 1 after hovering, 0 after leaving. The glyph then has exactly the colour of the resting state. The disc looks the same as the resting disc, with a fully transparent disc counting as no disc. |
| BreezeButton.KindHue | breezebutton.cpp:200-402 | Exactly Close, Maximize, Minimize, OnAllDesktops and KeepAbove are drawn as a coloured disc. |
| BreezeButton.HoverHint | breezebutton.cpp:210-290 | The hover hints stay inside the 18x18 glyph box and use the hint colour. Only Close, Maximize and Minimize have one. |
| BreezeButton.Glyph | breezebutton.cpp:198-428 | Every glyph operation of every kind stays inside the 18x18 glyph box. |
| BreezeButton.IconOps | breezebutton.cpp:153-431 | drawIcon starts with the painter set-up. The background disc comes next exactly when the background colour is valid. Every later operation stays in the glyph box. Nothing but the set-up and the disc is drawn when the foreground colour is invalid. |
| BreezeButton.IconOpsEndsWithGlyph | breezebutton.cpp:178-431 | With a valid foreground, what drawIcon draws after the set-up and the background disc is exactly the kind's glyph. So the glyph lemmas hold of drawIcon's output. |
| BreezeButton.FilledKindCoversBackground | breezebutton.cpp:200-208 | A coloured kind paints a full-box disc right after the background disc: its hue when the window is active, grey (199,199,199) otherwise. |
| BreezeButton.GlyphHintOnlyWhileHovered | breezebutton.cpp:210-290 | Within a glyph, the hint colour appears exactly when a Close, Maximize or Minimize button is hovered. |
| BreezeButton.HintOnlyWhileHovered | breezebutton.cpp:180-290 | The icon contains a hint exactly when a Close, Maximize or Minimize button is hovered and its foreground colour is valid. |
| BreezeButton.ShadeChevronFollowsChecked | breezebutton.cpp:340-363 | The Shade chevron points down exactly when the button is checked. |
| BreezeButton.PlainDiscKinds | breezebutton.cpp:294-402 | OnAllDesktops and KeepAbove draw their disc and nothing else, hovered or not. |
| BreezeButton.StatelessGlyphs | breezebutton.cpp:365-411 | KeepBelow is two down-pointing chevrons and ApplicationMenu three horizontal lines at heights 5, 9 and 13, whatever the button state. |
| BreezeButton.PaintTranslation | breezebutton.cpp:128-130 | The first button of a list is translated by its whole offset, any other button by the vertical part only. |
| BreezeButton.CapabilityFlag | breezebutton.cpp:77-109 | Exactly Close, Maximize, Minimize, ContextHelp and Shade follow a client capability: closeable, maximizeable, minimizeable, providesContextHelp and shadeable in turn. The other kinds follow none and stay visible. |
| BreezeButton.Button.constructor | breezebutton.cpp:36-60 | A new button is visible, unpressed, unhovered and unchecked, a square of the decoration's button height with an icon of the same size. Its hover animation is stopped at time 0 and takes the configured duration, or Qt's default of 250 ms for a negative one. |
| BreezeButton.Button.Create | breezebutton.cpp:71-117 | A button is created only for this theme's decorations. It is shown according to the capability of its kind, and other kinds stay visible. |
| BreezeButton.Button.Paint | breezebutton.cpp:120-151 | Nothing is drawn without a decoration. Otherwise painting emits the flag's translation, then either the window icon for Menu or drawIcon with the current colours. An invalid icon size is replaced by the geometry's size. |
| BreezeButton.Button.Reconfigure | breezebutton.cpp:533-540 | With a decoration, the hover animation takes the configured duration; a negative duration is ignored, as QVariantAnimation::setDuration does. Without one nothing changes. |
| BreezeButton.Button.UpdateAnimationState | breezebutton.cpp:543-552 | Without a decoration or with animations disabled nothing changes. Otherwise the animation runs toward the new hover state and is started only if idle. |
| Colors.Settle | breezebutton.cpp:453-455 | A colour at rest no longer depends on that animation's opacity, stays valid, and still ignores any animation it ignored. |
| Colors.SettleFixesStatic | breezedecoration.cpp:107-150 | A colour that does not depend on an animation is unchanged when that animation comes to rest. |
| Colors.SettleIdempotent | breezebutton.cpp:453-455 | Letting an animation come to rest twice is the same as once. |
| Colors.MixEndpoints | breezebutton.cpp:453-455 | A mix at opacity 0 is its first colour and at opacity 1 its second. |
| Animation.Retargeted | breezebutton.cpp:549-550 | Setting the direction and starting only if idle leaves the animation running in the requested direction with its duration kept. A running animation keeps its time; a stopped one starts from its start end. |
| Animation.RetargetIdempotent | breezedecoration.cpp:229-230 | Asking twice for the same direction is the same as asking once. |
| Animation.ReverseFromRestIsContinuous | breezebutton.cpp:549-550 | Restarting a stopped animation the other way starts from where it rests. |
| Animation.PropertyAnimation.constructor | breezebutton.cpp:39 | A new QPropertyAnimation runs forward, is stopped at time 0 and has Qt's default duration of 250 ms. |
| Animation.PropertyAnimation.SetDirection | breezebutton.cpp:549 | The direction changes. A stopped animation that changes direction moves its time to the start of a run in the new direction. A running one keeps its time. |
| Animation.PropertyAnimation.Start | breezebutton.cpp:550 | Starting a running animation changes nothing. Starting a stopped one runs it from the start end of its direction. |
| Animation.PropertyAnimation.SetDuration | breezebutton.cpp:538 | A non-negative duration is taken, and a negative one is ignored. |
| Text.Split | breezedecoration.cpp:310 | Splitting yields at least one part, and no part contains the separator. |
| Text.SplitCount | breezedecoration.cpp:310-314 | A string splits at a character into one more part than it has occurrences of that character. |
| Text.JoinSplit | breezedecoration.cpp:310 | Joining the parts with the separator gives back the string. |
| BreezeDecoration.BorderWidth | breezedecoration.cpp:248-283 | None gives 0. NoSides gives 0 at the sides and max(4, base) at the bottom. Tiny and unknown settings give base at the sides and max(4, base) at the bottom. Normal to Oversized give base times 2, 3, 4, 5, 6 or 10 on every side. |
| BreezeDecoration.BorderWidthMonotone | breezedecoration.cpp:248-283 | With a base of at least 2, a thicker setting never gives a thinner border, and every setting but None leaves a bottom border of at least 4. |
| BreezeDecoration.BottomMinimumExceedsNormal | breezedecoration.cpp:255-266 | With a base of 1, Tiny gives a bottom border of 4 and Normal one of 2. |
| BreezeDecoration.BorderSize | breezedecoration.cpp:248-283 | The border is the table entry of the effective setting, with the small spacing as its base. It is never negative. A bottom border under NoSides, Tiny or an unknown setting is at least 4. |
| BreezeDecoration.BottomBorderNeverThinner | breezedecoration.cpp:248-283 | Whatever the setting and spacing, the bottom border is at least as thick as the side borders. |
| BreezeDecoration.ButtonHeight | breezedecoration.cpp:637-643 | The button height is the grid unit plus the configured button size, so it is at least the grid unit when the button size is not negative. |
| BreezeDecoration.CaptionHeight | breezedecoration.cpp:646-647 | With the title bar hidden the caption is the whole top border. Otherwise the caption plus both title-bar margins and one pixel makes up the top border, so the caption is strictly shorter than it. |
| BreezeDecoration.EffectiveBorder | breezedecoration.cpp:251 | The theme's own border setting is used only when its settings exist and their mask has the BorderSize bit. |
| BreezeDecoration.Borders | breezedecoration.cpp:371-400 | A screen edge zeroes that border, and shading or the bottom edge zeroes the bottom. A hidden title bar makes the top equal the bottom. Otherwise the top is the taller of font and button plus both title-bar margins plus one pixel. |
| BreezeDecoration.ResizeOnlyBorders | breezedecoration.cpp:402-415 | Resize-only margins are (ext, 0, ext, ext) without borders, (ext, 0, ext, 0) without side borders, and zero otherwise. |
| BreezeDecoration.CaptionHeightOfBorders | breezedecoration.cpp:646-647 | The caption height recovers the taller of font and button from the top border, or the bottom border when the title bar is hidden. |
| BreezeDecoration.TitleBarRect | breezedecoration.cpp:210-220 | The title bar is centred in the client width and ends at the top border. A maximized window gets the whole strip; otherwise it is inset by the side and top margins. |
| BreezeDecoration.ButtonsCentredInCaption | breezedecoration.cpp:435-437 | With the title bar shown, each glyph lies within its button box and is centred in the caption height to within one pixel. |
| BreezeDecoration.FirstLeftButtonKeepsPadding | breezedecoration.cpp:459-470 | The first left glyph always starts at the padding plus the left border, whether or not the window touches the left edge. On the edge the group starts at 0 and the padding moves into the button. |
| BreezeDecoration.RightGroupReachesEdge | breezedecoration.cpp:486-495 | On the right edge the right group ends at the decoration's edge; otherwise it ends the padding plus the right border before it. |
| BreezeDecoration.CenteredTextLeft | breezedecoration.cpp:678 | Centring with C++ division puts the text's left end within half a pixel of the true centre. |
| BreezeDecoration.CaptionRect | breezedecoration.cpp:650-701 | A hidden title bar gives a null rectangle. Left, Right and Center use the space between the groups. Full-width centring (the default) checks left overflow first and falls back to left alignment, then checks right overflow and falls back to right alignment. Otherwise the text is centred over the full width. |
| BreezeDecoration.CenteredCaptionClearsButtons | breezedecoration.cpp:683-694 | A caption that stays centred over the full width starts no further left than the left offset. Its last column is at most one column past the right limit, because the right test is a strict `>` on QRect::right(). A left collision wins over a right one. |
| BreezeDecoration.TitleBarColor | breezedecoration.cpp:107-120 | A hidden title bar is always inactive-coloured. Otherwise the colour cross-fades while the activation animation runs and follows the window's activity at rest. |
| BreezeDecoration.FontColor | breezedecoration.cpp:138-150 | The caption colour cross-fades while the activation animation runs and follows the window's activity at rest. |
| BreezeDecoration.OutlineColor | breezedecoration.cpp:123-135 | There is no separator when it is disabled, or for an inactive window with no animation running. Otherwise it is the highlight, faded by the animation while it runs. |
| BreezeDecoration.ActivationAnimationEndsOnStaticColours | breezedecoration.cpp:107-150 | When the activation animation comes to rest, the title bar, caption and separator colours are those of the window at rest. |
| BreezeDecoration.IsKonsoleWindow | breezedecoration.cpp:337-345 | A Konsole window is one whose caption contains " — Konsole" and ":" and whose profile colours were read successfully. |
| BreezeDecoration.KonsoleWindowNeedsColon | breezedecoration.cpp:337-345 | A caption is a Konsole window exactly when the profile is valid, the caption holds the character ':', and it contains the Konsole mark. So a caption without a colon never is, whatever the profile. |
| BreezeDecoration.KonsoleWindowSurvivesExtension | breezedecoration.cpp:337-345 | A Konsole caption stays a Konsole window whatever text is put before or after it. |
| Text.ContainsChar | breezedecoration.cpp:339 | Containing the one-character text is containing that character. |
| Text.ContainsExtended | breezedecoration.cpp:338-339 | Text contained in a string is still contained after more text is put before or after the string. |
| BreezeDecoration.KonsoleProfileValid | breezedecoration.cpp:286-334 | The profile colours are valid exactly when the profile and scheme exist and both colour entries hold exactly two commas. |
| BreezeDecoration.ShadowPadding | breezedecoration.cpp:770-775 | The shadow padding is equal on the left, right and bottom. The top is smaller by the shadow offset, which is at least twice the overlap. |
| BreezeDecoration.Shadow.constructor | breezedecoration.cpp:769-777 | A new shadow carries the padding and a 1x1 inner rectangle at (size, size). |
| BreezeDecoration.ShadowCache.constructor | breezedecoration.cpp:69-73 | At start there is no decoration and no shadow, and the parameters are 0, 0 and black. |
| BreezeDecoration.Decoration.constructor | breezedecoration.cpp:76-81 | Creating a decoration adds one to the live count and leaves the cached shadow alone. The activation animation is Qt's default one, the opacity 0, and there are no buttons, size grip or shadow yet. |
| BreezeDecoration.Decoration.Destroy | breezedecoration.cpp:84-94 | Destroying a decoration removes one from the live count. The last one drops the cached shadow, and the size grip goes. |
| BreezeDecoration.Decoration.IsKonsole | breezedecoration.cpp:518-522 | The test paint applies to the window's caption, isKonsoleWindow(caption), holds exactly when the profile is valid and the caption has a colon and Konsole's mark. |
| BreezeDecoration.Decoration.ButtonContext | breezedecoration.cpp:107-150 | A button reads the decoration's title-bar colour, font colour and outline-Close option, the window's activity, and the animation settings. These colours are valid and never depend on a button's hover animation. |
| BreezeDecoration.Decoration.SetOpacity | breezedecoration.cpp:97-104 | The opacity takes the new value. Only a change repaints the decoration and its size grip. |
| BreezeDecoration.Decoration.UpdateAnimationState | breezedecoration.cpp:223-237 | With animations enabled the animation runs toward the window's activity and is started only if idle. Otherwise the animation is untouched and a repaint is requested. |
| BreezeDecoration.Decoration.UpdateSizeGripVisibility | breezedecoration.cpp:240-245 | A size grip is visible exactly for a resizable window that is neither maximized nor shaded. |
| BreezeDecoration.Decoration.RecalculateBorders | breezedecoration.cpp:371-416 | The borders and resize-only borders become those of the border rules. |
| BreezeDecoration.Decoration.UpdateTitleBar | breezedecoration.cpp:210-220 | The title-bar rectangle becomes that of the title-bar rule. |
| BreezeDecoration.Decoration.MakeEdgeButton | breezedecoration.cpp:462-466 | An edge button takes the wider box, its place in the list, and a new horizontal glyph offset; its vertical offset is kept. |
| BreezeDecoration.Decoration.ResetButtons | breezedecoration.cpp:435-444 | Every button gets the standard box, glyph offset and icon size. |
| BreezeDecoration.Decoration.PlaceLeftGroup | breezedecoration.cpp:446-472 | The left group gets its spacing and position. On a left edge the first button widens by the padding, is flagged first and moves its glyph by the padding. |
| BreezeDecoration.Decoration.PlaceRightGroup | breezedecoration.cpp:474-497 | The right group gets its spacing and position. On a right edge the last button widens by the padding and is flagged last. |
| BreezeDecoration.Decoration.UpdateButtonsGeometry | breezedecoration.cpp:431-501 | Every button not at a screen edge has the standard box, offset and icon size, and keeps its flag. The edge buttons are widened to the edge. Each non-empty group is spaced and placed, with a vertical padding of 0 on the top edge. A repaint is requested. |
| BreezeDecoration.Decoration.PlaceGroups | breezedecoration.cpp:446-499 | Both groups are placed as PlaceLeftGroup and PlaceRightGroup state, and then a repaint is requested. Only the edge buttons' box, flag and offset can change. |
| BreezeDecoration.Decoration.CreateShadow | breezedecoration.cpp:704-786 | The shadow is rebuilt exactly when none is cached or the size, strength or colour differ. Otherwise the cached one is reused. Afterwards the cached parameters equal the settings and the decoration uses the cached shadow. |
| BreezeDecoration.SizeGrip.constructor | breezedecoration.cpp:804 | A new size grip is shown and has not been repainted. |
| BreezeDecoration.Decoration.CreateSizeGrip | breezedecoration.cpp:789-810 | An existing grip is kept. Otherwise a new grip is made exactly when the platform allows one. |
| BreezeDecoration.Decoration.DeleteSizeGrip | breezedecoration.cpp:814-821 | Afterwards there is no size grip. |
| BreezeDecoration.Decoration.Reconfigure | breezedecoration.cpp:348-368 | The new settings are taken. The activation animation takes the configured duration, and a negative one is ignored. The borders and resize-only borders follow the border rules. The cached shadow is rebuilt or reused as CreateShadow states, with its padding and inner rectangle on a rebuild, and the decoration uses it. The Konsole profile validity is recomputed. A borderless window whose settings ask for a grip keeps its grip or gets one when the platform allows; any other window loses its grip. |

## Left out

- Painting: QPainter pens, clipping, rounded rectangles, gradients and pixmaps. The window icon pixmap is one `DrawWindowIcon` operation. Decoration::paint and paintTitleBar are not modelled, only the colour and rectangle rules they use. So when paint uses the Konsole colours is not modelled: the frame colour only on a window that is not shaded (breezedecoration.cpp:511), the title-bar and text colours only when the title bar is shown (line 533), and the title-bar colour only without the active-window gradient (line 562). Decoration.IsKonsole states only the caption test itself.
- Colour arithmetic is floating point and stays symbolic. This covers KColorUtils::mix, QColor::lighter, alpha times opacity, and the pen width computed from the button size. The glyph coordinates are the literal values of the source.
- Animation timing: the easing curve and tick-by-tick progress belong to Qt. The model keeps the running state, direction, duration, and the current time at start.
- The shadow image: the Gaussian radial gradient and the contrast ring are floating point. Only the reuse-or-rebuild decision, the padding, the inner rectangle and the reference count are modelled.
- readKonsoleProfileColor: the KConfig reads and file-existence checks are I/O. KonsoleProfileValid models its validity rule over the strings already read. The RGB values and the alpha parsed from them are not modelled.
- Signal and slot wiring (init, Button::create), QTimer::singleShot and createButtons are host plumbing. Decoration::init is not modelled, so a new decoration keeps Qt's default animation duration until Reconfigure runs.
- SettingsProvider is not modelled: the settings that Reconfigure takes are its parameter.
- Creating a size grip needs the X11 platform and a client window id; the parameter `gripPossible` stands for both. breezesizegrip.cpp is not part of this model, so a new grip is taken to be shown with no repaint yet. Only its visibility and repaints are tracked.
- breeze.h is not part of this model: the Metrics values are the parameter `BreezeDecoration.Metrics`.
- breezedecoration.h is not part of this model: the predicates it defines (isMaximized, isLeftEdge and the other edges, hideTitleBar, hasNoBorders, hasNoSideBorders) are fields of `BreezeDecoration.Window`.
- Layout by KDecoration2: the right group's width after its buttons are sized is a parameter of UpdateButtonsGeometry. The button positions that the group layout assigns are not modelled.
- Font metrics are inputs: the caption's bounding-box width and the font height.
- BreezeDecoration.Decoration.UpdateButtonsGeometry: requires that the first left button is not also the last right button. KDecoration2 puts each button in one group only.
- BreezeDecoration.BorderWidthMonotone: holds only for a base of at least 2. With a base of 1, Tiny's bottom border (4) is thicker than Normal's (2), as BottomMinimumExceedsNormal shows.
- The order of the title alignment checks: for centring over the full width, the code tests left overflow before right overflow. A caption too wide for both sides is therefore left-aligned, and CaptionRect follows the code.

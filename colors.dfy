/** Colours as symbolic values. The theme never computes a colour channel
    itself except through Qt and KColorUtils; the model records which source
    a colour comes from and how it is blended, and leaves the floating-point
    arithmetic of mixing, lightening and alpha scaling to those libraries. */
module Colors {

  /** The KDecoration2 colour groups the client answers for. */
  datatype Group = Active | Inactive | Warning

  /** The KDecoration2 colour roles the theme asks for. */
  datatype Role = TitleBar | Foreground

  /** The two animations whose current opacity enters a colour: a button's hover
      animation and the decoration's window-activation animation. */
  datatype Animator = ButtonHover | WindowActivation

  /** The blend factor of a mix: an animator's current opacity, or the constant 0.3. */
  datatype Ratio = OpacityOf(animator: Animator) | Fixed30

  type Channel = c: int | 0 <= c < 256

  datatype Color =
    | Invalid                                   // QColor(): paint nothing for this layer
    | ClientRole(group: Group, role: Role)      // client->color(group, role)
    | Highlight                                 // the client palette's Highlight colour
    | Rgb(red: Channel, green: Channel, blue: Channel)
    | Mix(from: Color, to: Color, ratio: Ratio) // KColorUtils::mix(from, to, ratio)
    | AlphaScaled(base: Color, scaledBy: Animator)    // base with its alpha times the animator's opacity
    | Lighter(base: Color)                      // QColor::lighter()
    | Transparent(base: Color)                  // base with alpha 0: AlphaScaled at opacity 0
  {
    /** QColor::isValid(): only QColor() is invalid, and a colour derived from
        valid colours is valid. */
    predicate IsValid()
    {
      match this
      case Invalid => false
      case Mix(a, b, _) => a.IsValid() && b.IsValid()
      case AlphaScaled(c, _) => c.IsValid()
      case Lighter(c) => c.IsValid()
      case Transparent(c) => c.IsValid()
      case _ => true
    }

    /** True if painting with this colour leaves a mark. */
    predicate Paints()
    {
      IsValid() && !Transparent?
    }
  }

  /** True if the colour depends on the current opacity of animator `a`. */
  predicate UsesOpacity(c: Color, a: Animator)
  {
    match c
    case Mix(x, y, r) => r == OpacityOf(a) || UsesOpacity(x, a) || UsesOpacity(y, a)
    case AlphaScaled(x, s) => s == a || UsesOpacity(x, a)
    case Lighter(x) => UsesOpacity(x, a)
    case Transparent(x) => UsesOpacity(x, a)
    case _ => false
  }

  /** Where an animation comes to rest: opacity 0 (run backward) or 1 (run forward). */
  datatype Endpoint = AtZero | AtOne

  /** The colour `c` denotes once animator `a` has come to rest at `e`:
      KColorUtils::mix(x, y, 0) is x and mix(x, y, 1) is y, and an alpha scaled
      by 1 is unchanged while one scaled by 0 is fully transparent. */
  function Settle(c: Color, a: Animator, e: Endpoint): (r: Color)
    ensures !UsesOpacity(r, a)
    ensures c.IsValid() ==> r.IsValid()
    ensures forall b :: b != a && !UsesOpacity(c, b) ==> !UsesOpacity(r, b)
  {
    match c
    case Mix(x, y, ratio) =>
      if ratio == OpacityOf(a) then (if e == AtZero then Settle(x, a, e) else Settle(y, a, e))
      else Mix(Settle(x, a, e), Settle(y, a, e), ratio)
    case AlphaScaled(x, s) =>
      if s != a then AlphaScaled(Settle(x, a, e), s)
      else if e == AtZero then Transparent(Settle(x, a, e))
      else Settle(x, a, e)
    case Lighter(x) => Lighter(Settle(x, a, e))
    case Transparent(x) => Transparent(Settle(x, a, e))
    case _ => c
  }

  /** Two colours look the same when painted: equal, or neither leaves a mark. */
  predicate SameAppearance(c: Color, d: Color)
  {
    c == d || (!c.Paints() && !d.Paints())
  }

  /** A colour that does not depend on an animator is what it settles to. */
  lemma {:induction false} SettleFixesStatic(c: Color, a: Animator, e: Endpoint)
    requires !UsesOpacity(c, a)
    ensures Settle(c, a, e) == c
  {
    match c
    case Mix(x, y, _) => SettleFixesStatic(x, a, e); SettleFixesStatic(y, a, e);
    case AlphaScaled(x, _) => SettleFixesStatic(x, a, e);
    case Lighter(x) => SettleFixesStatic(x, a, e);
    case Transparent(x) => SettleFixesStatic(x, a, e);
    case _ =>
  }

  /** Settling is idempotent: a settled colour stays where it is. */
  lemma SettleIdempotent(c: Color, a: Animator, e: Endpoint, e': Endpoint)
    ensures Settle(Settle(c, a, e), a, e') == Settle(c, a, e)
  {
    SettleFixesStatic(Settle(c, a, e), a, e');
  }

  /** The blend of a mix driven by an animator: its two end points are its two arguments. */
  lemma MixEndpoints(x: Color, y: Color, a: Animator)
    requires !UsesOpacity(x, a) && !UsesOpacity(y, a)
    ensures Settle(Mix(x, y, OpacityOf(a)), a, AtZero) == x
    ensures Settle(Mix(x, y, OpacityOf(a)), a, AtOne) == y
  {
    SettleFixesStatic(x, a, AtZero);
    SettleFixesStatic(y, a, AtOne);
  }
}

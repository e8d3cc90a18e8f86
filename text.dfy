/**
 * The per-glyph extra data carried by each queued text run, and the three
 * `TextExt` builder setters that fill it in.
 *
 * Colours and depths are `real`: f32 equality (where NaN differs from
 * itself) is not modelled.
 */
module TextExtra {
  import opened Instances

  /** The layout engine's own per-text extra: a fill colour and a depth. */
  datatype BrushExtra = BrushExtra(color: Color, z: real)

  /** This crate's `Extra`: the layout engine's extra plus an outline colour. */
  datatype Extra = Extra(extra: BrushExtra, outlineColor: Color)

  /** A horizontal and vertical pixel scale. */
  datatype Scale = Scale(x: real, y: real)

  /** One run of text of a section: the string, its scale, its font and its extra. */
  datatype Text = Text(text: string, scale: Scale, fontId: nat, extra: Extra)

  const OpaqueBlack: Color := Color(0.0, 0.0, 0.0, 1.0)

  /** The layout engine's default extra: opaque black at depth 0. */
  const BrushDefault: BrushExtra := BrushExtra(OpaqueBlack, 0.0)

  /** `Extra::default`: the layout engine's default, outlined in opaque black. */
  function DefaultExtra(): (e: Extra)
    ensures e.extra == BrushDefault && e.outlineColor == OpaqueBlack
  {
    Extra(BrushDefault, OpaqueBlack)
  }

  /**
   * `Extra::eq`: two extras are equal when both the inner extra and the
   * outline colour are. This is exactly structural equality.
   */
  function ExtraEq(a: Extra, b: Extra): (r: bool)
    ensures r <==> a == b
  {
    a.extra == b.extra && a.outlineColor == b.outlineColor
  }

  /** The hand-written equality is an equivalence. */
  lemma ExtraEqIsEquivalence(a: Extra, b: Extra, c: Extra)
    ensures ExtraEq(a, a)
    ensures ExtraEq(a, b) ==> ExtraEq(b, a)
    ensures ExtraEq(a, b) && ExtraEq(b, c) ==> ExtraEq(a, c)
  {
  }

  /** `with_color`: the fill colour becomes `color`; nothing else changes. */
  function WithColor(t: Text, color: Color): (r: Text)
    ensures r.extra.extra.color == color
    ensures r.extra.extra.z == t.extra.extra.z && r.extra.outlineColor == t.extra.outlineColor
    ensures r.text == t.text && r.scale == t.scale && r.fontId == t.fontId
  {
    t.(extra := t.extra.(extra := t.extra.extra.(color := color)))
  }

  /** `with_outline_color`: the outline colour becomes `color`; nothing else changes. */
  function WithOutlineColor(t: Text, color: Color): (r: Text)
    ensures r.extra.outlineColor == color && r.extra.extra == t.extra.extra
    ensures r.text == t.text && r.scale == t.scale && r.fontId == t.fontId
  {
    t.(extra := t.extra.(outlineColor := color))
  }

  /** `with_z`: the depth becomes `z`; nothing else changes. */
  function WithZ(t: Text, z: real): (r: Text)
    ensures r.extra.extra.z == z
    ensures r.extra.extra.color == t.extra.extra.color && r.extra.outlineColor == t.extra.outlineColor
    ensures r.text == t.text && r.scale == t.scale && r.fontId == t.fontId
  {
    t.(extra := t.extra.(extra := t.extra.extra.(z := z)))
  }

  /** The three setters touch disjoint fields, so they can be chained in any order. */
  lemma SettersCommute(t: Text, color: Color, outline: Color, z: real)
    ensures WithColor(WithOutlineColor(t, outline), color) == WithOutlineColor(WithColor(t, color), outline)
    ensures WithColor(WithZ(t, z), color) == WithZ(WithColor(t, color), z)
    ensures WithOutlineColor(WithZ(t, z), outline) == WithZ(WithOutlineColor(t, outline), z)
  {
  }

  /** Setting a field twice keeps only the last value. */
  lemma LastSetterWins(t: Text, c1: Color, c2: Color, z1: real, z2: real)
    ensures WithColor(WithColor(t, c1), c2) == WithColor(t, c2)
    ensures WithOutlineColor(WithOutlineColor(t, c1), c2) == WithOutlineColor(t, c2)
    ensures WithZ(WithZ(t, z1), z2) == WithZ(t, z2)
  {
  }

  /** Setting all three fields determines the whole extra, whatever it was before. */
  lemma SettersDetermineExtra(t: Text, color: Color, outline: Color, z: real)
    ensures WithZ(WithOutlineColor(WithColor(t, color), outline), z).extra
         == Extra(BrushExtra(color, z), outline)
  {
  }
}

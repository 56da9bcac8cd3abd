/**
 * Colour samples of a texture and the two per-pixel channel remappings the
 * texture loader applies: the normal-map re-encoding and the conversion of a
 * glTF 2.0 metallic-roughness map into a metallic/gloss map.
 * Channels are exact reals, so `0.5` and `1 - g` carry no rounding.
 */
module Pixels {

  /** An RGBA colour sample. A decoded image delivers channels in [0, 1]. */
  datatype Color = Color(r: real, g: real, b: real, a: real)

  predicate InUnit(x: real) {
    0.0 <= x <= 1.0
  }

  /** Every channel of `c` lies in [0, 1]. */
  predicate IsNormalized(c: Color) {
    InUnit(c.r) && InUnit(c.g) && InUnit(c.b) && InUnit(c.a)
  }

  /** The mid value the normal-map conversion writes into red and green. */
  const Neutral: real := 0.5

  /**
   * One step of the normal-map loop: alpha takes the source's red value,
   * red and green are reset to the neutral value, blue passes through.
   */
  function NormalEncode(c: Color): (p: Color)
    ensures p.r == Neutral && p.g == Neutral
    ensures IsNormalized(c) ==> IsNormalized(p)
  {
    Color(Neutral, Neutral, c.b, c.r)
  }

  /** The encoded pixel is determined by the source's red and blue channels and by nothing else. */
  lemma NormalEncodeDeterminedBy(c: Color, d: Color)
    ensures NormalEncode(c) == NormalEncode(d) <==> c.r == d.r && c.b == d.b
  {
  }

  /** glTF 2.0 metallic-roughness storage: metalness in blue, roughness in green. */
  function Metalness(c: Color): real { c.b }
  function Roughness(c: Color): real { c.g }

  /** The engine's metallic/gloss storage: metallic in red, smoothness (gloss) in alpha. */
  function Metallic(p: Color): real { p.r }
  function Smoothness(p: Color): real { p.a }

  /**
   * The conversion of one metallic-roughness sample: metalness moves to the
   * metallic channel, roughness is inverted into smoothness, green and blue
   * are cleared.
   */
  function MetallicGloss(c: Color): (p: Color)
    ensures Metallic(p) == Metalness(c)
    ensures Smoothness(p) == 1.0 - Roughness(c)
    ensures p.g == 0.0 && p.b == 0.0
    ensures IsNormalized(c) ==> IsNormalized(p)
  {
    Color(c.b, 0.0, 0.0, 1.0 - c.g)
  }

  /**
   * The conversion keeps exactly the metalness and the roughness: two samples
   * convert alike if and only if they agree on both, so both can be read back.
   */
  lemma MetallicGlossDeterminedBy(c: Color, d: Color)
    ensures MetallicGloss(c) == MetallicGloss(d) <==> Metalness(c) == Metalness(d) && Roughness(c) == Roughness(d)
  {
    if MetallicGloss(c) == MetallicGloss(d) {
      assert Smoothness(MetallicGloss(c)) == Smoothness(MetallicGloss(d));
    }
  }

  /** Boundary values of both remappings: black and white inputs. */
  lemma RemapBoundaryValues()
    ensures NormalEncode(Color(0.0, 0.0, 0.0, 0.0)) == Color(0.5, 0.5, 0.0, 0.0)
    ensures NormalEncode(Color(1.0, 1.0, 1.0, 1.0)) == Color(0.5, 0.5, 1.0, 1.0)
    ensures MetallicGloss(Color(0.0, 0.0, 1.0, 1.0)) == Color(1.0, 0.0, 0.0, 1.0)
    ensures MetallicGloss(Color(1.0, 1.0, 0.0, 1.0)) == Color(0.0, 0.0, 0.0, 0.0)
  {
  }
}

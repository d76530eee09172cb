/**
 * The collaborators the label code calls but whose code is not part of this
 * model, gathered into one value that is passed explicitly: the font
 * metrics behind `stringWidth`, `textwrap.wrap`, `zlib.compress`, and the
 * bar width a QR widget takes when none is given.
 */
module Backend {

  datatype Env = Env(
    /** advance width of a glyph of the named font, in 1/1000 of the font size */
    advance: (string, char) -> nat,
    /** `textwrap.wrap(text, width)` for a positive width */
    wrap: (string, nat) -> seq<string>,
    /** `zlib.compress(data, 9)` */
    deflate: string -> string,
    /** the `barWidth` of a QR widget built without one */
    qrBarWidth: real)

  /** Sum of the glyph advances of a text in one font. */
  function Advance(env: Env, font: string, text: string): nat {
    if text == [] then 0
    else env.advance(font, text[0]) + Advance(env, font, text[1..])
  }

  /**
   * `stringWidth(text, font, size)`: the sum of the glyph advances scaled by
   * the font size, as the PDF font metrics define it.
   */
  function StringWidth(env: Env, text: string, font: string, size: real): real {
    size * (Advance(env, font, text) as real) / 1000.0
  }

  /** The measured width scales linearly with the font size and is never negative for a non-negative size. */
  lemma StringWidthScales(env: Env, text: string, font: string, size: real, k: real)
    ensures StringWidth(env, text, font, k * size) == k * StringWidth(env, text, font, size)
    ensures size >= 0.0 ==> StringWidth(env, text, font, size) >= 0.0
  {
    var a := Advance(env, font, text) as real;
    assert (k * size) * a / 1000.0 == k * (size * a / 1000.0);
    if size >= 0.0 {
      assert size * a >= 0.0;
    }
  }
}

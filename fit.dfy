/**
 * The two fit loops of the label renderer: `wrap_text`, which lowers the
 * character budget handed to `textwrap.wrap` until every wrapped piece fits
 * the available width, and `scale_font_size`, which multiplies the font size
 * by 0.8 until the text fits.
 */
module Fit {
  import opened Values
  import opened Backend

  /** `max(stringWidth(t, font, size) for t in pieces)`. */
  function Widest(env: Env, pieces: seq<string>, font: string, size: real): (w: real)
    requires |pieces| >= 1
    ensures forall i :: 0 <= i < |pieces| ==> StringWidth(env, pieces[i], font, size) <= w
    ensures exists i :: 0 <= i < |pieces| && StringWidth(env, pieces[i], font, size) == w
  {
    if |pieces| == 1 then StringWidth(env, pieces[0], font, size)
    else
      var first := StringWidth(env, pieces[0], font, size);
      var rest := Widest(env, pieces[1..], font, size);
      assert forall i :: 1 <= i < |pieces| ==> pieces[i] == pieces[1..][i - 1];
      if first >= rest then first else rest
  }

  /** Every piece measures at most maxWidth. */
  predicate AllFit(env: Env, pieces: seq<string>, maxWidth: real, font: string, size: real) {
    forall i :: 0 <= i < |pieces| ==> StringWidth(env, pieces[i], font, size) <= maxWidth
  }

  lemma WidestFits(env: Env, pieces: seq<string>, maxWidth: real, font: string, size: real)
    requires |pieces| >= 1
    ensures Widest(env, pieces, font, size) <= maxWidth <==> AllFit(env, pieces, maxWidth, font, size)
  {
  }

  /**
   * The budgets `wrap_text` tries after the text as a whole did not fit:
   * nchar, nchar - 1, ... A budget of 0 or less makes `textwrap.wrap` raise
   * ValueError, and a wrap into no pieces makes `max` raise ValueError.
   */
  function WrapSearch(env: Env, text: string, maxWidth: real, font: string, size: real, nchar: int): (r: Result<seq<string>>)
    ensures r.Ok? ==> r.value != []
    ensures r.Err? ==> r.error == ValueError
    decreases nchar
  {
    if nchar <= 0 then Err(ValueError)
    else
      var pieces := env.wrap(text, nchar);
      if pieces == [] then Err(ValueError)
      else if Widest(env, pieces, font, size) <= maxWidth then Ok(pieces)
      else WrapSearch(env, text, maxWidth, font, size, nchar - 1)
  }

  /** What `wrap_text(text, max_width, font, size)` returns or raises. */
  function WrapTextResult(env: Env, text: string, maxWidth: real, font: string, size: real): (r: Result<seq<string>>)
    ensures StringWidth(env, text, font, size) <= maxWidth ==> r == Ok([text])
    ensures r.Ok? ==> |r.value| >= 1
    ensures r.Err? ==> r.error == ValueError
  {
    if StringWidth(env, text, font, size) <= maxWidth then Ok([text])
    else WrapSearch(env, text, maxWidth, font, size, |text| - 1)
  }

  /**
   * A successful search returns the wrap at the largest budget k <= nchar at
   * which every piece fits; every larger budget produced pieces that did not
   * all fit.
   */
  lemma {:induction false} WrapSearchBudget(env: Env, text: string, maxWidth: real, font: string, size: real, nchar: int)
    returns (k: nat)
    requires WrapSearch(env, text, maxWidth, font, size, nchar).Ok?
    ensures 1 <= k <= nchar
    ensures WrapSearch(env, text, maxWidth, font, size, nchar).value == env.wrap(text, k)
    ensures env.wrap(text, k) != [] && AllFit(env, env.wrap(text, k), maxWidth, font, size)
    ensures forall j: nat :: k < j <= nchar ==> !AllFit(env, env.wrap(text, j), maxWidth, font, size)
    decreases nchar
  {
    var pieces := env.wrap(text, nchar);
    WidestFits(env, pieces, maxWidth, font, size);
    if Widest(env, pieces, font, size) <= maxWidth {
      k := nchar;
    } else {
      k := WrapSearchBudget(env, text, maxWidth, font, size, nchar - 1);
    }
  }

  /**
   * `wrap_text`: the text itself when it fits; otherwise pieces that all fit,
   * wrapped at the largest budget below the text's length that makes them fit.
   */
  lemma WrapTextFits(env: Env, text: string, maxWidth: real, font: string, size: real)
    requires WrapTextResult(env, text, maxWidth, font, size).Ok?
    ensures var pieces := WrapTextResult(env, text, maxWidth, font, size).value;
      |pieces| >= 1 && AllFit(env, pieces, maxWidth, font, size)
    ensures StringWidth(env, text, font, size) <= maxWidth ==> WrapTextResult(env, text, maxWidth, font, size) == Ok([text])
  {
    if StringWidth(env, text, font, size) > maxWidth {
      var k := WrapSearchBudget(env, text, maxWidth, font, size, |text| - 1);
    }
  }

  /** `wrap_text`, the loop as the source runs it. */
  method WrapText(env: Env, text: string, maxWidth: real, font: string, size: real) returns (r: Result<seq<string>>)
    ensures r == WrapTextResult(env, text, maxWidth, font, size)
  {
    var textWidth := StringWidth(env, text, font, size);
    var nchar: int := |text|;
    var pieces := [text];
    while textWidth > maxWidth
      invariant nchar >= 0
      invariant |pieces| >= 1 && textWidth == Widest(env, pieces, font, size)
      invariant textWidth > maxWidth ==>
        WrapTextResult(env, text, maxWidth, font, size) == WrapSearch(env, text, maxWidth, font, size, nchar - 1)
      invariant textWidth <= maxWidth ==> WrapTextResult(env, text, maxWidth, font, size) == Ok(pieces)
      decreases nchar
    {
      nchar := nchar - 1;
      if nchar <= 0 {
        return Err(ValueError);
      }
      pieces := env.wrap(text, nchar);
      if pieces == [] {
        return Err(ValueError);
      }
      textWidth := Widest(env, pieces, font, size);
      assert WrapSearch(env, text, maxWidth, font, size, nchar)
          == if textWidth <= maxWidth then Ok(pieces) else WrapSearch(env, text, maxWidth, font, size, nchar - 1);
    }
    r := Ok(pieces);
  }

  /** The scaling factor `scale_font_size` applies per step. */
  const Scaling: real := 0.8

  predicate FitsAt(env: Env, text: string, maxWidth: real, font: string, size: real) {
    StringWidth(env, text, font, size) <= maxWidth
  }

  /**
   * The scale loop ends exactly when the area has positive width or the text
   * already fits; with a width of 0 or less the source loops for ever.
   */
  predicate ScaleTerminates(env: Env, text: string, maxWidth: real, font: string, size: real) {
    maxWidth > 0.0 || FitsAt(env, text, maxWidth, font, size)
  }

  /** Each step removes a fifth of the width, more than maxWidth / 5: at most 5·width/maxWidth steps remain. */
  function ScaleMeasure(env: Env, text: string, maxWidth: real, font: string, size: real): nat {
    var w := StringWidth(env, text, font, size);
    if w <= maxWidth || maxWidth <= 0.0 then 0
    else
      var q := 5.0 * w / maxWidth;
      assert q >= 5.0 by {
        assert w / maxWidth >= 1.0;
      }
      q.Floor
  }

  lemma ScaleMeasureDecreases(env: Env, text: string, maxWidth: real, font: string, size: real)
    requires maxWidth > 0.0 && !FitsAt(env, text, maxWidth, font, size)
    ensures ScaleMeasure(env, text, maxWidth, font, Scaling * size) < ScaleMeasure(env, text, maxWidth, font, size)
  {
    var w := StringWidth(env, text, font, size);
    StringWidthScales(env, text, font, size, Scaling);
    var w' := StringWidth(env, text, font, Scaling * size);
    assert w' == 0.8 * w;
    var q := 5.0 * w / maxWidth;
    assert q >= 5.0 by {
      assert w / maxWidth >= 1.0;
    }
    if w' > maxWidth {
      var q' := 5.0 * w' / maxWidth;
      assert q' == 4.0 * w / maxWidth;
      assert q - q' == w / maxWidth;
      assert w / maxWidth > 1.0;
      assert q'.Floor < q.Floor;
    }
  }

  /** The size `scale_font_size` returns: the first size in size, 0.8·size, 0.64·size, ... at which the text fits. */
  function ScaledSize(env: Env, text: string, maxWidth: real, font: string, size: real): (r: real)
    requires ScaleTerminates(env, text, maxWidth, font, size)
    ensures FitsAt(env, text, maxWidth, font, r)
    ensures FitsAt(env, text, maxWidth, font, size) ==> r == size
    ensures size >= 0.0 ==> 0.0 <= r <= size
    decreases ScaleMeasure(env, text, maxWidth, font, size)
  {
    if FitsAt(env, text, maxWidth, font, size) then size
    else
      ScaleMeasureDecreases(env, text, maxWidth, font, size);
      ScaledSize(env, text, maxWidth, font, Scaling * size)
  }

  function Pow(b: real, k: nat): real {
    if k == 0 then 1.0 else b * Pow(b, k - 1)
  }

  /** How many times the loop multiplies by 0.8. */
  function ScaleSteps(env: Env, text: string, maxWidth: real, font: string, size: real): nat
    requires ScaleTerminates(env, text, maxWidth, font, size)
    decreases ScaleMeasure(env, text, maxWidth, font, size)
  {
    if FitsAt(env, text, maxWidth, font, size) then 0
    else
      ScaleMeasureDecreases(env, text, maxWidth, font, size);
      1 + ScaleSteps(env, text, maxWidth, font, Scaling * size)
  }

  /** The font size after j steps of the scale loop: size·0.8^j. */
  function SizeAfter(size: real, j: nat): real {
    size * Pow(Scaling, j)
  }

  lemma SizeAfterStep(size: real, j: nat)
    ensures SizeAfter(Scaling * size, j) == SizeAfter(size, j + 1)
    ensures SizeAfter(size, 0) == size
  {
    var p := Pow(Scaling, j);
    assert Pow(Scaling, j + 1) == Scaling * p;
    assert (Scaling * size) * p == size * (Scaling * p);
  }

  /**
   * The returned size is `size·0.8^k` for the least k at which the text
   * fits: no smaller power fits.
   */
  lemma {:induction false} ScaledSizeIsFirstFit(env: Env, text: string, maxWidth: real, font: string, size: real)
    requires ScaleTerminates(env, text, maxWidth, font, size)
    ensures ScaledSize(env, text, maxWidth, font, size) ==
            SizeAfter(size, ScaleSteps(env, text, maxWidth, font, size))
    ensures forall j: nat :: j < ScaleSteps(env, text, maxWidth, font, size) ==>
              !FitsAt(env, text, maxWidth, font, SizeAfter(size, j))
    decreases ScaleMeasure(env, text, maxWidth, font, size)
  {
    SizeAfterStep(size, 0);
    if !FitsAt(env, text, maxWidth, font, size) {
      ScaleMeasureDecreases(env, text, maxWidth, font, size);
      var s' := Scaling * size;
      ScaledSizeIsFirstFit(env, text, maxWidth, font, s');
      var k := ScaleSteps(env, text, maxWidth, font, s');
      SizeAfterStep(size, k);
      forall j: nat | j < k + 1
        ensures !FitsAt(env, text, maxWidth, font, SizeAfter(size, j))
      {
        if j > 0 {
          SizeAfterStep(size, j - 1);
        }
      }
    }
  }

  /** `scale_font_size`, the loop as the source runs it. */
  method ScaleFontSize(env: Env, text: string, maxWidth: real, font: string, size: real) returns (r: real)
    requires ScaleTerminates(env, text, maxWidth, font, size)
    ensures r == ScaledSize(env, text, maxWidth, font, size)
    ensures StringWidth(env, text, font, r) <= maxWidth
  {
    r := size;
    var textWidth := StringWidth(env, text, font, r);
    while textWidth > maxWidth
      invariant ScaleTerminates(env, text, maxWidth, font, r)
      invariant textWidth == StringWidth(env, text, font, r)
      invariant ScaledSize(env, text, maxWidth, font, r) == ScaledSize(env, text, maxWidth, font, size)
      decreases ScaleMeasure(env, text, maxWidth, font, r)
    {
      ScaleMeasureDecreases(env, text, maxWidth, font, r);
      r := r * Scaling;
      textWidth := StringWidth(env, text, font, r);
    }
  }
}

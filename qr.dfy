/**
 * `make_qr`: the choice between the raw and the zlib-compressed payload, and
 * the arguments handed to the QR widget. Building the symbol itself (and its
 * capacity error) belongs to the widget and is not modelled.
 */
module Qr {
  import opened Values
  import opened Backend

  /** The three readings of the `compress` argument. */
  datatype CompressMode = Never | Always | IfSmaller

  /**
   * `compress != False` selects compression; then `compress == True` forces
   * it. Python compares numbers and booleans by value, so 0 counts as False
   * and 1 as True; an absent argument is None.
   */
  function CompressModeOf(compress: Option<Json>): (m: CompressMode)
    ensures compress == Some(JBool(false)) || compress == Some(JNum(0.0)) ==> m == Never
    ensures compress == Some(JBool(true)) || compress == Some(JNum(1.0)) ==> m == Always
    ensures compress == None ==> m == IfSmaller
    ensures m == IfSmaller <==>
      compress !in {Some(JBool(false)), Some(JNum(0.0)), Some(JBool(true)), Some(JNum(1.0))}
  {
    match compress
    case None => IfSmaller
    case Some(v) =>
      if v == JBool(false) || v == JNum(0.0) then Never
      else if v == JBool(true) || v == JNum(1.0) then Always
      else IfSmaller
  }

  /** The bytes `make_qr` hands to the encoder. */
  function Payload(data: string, mode: CompressMode, deflate: string -> string): (r: string)
    ensures mode == Never ==> r == data
    ensures mode == Always ==> r == deflate(data)
    ensures mode == IfSmaller ==> r == data || r == deflate(data)
  {
    match mode
    case Never => data
    case Always => deflate(data)
    case IfSmaller =>
      var compressed := deflate(data);
      if |compressed| < |data| then compressed else data
  }

  /**
   * In the default mode the payload is the shorter of the raw and the
   * compressed form, and raw wins a tie.
   */
  lemma IfSmallerPicksShorter(data: string, deflate: string -> string)
    ensures |Payload(data, IfSmaller, deflate)| <= |data|
    ensures |Payload(data, IfSmaller, deflate)| <= |deflate(data)|
    ensures Payload(data, IfSmaller, deflate) == deflate(data) <==> |deflate(data)| < |data| || deflate(data) == data
  {
  }

  /** The widget `make_qr` builds: its payload, `barLevel`, `qrVersion` and the remaining keyword arguments. */
  datatype QrWidget = QrWidget(payload: string, level: Json, version: Json, options: Style)

  /** The names `make_qr` binds itself; every other key is passed on to the widget. */
  const OwnArguments: set<string> := {"error", "version", "compress"}

  /**
   * Keys that name an argument twice: `data` is `make_qr`'s first parameter,
   * and `barLevel` and `qrVersion` are passed to the widget explicitly as
   * well as through the remaining keywords.
   */
  const ClashingArguments: set<string> := {"data", "barLevel", "qrVersion"}

  /**
   * `make_qr(data, **fmt)`: a key naming an argument twice raises TypeError;
   * otherwise the widget gets the payload, `error` as its level, `version`
   * and every other key.
   */
  function MakeQr(data: string, fmt: Style, deflate: string -> string): (r: Result<QrWidget>)
    ensures r.Err? <==> exists k :: k in fmt && k in ClashingArguments
    ensures r.Err? ==> r.error == TypeError
    ensures r.Ok? ==> r.value.level == Get(fmt, "error", JStr("L"))
    ensures r.Ok? ==> r.value.version == Get(fmt, "version", JNull)
    ensures r.Ok? ==> r.value.options.Keys == fmt.Keys - OwnArguments
    ensures r.Ok? ==> forall k :: k in r.value.options ==> r.value.options[k] == fmt[k]
    ensures r.Ok? ==> r.value.payload == Payload(data, CompressModeOf(if "compress" in fmt then Some(fmt["compress"]) else None), deflate)
  {
    if "data" in fmt || "barLevel" in fmt || "qrVersion" in fmt then Err(TypeError)
    else
      var compress := if "compress" in fmt then Some(fmt["compress"]) else None;
      Ok(QrWidget(Payload(data, CompressModeOf(compress), deflate),
                  Get(fmt, "error", JStr("L")),
                  Get(fmt, "version", JNull),
                  fmt - OwnArguments))
  }

  /** `qr.barWidth`: the keyword argument when given, else the widget's own default. */
  function BarWidth(w: QrWidget, env: Env): (r: Result<real>)
    ensures "barWidth" !in w.options ==> r == Ok(env.qrBarWidth)
    ensures "barWidth" in w.options ==> (r.Ok? <==> w.options["barWidth"].JNum?)
    ensures r.Ok? && "barWidth" in w.options ==> w.options["barWidth"] == JNum(r.value)
    ensures r.Err? ==> r.error == TypeError
  {
    NumberOr(w.options, "barWidth", env.qrBarWidth)
  }

  /** The widget's bar width is the format's `barWidth`, or the widget default when the format has none. */
  lemma BarWidthOfFormat(data: string, fmt: Style, deflate: string -> string, env: Env)
    requires MakeQr(data, fmt, deflate).Ok?
    ensures BarWidth(MakeQr(data, fmt, deflate).value, env) == NumberOr(fmt, "barWidth", env.qrBarWidth)
  {
    assert "barWidth" !in OwnArguments;
  }
}

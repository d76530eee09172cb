/**
 * The configuration merge of the scripts (`prepare_config`, `get_config`):
 * the label configuration names a label spec, the page configuration gives
 * that spec's page type and arguments and the page type's sheet size;
 * padding overrides come from the label configuration; spec values become
 * exact numbers; the text and QR sections get their defaults.
 */
module Config {
  import opened Values

  /** A JSON object, as the configuration files hold. */
  type Obj = map<string, Json>

  /** A configuration section: absent (the value False) or present. */
  datatype Section = Off | On(fields: Obj)

  /** The merged configuration: the spec arguments, the two sections, the icon table and every other entry. */
  datatype Merged = Merged(spec: map<string, real>, text: Section, qr: Section, icons: Option<Json>, extra: Obj)

  /** `d[key]` on a JSON object. */
  function Lookup(d: Obj, key: string): (r: Result<Json>)
    ensures key in d <==> r.Ok?
    ensures r.Ok? ==> r.value == d[key]
    ensures r.Err? ==> r.error == KeyError(key)
  {
    if key in d then Ok(d[key]) else Err(KeyError(key))
  }

  /** A value that must be a JSON object to be indexed or assigned into. */
  function AsObj(v: Json): Result<Obj> {
    if v.JObj? then Ok(v.fields) else Err(TypeError)
  }

  /** A value that must be a string to serve as a key. */
  function AsKey(v: Json): Result<string> {
    if v.JStr? then Ok(v.s) else Err(TypeError)
  }

  /** Unpacking `a, b = v`: a two-item list, or ValueError for another length. */
  function AsPair(v: Json): Result<(Json, Json)> {
    match v
    case JList(items) => if |items| == 2 then Ok((items[0], items[1])) else Err(ValueError)
    case _ => Err(TypeError)
  }

  /** `Decimal(v)`: exact for numbers and booleans. */
  function Decimal(v: Json): Result<real> {
    match v
    case JNum(n) => Ok(n)
    case JBool(b) => Ok(if b then 1.0 else 0.0)
    case _ => Err(TypeError)
  }

  /** The sides whose padding the label configuration may override, in the source's order. */
  const Sides: seq<string> := ["top", "bottom", "left", "right"]

  function PaddingKey(side: string): string {
    side + "_padding"
  }

  /** The padding keys, one per side. */
  const PaddingKeys: seq<string> := [PaddingKey(Sides[0]), PaddingKey(Sides[1]), PaddingKey(Sides[2]), PaddingKey(Sides[3])]

  /** `args[key] = source[key]` for each key in turn that `source` holds. */
  function Override(args: Obj, source: Obj, keys: seq<string>): (r: Obj)
    ensures forall k :: k in r <==> k in args || (k in keys && k in source)
    ensures forall k :: k in r ==> r[k] == if k in keys && k in source then source[k] else args[k]
    decreases |keys|
  {
    if keys == [] then args
    else
      var next := if keys[0] in source then args[keys[0] := source[keys[0]]] else args;
      Override(next, source, keys[1..])
  }

  /** The padding loop over the four sides. */
  method ApplyPadding(args: Obj, specConfig: Obj) returns (r: Obj)
    ensures forall k :: k in r <==> k in args || (k in PaddingKeys && k in specConfig)
    ensures forall k :: k in r ==> r[k] == if k in PaddingKeys && k in specConfig then specConfig[k] else args[k]
  {
    r := args;
    for i := 0 to |Sides|
      invariant Override(r, specConfig, PaddingKeys[i..]) == Override(args, specConfig, PaddingKeys)
    {
      var key := PaddingKey(Sides[i]);
      assert PaddingKeys[i..][0] == key && PaddingKeys[i..][1..] == PaddingKeys[i + 1..];
      if key in specConfig {
        r := r[key := specConfig[key]];
      }
    }
  }

  /** Every spec argument as an exact number, or the first failure. */
  function Decimals(args: Obj): (r: Result<map<string, real>>)
    ensures r.Ok? <==> forall k :: k in args ==> Decimal(args[k]).Ok?
    ensures r.Ok? ==> r.value.Keys == args.Keys && forall k :: k in args ==> r.value[k] == Decimal(args[k]).value
    ensures r.Err? ==> r.error == TypeError
  {
    if forall k :: k in args ==> Decimal(args[k]).Ok? then
      Ok(map k | k in args :: Decimal(args[k]).value)
    else Err(TypeError)
  }

  /**
   * The lookups of the spec, in Python's evaluation order: the spec config,
   * the label table, the spec's name, its page type and arguments, the page
   * size, then the two sheet-size entries of the arguments. Returns the spec
   * config and the arguments with the sheet size.
   */
  function SpecArgs(labelConfig: Obj, pageConfig: Obj): (r: Result<(Obj, Obj)>)
    ensures "spec" !in labelConfig ==> r == Err(KeyError("spec"))
    ensures r.Ok? ==> "spec" in labelConfig && labelConfig["spec"] == JObj(r.value.0)
    ensures r.Ok? ==> "sheet_width" in r.value.1 && "sheet_height" in r.value.1
  {
    var specValue :- Lookup(labelConfig, "spec");
    var labelTable :- Lookup(pageConfig, "label");
    var specConfig :- AsObj(specValue);
    var nameValue :- Lookup(specConfig, "name");
    var labels :- AsObj(labelTable);
    var name :- AsKey(nameValue);
    var entry :- Lookup(labels, name);
    var pair :- AsPair(entry);
    var pageTable :- Lookup(pageConfig, "page");
    var pages :- AsObj(pageTable);
    var pageType :- AsKey(pair.0);
    var page :- Lookup(pages, pageType);
    var size :- AsPair(page);
    var specArgs :- AsObj(pair.1);
    Ok((specConfig, specArgs["sheet_width" := size.0]["sheet_height" := size.1]))
  }

  /**
   * The spec arguments of the label configuration's spec: those of the named
   * label spec, the sheet size of its page type, the padding overrides, all
   * as exact numbers.
   */
  function ResolveSpec(labelConfig: Obj, pageConfig: Obj): (r: Result<map<string, real>>)
    ensures "spec" !in labelConfig ==> r == Err(KeyError("spec"))
    ensures r.Ok? ==> SpecArgs(labelConfig, pageConfig).Ok?
    ensures r.Ok? ==> "sheet_width" in r.value && "sheet_height" in r.value
    ensures r.Ok? ==> forall k :: k in r.value <==>
      k in SpecArgs(labelConfig, pageConfig).value.1 || (k in PaddingKeys && k in SpecArgs(labelConfig, pageConfig).value.0)
  {
    var (specConfig, sized) :- SpecArgs(labelConfig, pageConfig);
    Decimals(Override(sized, specConfig, PaddingKeys))
  }

  /** The lookups of a well-formed configuration. */
  lemma SpecArgsOfWellFormed(labelConfig: Obj, pageConfig: Obj, specConfig: Obj, name: string, pageType: string,
                             specArgs: Obj, width: Json, height: Json)
    requires "spec" in labelConfig && labelConfig["spec"] == JObj(specConfig)
    requires "name" in specConfig && specConfig["name"] == JStr(name)
    requires "label" in pageConfig && pageConfig["label"].JObj? && name in pageConfig["label"].fields
    requires pageConfig["label"].fields[name] == JList([JStr(pageType), JObj(specArgs)])
    requires "page" in pageConfig && pageConfig["page"].JObj? && pageType in pageConfig["page"].fields
    requires pageConfig["page"].fields[pageType] == JList([width, height])
    ensures SpecArgs(labelConfig, pageConfig) == Ok((specConfig, specArgs["sheet_width" := width]["sheet_height" := height]))
  {
  }

  /** No padding key is a sheet-size key. */
  lemma PaddingKeysAreNotSheetSize()
    ensures "sheet_width" !in PaddingKeys && "sheet_height" !in PaddingKeys
  {
    forall i | 0 <= i < |PaddingKeys|
      ensures PaddingKeys[i][|PaddingKeys[i]| - 1] == 'g'
    {
      assert PaddingKeys[i] == Sides[i] + "_padding";
    }
  }

  /** Padding and conversion of the arguments with the sheet size, as the fields they yield. */
  lemma ConvertedFields(specConfig: Obj, specArgs: Obj, width: Json, height: Json)
    requires Decimals(Override(specArgs["sheet_width" := width]["sheet_height" := height], specConfig, PaddingKeys)).Ok?
    ensures var spec := Decimals(Override(specArgs["sheet_width" := width]["sheet_height" := height], specConfig, PaddingKeys)).value;
      && "sheet_width" in spec && Decimal(width) == Ok(spec["sheet_width"])
      && "sheet_height" in spec && Decimal(height) == Ok(spec["sheet_height"])
      && (forall k :: k in PaddingKeys && k in specConfig ==> k in spec && Decimal(specConfig[k]) == Ok(spec[k]))
      && (forall k :: k in specArgs && k !in PaddingKeys && k != "sheet_width" && k != "sheet_height" ==>
            k in spec && Decimal(specArgs[k]) == Ok(spec[k]))
  {
    PaddingKeysAreNotSheetSize();
    var sized := specArgs["sheet_width" := width]["sheet_height" := height];
    var padded := Override(sized, specConfig, PaddingKeys);
    assert padded["sheet_width"] == width && padded["sheet_height"] == height;
    forall k | k in specArgs && k !in PaddingKeys && k != "sheet_width" && k != "sheet_height"
      ensures padded[k] == specArgs[k]
    {
      assert padded[k] == sized[k];
    }
  }

  /**
   * For a well-formed configuration, the resolved spec holds the page type's
   * sheet size, each padding the spec config gives, and every other argument
   * of the label spec, each as an exact number.
   */
  lemma ResolveSpecFields(labelConfig: Obj, pageConfig: Obj, specConfig: Obj, name: string, pageType: string,
                          specArgs: Obj, width: Json, height: Json)
    returns (spec: map<string, real>)
    requires "spec" in labelConfig && labelConfig["spec"] == JObj(specConfig)
    requires "name" in specConfig && specConfig["name"] == JStr(name)
    requires "label" in pageConfig && pageConfig["label"].JObj? && name in pageConfig["label"].fields
    requires pageConfig["label"].fields[name] == JList([JStr(pageType), JObj(specArgs)])
    requires "page" in pageConfig && pageConfig["page"].JObj? && pageType in pageConfig["page"].fields
    requires pageConfig["page"].fields[pageType] == JList([width, height])
    requires ResolveSpec(labelConfig, pageConfig).Ok?
    ensures ResolveSpec(labelConfig, pageConfig) == Ok(spec)
    ensures
      && "sheet_width" in spec && Decimal(width) == Ok(spec["sheet_width"])
      && "sheet_height" in spec && Decimal(height) == Ok(spec["sheet_height"])
      && (forall k :: k in PaddingKeys && k in specConfig ==> k in spec && Decimal(specConfig[k]) == Ok(spec[k]))
      && (forall k :: k in specArgs && k !in PaddingKeys && k != "sheet_width" && k != "sheet_height" ==>
            k in spec && Decimal(specArgs[k]) == Ok(spec[k]))
  {
    SpecArgsOfWellFormed(labelConfig, pageConfig, specConfig, name, pageType, specArgs, width, height);
    var sized := specArgs["sheet_width" := width]["sheet_height" := height];
    assert ResolveSpec(labelConfig, pageConfig) == Decimals(Override(sized, specConfig, PaddingKeys));
    ConvertedFields(specConfig, specArgs, width, height);
    spec := ResolveSpec(labelConfig, pageConfig).value;
  }

  /** A section with its default: absent stays off, present gets `key := default` when the key is missing. */
  function WithDefault(config: Obj, section: string, key: string, default: Json): (r: Result<Section>)
    ensures section !in config ==> r == Ok(Off)
    ensures section in config && config[section].JObj? ==>
      r.Ok? && r.value.On? && key in r.value.fields
      && r.value.fields == (if key in config[section].fields then config[section].fields
                            else config[section].fields[key := default])
  {
    if section !in config then Ok(Off)
    else
      var fields :- AsObj(config[section]);
      Ok(On(if key in fields then fields else fields[key := default]))
  }

  /** The entries a merge replaces; every other entry passes through. */
  const Replaced: set<string> := {"spec", "text", "qr", "icons"}

  /**
   * `prepare_config`: the resolved spec, the text section with one line by
   * default, the QR section uncompressed by default, and the label
   * configuration's own icon table, if any.
   */
  function PrepareConfig(labelConfig: Obj, pageConfig: Obj): (r: Result<Merged>)
    ensures r.Ok? ==> ResolveSpec(labelConfig, pageConfig) == Ok(r.value.spec)
    ensures r.Ok? ==> Ok(r.value.text) == WithDefault(labelConfig, "text", "lines", JNum(1.0))
    ensures r.Ok? ==> Ok(r.value.qr) == WithDefault(labelConfig, "qr", "compress", JBool(false))
    ensures r.Ok? ==> r.value.icons == (if "icons" in labelConfig then Some(labelConfig["icons"]) else None)
    ensures r.Ok? ==> r.value.extra == labelConfig - Replaced
  {
    var spec :- ResolveSpec(labelConfig, pageConfig);
    var text :- WithDefault(labelConfig, "text", "lines", JNum(1.0));
    var qr :- WithDefault(labelConfig, "qr", "compress", JBool(false));
    Ok(Merged(spec, text, qr, if "icons" in labelConfig then Some(labelConfig["icons"]) else None, labelConfig - Replaced))
  }

  /** `get_config` of the second script: as `prepare_config`, but the icon table is the page configuration's `icon` entry, `{}` if absent. */
  function GetConfig(config: Obj, specs: Obj): (r: Result<Merged>)
    ensures r.Ok? ==> r.value.icons == Some(if "icon" in specs then specs["icon"] else JObj(map[]))
    ensures r.Ok? <==> PrepareConfig(config, specs).Ok?
    ensures r.Ok? ==> r.value == PrepareConfig(config, specs).value.(icons := r.value.icons)
  {
    var merged :- PrepareConfig(config, specs);
    Ok(merged.(icons := Some(if "icon" in specs then specs["icon"] else JObj(map[]))))
  }

  /**
   * `get_config` of the older script: the spec and text parts as in the
   * others, then the undefined name `Falsae` fails every call.
   */
  function LegacyGetConfig(config: Obj, specs: Obj): (r: Result<Merged>)
    ensures r.Err?
    ensures ResolveSpec(config, specs).Err? ==> r == Err(ResolveSpec(config, specs).error)
    ensures ResolveSpec(config, specs).Ok? && WithDefault(config, "text", "lines", JNum(1.0)).Ok? ==>
      r == Err(NameError("Falsae"))
  {
    var spec :- ResolveSpec(config, specs);
    var text :- WithDefault(config, "text", "lines", JNum(1.0));
    Err(NameError("Falsae"))
  }

  /** Supplied section values are kept; only a missing key gets its default. */
  lemma DefaultsKeepSuppliedValues(config: Obj, section: string, key: string, default: Json)
    requires section in config && config[section].JObj?
    ensures var r := WithDefault(config, section, key, default);
      && (forall k :: k in config[section].fields ==> k in r.value.fields && r.value.fields[k] == config[section].fields[k])
      && r.value.fields.Keys == config[section].fields.Keys + {key}
      && r.value.fields[key] == (if key in config[section].fields then config[section].fields[key] else default)
  {
  }
}

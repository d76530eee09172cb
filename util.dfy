/**
 * The helpers of the library's util module: `safe_get` and `safe_map`,
 * which treat a list or tuple as one value per line and anything else as a
 * value for every line; the `AliasedDict` lookup that lets a row be read by
 * column name or by a positional alias `col<N>`; and the alias naming done
 * by the row readers.
 */
module Util {
  import opened Values
  import opened Strings

  /**
   * `safe_get(seq, idx)`: the idx-th element of a list, or the value itself
   * when it is not a list (the index is then ignored).
   */
  function SafeGet(v: Json, idx: nat): (r: Result<Json>)
    ensures v.JList? ==> (r.Ok? <==> idx < |v.items|)
    ensures v.JList? && r.Ok? ==> r.value == v.items[idx]
    ensures !v.JList? ==> r == Ok(v)
  {
    match v
    case JList(items) => if idx < |items| then Ok(items[idx]) else Err(IndexError)
    case _ => Ok(v)
  }

  /** `safe_map(fn, seq)`: fn on every element of a list, or fn once on a scalar. */
  function SafeMap(fn: Json -> Json, v: Json): (r: Json)
    ensures v.JList? ==> r.JList? && |r.items| == |v.items|
    ensures v.JList? ==> forall k :: 0 <= k < |v.items| ==> r.items[k] == fn(v.items[k])
    ensures !v.JList? ==> r == fn(v)
  {
    match v
    case JList(items) => JList(seq(|items|, k requires 0 <= k < |items| => fn(items[k])))
    case _ => fn(v)
  }

  /**
   * Reading line idx of a mapped value is mapping line idx of the value,
   * as long as fn does not turn the scalar into a list.
   */
  lemma SafeGetOfSafeMap(fn: Json -> Json, v: Json, idx: nat)
    requires !v.JList? ==> !fn(v).JList?
    ensures SafeGet(SafeMap(fn, v), idx) ==
            (match SafeGet(v, idx)
             case Ok(x) => Ok(fn(x))
             case Err(e) => Err(e))
  {
    if v.JList? {
      if idx < |v.items| {
        assert SafeMap(fn, v).items[idx] == fn(v.items[idx]);
      }
    }
  }

  /**
   * A row that can be read by its own keys and, failing that, through an
   * alias table (`AliasedDict`).
   */
  datatype AliasedDict = AliasedDict(store: map<string, string>, aliases: map<string, string>) {

    /** `key in d`: a stored key or an alias. */
    predicate Contains(key: string) {
      key in store || key in aliases
    }

    /**
     * `d[key]`: the stored value; otherwise `__missing__` looks the key's
     * alias up again through `d[...]`, and a key that is neither stored nor an
     * alias raises KeyError. `visited` holds the aliases already followed: a
     * second visit means the lookup recurses without end (RecursionError).
     */
    function LookupFrom(key: string, visited: set<string>): (r: Result<string>)
      ensures key in store ==> r == Ok(store[key])
      ensures !Contains(key) ==> r == Err(KeyError(key))
      ensures r.Ok? ==> r.value in store.Values
      ensures r.Err? && r.error.KeyError? ==> !Contains(r.error.key)
      decreases aliases.Keys - visited
    {
      if key in store then Ok(store[key])
      else if key !in aliases then Err(KeyError(key))
      else if key in visited then Err(RecursionError)
      else LookupFrom(aliases[key], visited + {key})
    }

    /** `d[key]`, starting with no alias followed. */
    function Lookup(key: string): (r: Result<string>)
      ensures key in store ==> r == Ok(store[key])
      ensures key !in store && key in aliases && aliases[key] in store ==> r == Ok(store[aliases[key]])
      ensures r.Ok? ==> Contains(key) && r.value in store.Values
      ensures !Contains(key) ==> r == Err(KeyError(key))
      ensures r.Err? && r.error.KeyError? ==> !Contains(r.error.key)
    {
      LookupFrom(key, {})
    }
  }

  /** `"col{0}".format(idx + 1)`: the positional name of column idx. */
  function ColName(idx: nat): string {
    "col" + NatToString(idx + 1)
  }

  lemma ColNameInjective(i: nat, j: nat)
    requires ColName(i) == ColName(j)
    ensures i == j
  {
    assert NatToString(i + 1) == ColName(i)[3..];
    assert NatToString(j + 1) == ColName(j)[3..];
    NatToStringInjective(i + 1, j + 1);
  }

  /** `list("col{0}".format(idx+1) for idx in xrange(n))`. */
  function ColNames(n: nat): (r: seq<string>)
    ensures |r| == n
    ensures forall i :: 0 <= i < n ==> r[i] == ColName(i)
  {
    seq(n, i requires 0 <= i < n => ColName(i))
  }

  /** `dict(zip(keys, values))`: pairs taken in order, a later key overriding an earlier one. */
  function ZipDict<V>(keys: seq<string>, values: seq<V>): (m: map<string, V>)
    decreases |keys|
  {
    var n := if |keys| < |values| then |keys| else |values|;
    if n == 0 then map[]
    else ZipDict(keys[..n - 1], values[..n - 1])[keys[n - 1] := values[n - 1]]
  }

  /**
   * Every entry of `dict(zip(keys, values))` comes from a zipped pair, the
   * last one with that key: a later key overrides an earlier one.
   */
  lemma {:induction false} ZipDictLast<V>(keys: seq<string>, values: seq<V>, k: string)
    requires k in ZipDict(keys, values)
    ensures exists i :: (0 <= i < |keys| && i < |values| && keys[i] == k && ZipDict(keys, values)[k] == values[i]
      && forall j :: i < j < |keys| && j < |values| ==> keys[j] != k)
    decreases |keys|
  {
    var n := if |keys| < |values| then |keys| else |values|;
    if keys[n - 1] != k {
      var ks, vs := keys[..n - 1], values[..n - 1];
      ZipDictLast(ks, vs, k);
      var i :| 0 <= i < |ks| && i < |vs| && ks[i] == k && ZipDict(ks, vs)[k] == vs[i]
        && forall j :: i < j < |ks| && j < |vs| ==> ks[j] != k;
      assert keys[i] == k && ZipDict(keys, values)[k] == values[i];
      assert forall j :: i < j < |keys| && j < |values| ==> keys[j] != k by {
        forall j | i < j < |keys| && j < |values| ensures keys[j] != k {
          if j < n - 1 {
            assert ks[j] == keys[j];
          }
        }
      }
    }
  }

  /** Every zipped key is a key of `dict(zip(keys, values))`. */
  lemma {:induction false} ZipDictHas<V>(keys: seq<string>, values: seq<V>, i: nat)
    requires i < |keys| && i < |values|
    ensures keys[i] in ZipDict(keys, values)
    decreases |keys|
  {
    var n := if |keys| < |values| then |keys| else |values|;
    if i < n - 1 {
      ZipDictHas(keys[..n - 1], values[..n - 1], i);
    }
  }

  /** With distinct keys, `dict(zip(keys, values))` maps the i-th key to the i-th value. */
  lemma {:induction false} ZipDictAt<V>(keys: seq<string>, values: seq<V>, i: nat)
    requires |keys| == |values| && i < |keys|
    requires forall a, b :: 0 <= a < b < |keys| ==> keys[a] != keys[b]
    ensures keys[i] in ZipDict(keys, values)
    ensures ZipDict(keys, values)[keys[i]] == values[i]
    decreases |keys|
  {
    var n := |keys|;
    if i < n - 1 {
      ZipDictAt(keys[..n - 1], values[..n - 1], i);
    }
  }

  /** The keys of `dict(zip(keys, values))` are exactly the zipped keys. */
  lemma {:induction false} ZipDictKeys<V>(keys: seq<string>, values: seq<V>)
    requires |keys| == |values|
    ensures ZipDict(keys, values).Keys == set i | 0 <= i < |keys| :: keys[i]
    decreases |keys|
  {
    var n := |keys|;
    if n > 0 {
      ZipDictKeys(keys[..n - 1], values[..n - 1]);
      assert forall i :: 0 <= i < n - 1 ==> keys[..n - 1][i] == keys[i];
      var prev := set i | 0 <= i < n - 1 :: keys[i];
      assert (set i | 0 <= i < n :: keys[i]) == prev + {keys[n - 1]};
    }
  }

  /** Field names and alias table a row reader derives from its first row. */
  datatype Naming = Naming(fieldNames: seq<string>, aliases: Option<map<string, string>>)

  /**
   * `AliasedDictReader.__init__`: with a header, the first row gives the
   * field names and `col<i+1>` aliases field i; without one, the field names
   * are `col1..colN` and there are no aliases.
   */
  function ReaderNaming(firstRow: seq<string>, header: bool): (r: Naming)
    ensures |r.fieldNames| == |firstRow|
    ensures r.aliases.Some? <==> header
    ensures header ==> r.fieldNames == firstRow
    ensures !header ==> forall i :: 0 <= i < |firstRow| ==> r.fieldNames[i] == ColName(i)
  {
    var names := ColNames(|firstRow|);
    if header then Naming(firstRow, Some(ZipDict(names, firstRow)))
    else Naming(names, None)
  }

  /** The aliases of a header reader: `col<i+1>` stands for header field i, and nothing else is an alias. */
  lemma ReaderNamingAliases(firstRow: seq<string>, header: bool, i: nat)
    requires i < |firstRow|
    ensures header ==> ReaderNaming(firstRow, header).aliases.Some?
    ensures header ==> ReaderNaming(firstRow, header).fieldNames == firstRow
    ensures header ==> ColName(i) in ReaderNaming(firstRow, header).aliases.value
    ensures header ==> ReaderNaming(firstRow, header).aliases.value[ColName(i)] == firstRow[i]
    ensures header ==> ReaderNaming(firstRow, header).aliases.value.Keys == set j | 0 <= j < |firstRow| :: ColName(j)
    ensures !header ==> ReaderNaming(firstRow, header) == Naming(ColNames(|firstRow|), None)
  {
    var names := ColNames(|firstRow|);
    forall a, b | 0 <= a < b < |names| ensures names[a] != names[b] {
      if names[a] == names[b] {
        ColNameInjective(a, b);
      }
    }
    ZipDictAt(names, firstRow, i);
    ZipDictKeys(names, firstRow);
    assert (set j | 0 <= j < |names| :: names[j]) == set j | 0 <= j < |firstRow| :: ColName(j);
  }

  /**
   * A header reader's row (a `csv.DictReader` row wrapped in an
   * `AliasedDict`): when the header fields are distinct and none of them is
   * itself a `col<N>` name, column i can be read by its alias `col<i+1>`.
   */
  lemma RowByPosition(header: seq<string>, cells: seq<string>, i: nat)
    requires |cells| == |header| && i < |header|
    requires forall a, b :: 0 <= a < b < |header| ==> header[a] != header[b]
    requires forall a :: 0 <= a < |header| ==> ColName(i) != header[a]
    ensures ReaderNaming(header, true).aliases.Some?
    ensures AliasedDict(ZipDict(header, cells), ReaderNaming(header, true).aliases.value).Lookup(ColName(i)) == Ok(cells[i])
  {
    ReaderNamingAliases(header, true, i);
    var d := AliasedDict(ZipDict(header, cells), ReaderNaming(header, true).aliases.value);
    ZipDictKeys(header, cells);
    ZipDictAt(header, cells, i);
    assert ColName(i) !in d.store;
  }
}

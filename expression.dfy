/**
 * Rewrites of the atlas feature filter that replace the `$id` pseudo-field
 * by the layer's primary-key column, so that the data provider can compile
 * the filter instead of scanning every feature.
 *
 *  - OptimizeExpression: the text substitution of atlasprint/core.py.
 *  - FidFilter: the older `"pk" IN (n)` rewrite of filters/core.py and
 *    filters/atlasprintFilter.py.
 */
module Expression {
  import opened Wrappers
  import opened Text

  /** The QVariant type of a field, as far as the rewrites look at it. */
  datatype FieldType = IntType | LongLongType | DoubleType | StringType | OtherType

  datatype Field = Field(name: string, fieldType: FieldType)

  /**
   * The part of a vector layer (and of its data provider) that the rewrites
   * read: its fields, in order, and the indexes of its primary-key fields.
   */
  datatype Layer = Layer(fields: seq<Field>, primaryKeys: seq<nat>)

  /** Every primary-key index names one of the layer's fields. */
  predicate WellFormed(layer: Layer) {
    forall i :: 0 <= i < |layer.primaryKeys| ==> layer.primaryKeys[i] < |layer.fields|
  }

  /** The pseudo-field for the feature id in a QGIS expression. */
  const IdToken: string := "$id"

  /** A column reference in a QGIS expression: the name in double quotes. */
  function Quoted(name: string): string {
    "\"" + name + "\""
  }

  /** The field at index 0 exists and has type Int (`fields().at(0)`). */
  predicate FirstFieldIsInt(layer: Layer) {
    |layer.fields| > 0 && layer.fields[0].fieldType == IntType
  }

  /**
   * `optimize_expression`: when `$id` occurs, the layer has exactly one
   * primary-key attribute and its FIRST field (index 0, whatever the key's
   * index) is of type Int, every `$id` becomes that field's quoted name.
   * Otherwise the expression comes back unchanged.
   */
  function OptimizeExpression(layer: Layer, expression: string): (r: string)
    ensures !Contains(expression, IdToken) ==> r == expression
    ensures |layer.primaryKeys| != 1 ==> r == expression
    ensures |layer.primaryKeys| == 1 && !FirstFieldIsInt(layer) ==> r == expression
    ensures Contains(expression, IdToken) && |layer.primaryKeys| == 1 && FirstFieldIsInt(layer) ==>
      var pieces := Split(expression, IdToken);
      expression == Join(pieces, IdToken) && r == Join(pieces, Quoted(layer.fields[0].name))
  {
    if !Contains(expression, IdToken) then expression
    else if |layer.primaryKeys| != 1 then expression
    else if !FirstFieldIsInt(layer) then expression
    else
      var name := layer.fields[0].name;
      ReplaceIsSplitJoin(expression, IdToken, Quoted(name));
      SplitJoin(expression, IdToken);
      ReplaceAll(expression, IdToken, Quoted(name))
  }

  /** The layer of the unit tests: `primary` (integer) then `name` (string). */
  function TestLayer(primaryType: FieldType, primaryKeys: seq<nat>): Layer {
    Layer([Field("primary", primaryType), Field("name", StringType)], primaryKeys)
  }

  /** Without `$id`, or without exactly one key, nothing is rewritten (the unit tests' cases). */
  lemma OptimizeUnchangedExamples()
    ensures OptimizeExpression(TestLayer(IntType, []), "abc") == "abc"
    ensures OptimizeExpression(TestLayer(IntType, []), "$id=3") == "$id=3"
    ensures OptimizeExpression(TestLayer(IntType, [0, 1]), "$id=3") == "$id=3"
  {
    AbsentWithoutHead("abc", IdToken);
  }

  /**
   * A string or double key is not rewritten. (The unit test for a double
   * key expects a rewrite; the code as written does not do it.)
   */
  lemma OptimizeNonIntExamples()
    ensures OptimizeExpression(TestLayer(StringType, [0]), "$id=3") == "$id=3"
    ensures OptimizeExpression(TestLayer(DoubleType, [0]), "$id=3") == "$id=3"
  {
    assert StartsWith("$id=3", IdToken);
  }

  /** A filter that starts with `$id` and has no other occurrence gets only that one replaced. */
  lemma {:induction false} OptimizeLeadingId(layer: Layer, tail: string)
    requires |layer.primaryKeys| == 1 && FirstFieldIsInt(layer)
    requires forall k :: 0 <= k < |tail| ==> tail[k] != '$'
    ensures OptimizeExpression(layer, IdToken + tail) == Quoted(layer.fields[0].name) + tail
  {
    var s := IdToken + tail;
    var q := Quoted(layer.fields[0].name);
    assert s[..3] == IdToken && s[3..] == tail;
    AbsentWithoutHead(tail, IdToken);
    ReplaceAbsent(tail, IdToken, q);
    assert ReplaceAll(s, IdToken, q) == q + tail;
  }

  /** `$id=3` becomes `"primary"=3` for one integer key (the unit test). */
  lemma OptimizeEqualityExample()
    ensures OptimizeExpression(TestLayer(IntType, [0]), "$id=3") == "\"primary\"=3"
  {
    var tail := "=3";
    assert IdToken + tail == "$id=3";
    OptimizeLeadingId(TestLayer(IntType, [0]), tail);
  }

  /** The quoted text after `$id` is kept as it is (the unit test). */
  lemma OptimizeInListExample()
    ensures OptimizeExpression(TestLayer(IntType, [0]), "$id in ('1','2')") == "\"primary\" in ('1','2')"
  {
    var tail := " in ('1','2')";
    assert IdToken + tail == "$id in ('1','2')";
    OptimizeLeadingId(TestLayer(IntType, [0]), tail);
    assert Quoted("primary") + tail == "\"primary\" in ('1','2')";
  }

  /**
   * `use_fid`: set only when `$id` occurs in the filter, to the value of
   * the first maximal run of digits anywhere in it (`re.findall(r'\d+')[0]`).
   */
  function UseFid(filter: string): (r: Option<nat>)
    ensures r.Some? <==> Contains(filter, IdToken) && exists k :: 0 <= k < |filter| && IsDigit(filter[k])
    ensures r.Some? ==> exists a, b ::
      0 <= a < b <= |filter| && (forall k :: 0 <= k < a ==> !IsDigit(filter[k])) &&
      AllDigits(filter[a..b]) && (b == |filter| || !IsDigit(filter[b])) &&
      r.value == DigitsValue(filter[a..b])
  {
    if !Contains(filter, IdToken) then None
    else match FirstDigitRun(filter)
      case None => None
      case Some((a, b)) =>
        assert AllDigits(filter[a..b]) by {
          forall k | 0 <= k < b - a ensures IsDigit(filter[a..b][k]) {
            assert filter[a..b][k] == filter[a + k];
          }
        }
        Some(DigitsValue(filter[a..b]))
  }

  /**
   * The filter handed to the atlas: `"<pk>" IN (<fid>)` when `use_fid` is
   * set and non-zero and the provider has exactly one primary-key index
   * (the name is read at that index), otherwise the caller's filter.
   */
  function FidFilter(layer: Layer, filter: string): (r: string)
    requires WellFormed(layer)
    ensures !Contains(filter, IdToken) ==> r == filter
    ensures |layer.primaryKeys| != 1 ==> r == filter
    ensures r != filter ==>
      UseFid(filter).Some? && UseFid(filter).value != 0 && |layer.primaryKeys| == 1
    ensures UseFid(filter).Some? && UseFid(filter).value != 0 && |layer.primaryKeys| == 1 ==>
      r == Quoted(layer.fields[layer.primaryKeys[0]].name) + " IN (" + NatToDecimal(UseFid(filter).value) + ")"
  {
    var fid := UseFid(filter);
    if fid.Some? && fid.value != 0 && |layer.primaryKeys| == 1 then
      var pk := layer.fields[layer.primaryKeys[0]].name;
      Quoted(pk) + " IN (" + NatToDecimal(fid.value) + ")"
    else filter
  }

  /** A layer whose single primary key `gid` is its second field. */
  function GidLayer(): Layer {
    Layer([Field("name", StringType), Field("gid", IntType)], [1])
  }

  /** Only the first number of the filter survives. */
  lemma FidFilterListExample()
    ensures FidFilter(GidLayer(), "$id IN (1,2)") == "\"gid\" IN (1)"
  {
    var a := "$id IN (1,2)";
    assert StartsWith(a, IdToken);
    FirstDigitRunIs(a, 8, 9);
    assert a[8..9] == "1";
    assert UseFid(a) == Some(1);
    assert NatToDecimal(1) == "1";
  }

  /** The fid is printed without its leading zeros. */
  lemma FidFilterLeadingZerosExample()
    ensures FidFilter(GidLayer(), "$id = 007") == "\"gid\" IN (7)"
  {
    var b := "$id = 007";
    assert StartsWith(b, IdToken);
    FirstDigitRunIs(b, 6, 9);
    assert b[6..9] == "007";
    assert "007"[..2] == "00" && "00"[..1] == "0" && "0"[..0] == "";
    assert DigitsValue("007") == 7;
  }

  /** A zero fid is falsy in Python: the filter is left as it is. */
  lemma FidFilterZeroExample()
    ensures FidFilter(GidLayer(), "$id = 0") == "$id = 0"
  {
    var a := "$id = 0";
    assert StartsWith(a, IdToken);
    FirstDigitRunIs(a, 6, 7);
    assert a[6..7] == "0";
  }
}

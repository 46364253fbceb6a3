/** clean_json_response of core/utils.py: cutting a model reply down to
    its JSON text. It needs only the string helpers, so it sits apart from
    the rest of the utilities. */
module CleanJson {
  import opened Text

  /** The stripped reply without a leading ```json or ``` fence: Python's
      content[7:-3] and content[3:-3]. */
  function Unfenced(content: string): (u: string)
    ensures |u| <= |Strip(content)|
  {
    var c := Strip(content);
    if StartsWith(c, "```json") then Slice(c, 7, -3)
    else if StartsWith(c, "```") then Slice(c, 3, -3)
    else c
  }

  /** clean_json_response (and the identical _clean_json_response of the
      agent base class): the text from the first '{' to the last '}' of the
      unfenced reply. */
  function CleanJsonResponse(content: string): (r: string)
    ensures |r| <= |Strip(content)|
    ensures '{' !in Unfenced(content) ==> r == Strip(Unfenced(content))
  {
    BraceText(Unfenced(content))
  }

  /** When a '}' follows the first '{' of the unfenced reply, the result is
      exactly the text from that '{' through the last '}'. */
  lemma CleanBraceSpan(content: string)
    requires var u := Unfenced(content);
      '{' in u && Find(u, '{') < RFind(u, '}')
    ensures var u := Unfenced(content);
      CleanJsonResponse(content) == u[Find(u, '{')..RFind(u, '}') + 1]
    ensures var r := CleanJsonResponse(content);
      |r| >= 2 && r[0] == '{' && r[|r| - 1] == '}'
  {
    var u := Unfenced(content);
    assert CleanJsonResponse(content) == BraceText(u);
  }

  /** A '{' with no '}' after it leaves nothing. */
  lemma CleanBraceUnclosed(content: string)
    requires var u := Unfenced(content);
      '{' in u && RFind(u, '}') < Find(u, '{')
    ensures CleanJsonResponse(content) == []
  {
    var u := Unfenced(content);
    assert CleanJsonResponse(content) == BraceText(u);
  }

  /** The brace span of an unfenced reply: without a '{' the reply is only
      stripped; with a '}' after the first '{' it is exactly the text from
      the first '{' through the last '}'; and since `end` is rfind('}') + 1,
      never -1, a '{' without a later '}' leaves the empty text. */
  function BraceText(u: string): (r: string)
    ensures |r| <= |u|
    ensures '{' !in u ==> r == Strip(u)
    ensures '{' in u && Find(u, '{') < RFind(u, '}') ==>
      r == u[Find(u, '{')..RFind(u, '}') + 1] && |r| >= 2 && r[0] == '{' && r[|r| - 1] == '}'
    ensures '{' in u && RFind(u, '}') < Find(u, '{') ==> r == []
  {
    var start := Find(u, '{');
    var end := RFind(u, '}') + 1;
    if start != -1 && end != -1 then
      SpanStripped(u, start, end);
      Strip(Slice(u, start, end))
    else Strip(u)
  }

  /** Stripping the slice from a '{' at `start` to just past `end - 1`,
      where a '}' sits when `end` is positive. */
  lemma SpanStripped(u: string, start: int, end: int)
    requires 0 <= start < |u| && u[start] == '{'
    requires 0 <= end <= |u| && (end > 0 ==> u[end - 1] == '}')
    ensures start < end - 1 ==> var r := Strip(Slice(u, start, end));
      r == u[start..end] && |r| == end - start && r[0] == '{' && r[|r| - 1] == '}'
    ensures end <= start ==> Strip(Slice(u, start, end)) == []
  {
    if start < end - 1 {
      var span := u[start..end];
      assert Slice(u, start, end) == span;
      assert span[0] == u[start] && span[|span| - 1] == u[end - 1];
      StripUnchanged(span);
    } else if end <= start {
      assert Slice(u, start, end) == [];
    }
  }

  /** A fence is cut off together with the last three characters. */
  lemma FenceTrimmed(content: string)
    requires |Strip(content)| >= 10
    ensures var c := Strip(content);
      && (StartsWith(c, "```json") ==> Unfenced(content) == c[7..|c| - 3])
      && (StartsWith(c, "```") && !StartsWith(c, "```json") ==> Unfenced(content) == c[3..|c| - 3])
  {
    var c := Strip(content);
    assert SliceBound(-3, |c|) == |c| - 3;
  }

  /** Text without a fence is only stripped. */
  lemma UnfencedPlain(content: string)
    requires !StartsWith(Strip(content), "```")
    ensures Unfenced(content) == Strip(content)
  {
  }
}

/** The other pure helpers of core/utils.py: the structure check on an
    extracted statement, collecting
    the numbers filed under the figure keys, and the percentage difference
    of two values. */
module Utils {
  import opened Wrappers
  import opened Text
  import opened Json

  // ---------------------------------------------------------------------
  // validate_financial_data_structure

  /** Some item of the asset dictionary is a dictionary with a recorded
      figure. */
  predicate HasRecordedItem(aset: seq<Field>)
  {
    exists i :: 0 <= i < |aset| && aset[i].value.JObj? && "nilai_tercatat" in Keys(aset[i].value.fields)
  }

  /** validate_financial_data_structure: a dictionary whose
      laporan_posisi_keuangan is a dictionary whose aset is a dictionary
      with an item that records a figure. */
  function ValidateFinancialDataStructure(data: Json): (r: bool)
    ensures r <==> var aset := At(data, ["laporan_posisi_keuangan", "aset"]);
                   aset.Some? && aset.value.JObj? && HasRecordedItem(aset.value.fields)
  {
    var path := ["laporan_posisi_keuangan", "aset"];
    assert path[1..] == ["aset"] && path[1..][1..] == [];
    if !data.JObj? then false
    else match Get(data.fields, "laporan_posisi_keuangan")
      case None => false
      case Some(posisi) =>
        if !posisi.JObj? then false
        else match Get(posisi.fields, "aset")
          case Some(JObj(aset)) => HasRecordedItem(aset)
          case _ => false
  }

  // ---------------------------------------------------------------------
  // extract_numerical_values

  /** The keys whose values are collected; their contents are not entered. */
  const NumericKeys: seq<string> := ["nilai_tercatat", "nilai_perhitungan", "total_aset", "total_liabilitas_ekuitas"]

  /** The numbers extract_numerical_values collects from a value, in
      traversal order: dictionaries field by field, lists item by item. */
  function NumericalValues(obj: Json): seq<real>
  {
    match obj
    case JObj(fields) => FieldValues(fields)
    case JArr(items) => ItemValues(items)
    case _ => []
  }

  function FieldValues(fields: seq<Field>): seq<real>
  {
    if fields == [] then []
    else FieldValues(fields[..|fields| - 1]) + FieldValue(fields[|fields| - 1])
  }

  /** A figure key contributes float(value) when that succeeds and nothing
      otherwise; any other key is searched recursively. */
  function FieldValue(f: Field): seq<real>
  {
    if f.key in NumericKeys then
      match PyFloat(f.value)
      case Some(x) => [x]
      case None => []
    else NumericalValues(f.value)
  }

  function ItemValues(items: seq<Json>): seq<real>
  {
    if items == [] then [] else ItemValues(items[..|items| - 1]) + NumericalValues(items[|items| - 1])
  }

  /** extract_numerical_values. */
  method ExtractNumericalValues(data: Json) returns (values: seq<real>)
    ensures values == NumericalValues(data)
  {
    values := ExtractRecursive(data, []);
  }

  /** extract_recursive: appends what it finds to the values collected so
      far. */
  method ExtractRecursive(obj: Json, collected: seq<real>) returns (values: seq<real>)
    ensures values == collected + NumericalValues(obj)
    decreases obj
  {
    values := collected;
    match obj
    case JObj(fields) =>
      var i := 0;
      while i < |fields|
        invariant 0 <= i <= |fields|
        invariant values == collected + FieldValues(fields[..i])
      {
        var f := fields[i];
        assert fields[..i + 1][..i] == fields[..i];
        if f.key in NumericKeys {
          var x := PyFloat(f.value);
          if x.Some? {
            values := values + [x.value];
          }
        } else {
          values := ExtractRecursive(f.value, values);
        }
        i := i + 1;
      }
      assert fields[..i] == fields;
    case JArr(items) =>
      var i := 0;
      while i < |items|
        invariant 0 <= i <= |items|
        invariant values == collected + ItemValues(items[..i])
      {
        assert items[..i + 1][..i] == items[..i];
        values := ExtractRecursive(items[i], values);
        i := i + 1;
      }
      assert items[..i] == items;
    case _ =>
  }

  /** Values come out in traversal order: the fields of a dictionary
      contribute one after the other. */
  lemma {:induction false} FieldValuesConcat(a: seq<Field>, b: seq<Field>)
    ensures FieldValues(a + b) == FieldValues(a) + FieldValues(b)
    decreases |b|
  {
    if b == [] {
      assert a + b == a;
    } else {
      var init := b[..|b| - 1];
      assert (a + b)[..|a + b| - 1] == a + init;
      FieldValuesConcat(a, init);
    }
  }

  /** A figure key yields at most its own converted value, however deeply
      its value nests further figures. */
  lemma FigureKeyNotEntered(key: string, value: Json)
    requires key in NumericKeys
    ensures FieldValues([Field(key, value)]) == if PyFloat(value).Some? then [PyFloat(value).value] else []
  {
    assert [Field(key, value)][..0] == [];
  }

  /** Lists are walked into item by item. */
  lemma {:induction false} ItemValuesConcat(a: seq<Json>, b: seq<Json>)
    ensures ItemValues(a + b) == ItemValues(a) + ItemValues(b)
    decreases |b|
  {
    if b == [] {
      assert a + b == a;
    } else {
      var init := b[..|b| - 1];
      assert (a + b)[..|a + b| - 1] == a + init;
      ItemValuesConcat(a, init);
    }
  }

  // ---------------------------------------------------------------------
  // calculate_percentage_difference

  /** |value1 - value2| / value2 * 100, with 100 or 0 for a zero value2.
      Only the numerator is absolute, so a negative value2 gives a
      negative result. */
  function CalculatePercentageDifference(value1: real, value2: real): (r: real)
    ensures value2 == 0.0 ==> r == if value1 != 0.0 then 100.0 else 0.0
    ensures value2 != 0.0 ==> r * value2 == (if value1 >= value2 then value1 - value2 else value2 - value1) * 100.0
    ensures value1 == value2 ==> r == 0.0
    ensures value2 > 0.0 ==> r >= 0.0
    ensures value2 < 0.0 && value1 != value2 ==> r < 0.0
  {
    if value2 == 0.0 then (if value1 != 0.0 then 100.0 else 0.0)
    else (if value1 >= value2 then value1 - value2 else value2 - value1) / value2 * 100.0
  }
}

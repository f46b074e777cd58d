/**
 * The query string of the component endpoint: the filters object the page
 * sends, and the `URLSearchParams` it builds from it.
 */
module QueryParams {

  import opened JsValues
  import opened ClientFilter

  /** A value of the filters object: a scalar (`Null` for undefined) or an array of strings. */
  datatype FilterValue = Scalar(v: Value) | List(items: seq<string>)

  /** `value !== undefined && value !== null && value !== ''` */
  predicate Present(fv: FilterValue)
  {
    match fv
    case Scalar(v) => v != Null && v != Str("")
    case List(_) => true
  }

  /** The texts one present value appends under its key: each array item, or the scalar's `toString()`. */
  function ParamTexts(fv: FilterValue): (texts: seq<string>)
    ensures fv.List? ==> texts == fv.items
    ensures fv.Scalar? ==> |texts| == 1
  {
    match fv
    case Scalar(v) => [ToText(v)]
    case List(items) => items
  }

  /** The parameters one entry of the filters object contributes. */
  function ParamsOf(key: string, fv: FilterValue): (params: seq<(string, string)>)
    ensures Present(fv) ==> |params| == |ParamTexts(fv)|
    ensures Present(fv) ==> forall i :: 0 <= i < |params| ==> params[i] == (key, ParamTexts(fv)[i])
    ensures !Present(fv) ==> params == []
  {
    if Present(fv) then
      var texts := ParamTexts(fv);
      seq(|texts|, i requires 0 <= i < |texts| => (key, texts[i]))
    else []
  }

  /** The parameters of a whole filters object, entry by entry in order. */
  function QueryOf(entries: seq<(string, FilterValue)>): seq<(string, string)>
    decreases |entries|
  {
    if entries == [] then []
    else
      var last := entries[|entries| - 1];
      QueryOf(entries[..|entries| - 1]) + ParamsOf(last.0, last.1)
  }

  /** The query grows entry by entry: the parameters of `entries[k]` follow those of the entries before it. */
  lemma QueryOfPrefix(entries: seq<(string, FilterValue)>, k: nat)
    requires k < |entries|
    ensures QueryOf(entries[..k + 1]) == QueryOf(entries[..k]) + ParamsOf(entries[k].0, entries[k].1)
  {
    assert entries[..k + 1][..k] == entries[..k];
  }

  /** The query of entries followed by one more. */
  lemma QueryOfSnoc(entries: seq<(string, FilterValue)>, e: (string, FilterValue))
    ensures QueryOf(entries + [e]) == QueryOf(entries) + ParamsOf(e.0, e.1)
  {
    assert (entries + [e])[..|entries|] == entries;
  }

  lemma QueryOfTwo(a: (string, FilterValue), b: (string, FilterValue))
    ensures QueryOf([a, b]) == ParamsOf(a.0, a.1) + ParamsOf(b.0, b.1)
  {
    QueryOfSnoc([], a);
    assert [] + [a] == [a];
    QueryOfSnoc([a], b);
    assert [a] + [b] == [a, b];
  }

  lemma QueryOfThree(a: (string, FilterValue), b: (string, FilterValue), c: (string, FilterValue))
    ensures QueryOf([a, b, c]) == ParamsOf(a.0, a.1) + ParamsOf(b.0, b.1) + ParamsOf(c.0, c.1)
  {
    QueryOfTwo(a, b);
    QueryOfSnoc([a, b], c);
    assert [a, b] + [c] == [a, b, c];
  }

  lemma QueryOfFour(a: (string, FilterValue), b: (string, FilterValue), c: (string, FilterValue), d: (string, FilterValue))
    ensures QueryOf([a, b, c, d]) == ParamsOf(a.0, a.1) + ParamsOf(b.0, b.1) + ParamsOf(c.0, c.1) + ParamsOf(d.0, d.1)
  {
    QueryOfThree(a, b, c);
    QueryOfSnoc([a, b, c], d);
    assert [a, b, c] + [d] == [a, b, c, d];
  }

  lemma QueryOfFive(a: (string, FilterValue), b: (string, FilterValue), c: (string, FilterValue), d: (string, FilterValue),
                    f: (string, FilterValue))
    ensures QueryOf([a, b, c, d, f]) ==
      ParamsOf(a.0, a.1) + ParamsOf(b.0, b.1) + ParamsOf(c.0, c.1) + ParamsOf(d.0, d.1) + ParamsOf(f.0, f.1)
  {
    QueryOfFour(a, b, c, d);
    QueryOfSnoc([a, b, c, d], f);
    assert [a, b, c, d] + [f] == [a, b, c, d, f];
  }

  /** A present scalar appends its `toString()` once. */
  lemma ParamsOfScalar(key: string, v: Value)
    requires Present(Scalar(v))
    ensures ParamsOf(key, Scalar(v)) == [(key, ToText(v))]
  {
  }

  /** The callback of `forEach`: append one entry's parameters to `params`. */
  method AppendEntry(params: seq<(string, string)>, key: string, fv: FilterValue) returns (result: seq<(string, string)>)
    ensures result == params + ParamsOf(key, fv)
  {
    result := params;
    if Present(fv) {
      match fv
      case List(items) =>
        var j := 0;
        while j < |items|
          invariant 0 <= j <= |items|
          invariant |result| == |params| + j
          invariant result[..|params|] == params
          invariant forall k :: 0 <= k < j ==> result[|params| + k] == (key, items[k])
        {
          result := result + [(key, items[j])];
          j := j + 1;
        }
        assert result == params + ParamsOf(key, fv);
      case Scalar(v) =>
        ParamsOfScalar(key, v);
        result := result + [(key, ToText(v))];
    }
  }

  /** `Object.entries(filters).forEach(...)` appending to `URLSearchParams`. */
  method BuildQuery(entries: seq<(string, FilterValue)>) returns (params: seq<(string, string)>)
    ensures params == QueryOf(entries)
  {
    params := [];
    var i := 0;
    while i < |entries|
      invariant 0 <= i <= |entries|
      invariant params == QueryOf(entries[..i])
    {
      var (key, fv) := entries[i];
      QueryOfPrefix(entries, i);
      params := AppendEntry(params, key, fv);
      i := i + 1;
    }
    assert entries[..|entries|] == entries;
  }

  /** The values of `key` in a parameter list, in order (`params.getAll(key)`). */
  function ValuesOf(params: seq<(string, string)>, key: string): seq<string>
    decreases |params|
  {
    if params == [] then []
    else (if params[0].0 == key then [params[0].1] else []) + ValuesOf(params[1..], key)
  }

  lemma {:induction false} ValuesOfAppend(a: seq<(string, string)>, b: seq<(string, string)>, key: string)
    ensures ValuesOf(a + b, key) == ValuesOf(a, key) + ValuesOf(b, key)
    decreases |a|
  {
    if a == [] {
      assert a + b == b;
    } else {
      ValuesOfAppend(a[1..], b, key);
      var head := if a[0].0 == key then [a[0].1] else [];
      assert (a + b)[0] == a[0] && (a + b)[1..] == a[1..] + b;
      assert ValuesOf(a + b, key) == head + (ValuesOf(a[1..], key) + ValuesOf(b, key));
      assert ValuesOf(a, key) == head + ValuesOf(a[1..], key);
    }
  }

  /** A list of parameters that all carry the key `k` gives its texts back under `k` and nothing under any other key. */
  lemma {:induction false} ValuesOfKeyed(params: seq<(string, string)>, k: string, texts: seq<string>, key: string)
    requires |params| == |texts|
    requires forall i :: 0 <= i < |params| ==> params[i] == (k, texts[i])
    ensures ValuesOf(params, key) == if k == key then texts else []
    decreases |params|
  {
    if params != [] {
      ValuesOfKeyed(params[1..], k, texts[1..], key);
      assert texts == [texts[0]] + texts[1..];
    }
  }

  lemma ValuesOfParams(k: string, fv: FilterValue, key: string)
    ensures ValuesOf(ParamsOf(k, fv), key) == if k == key && Present(fv) then ParamTexts(fv) else []
  {
    if Present(fv) {
      ValuesOfKeyed(ParamsOf(k, fv), k, ParamTexts(fv), key);
    }
  }

  /** A key no entry has gets no parameter. */
  lemma {:induction false} QueryValuesOfAbsent(entries: seq<(string, FilterValue)>, key: string)
    requires forall i :: 0 <= i < |entries| ==> entries[i].0 != key
    ensures ValuesOf(QueryOf(entries), key) == []
    decreases |entries|
  {
    if entries != [] {
      var n := |entries|;
      var init := entries[..n - 1];
      var last := entries[n - 1];
      assert forall i :: 0 <= i < n - 1 ==> init[i] == entries[i];
      QueryValuesOfAbsent(init, key);
      ValuesOfAppend(QueryOf(init), ParamsOf(last.0, last.1), key);
      ValuesOfParams(last.0, last.1, key);
    }
  }

  /**
   * Each key of the filters object (keys being distinct) ends up in the
   * query with exactly the texts its value expands to, in order, and a
   * missing, null or empty value leaves no trace.
   */
  lemma {:induction false} QueryValuesOf(entries: seq<(string, FilterValue)>, i: nat)
    requires forall i, j :: 0 <= i < j < |entries| ==> entries[i].0 != entries[j].0
    requires i < |entries|
    ensures ValuesOf(QueryOf(entries), entries[i].0) ==
      if Present(entries[i].1) then ParamTexts(entries[i].1) else []
    decreases |entries|
  {
    var key := entries[i].0;
    var n := |entries|;
    var init := entries[..n - 1];
    var last := entries[n - 1];
    assert forall k :: 0 <= k < n - 1 ==> init[k] == entries[k];
    ValuesOfAppend(QueryOf(init), ParamsOf(last.0, last.1), key);
    ValuesOfParams(last.0, last.1, key);
    if i < n - 1 {
      assert last.0 != key;
      QueryValuesOf(init, i);
    } else {
      QueryValuesOfAbsent(init, key);
    }
  }

  /** The filters `loadInitialData` sends. */
  function InitialFilters(cmCode: string, currentPeriod: string): seq<(string, FilterValue)>
  {
    [ ("cm_code", Scalar(Str(cmCode))),
      ("period_id", Scalar(Or(Str(currentPeriod), Null))),
      ("material_type", Scalar(Str("Packaging"))),
      ("exclude_internal", Scalar(Bool(true))) ]
  }

  /** The filters `handleApplyFilters` sends, from the draft criteria (the SKU filter is not sent). */
  function ApplyFilters(cmCode: string, draft: Criteria): seq<(string, FilterValue)>
  {
    [ ("cm_code", Scalar(Str(cmCode))),
      ("period_id", Scalar(Or(Str(draft.period), Null))),
      ("material_type", Scalar(Or(Str(draft.componentType), Null))),
      ("component_packaging_types", if |draft.packagingTypes| > 0 then List(draft.packagingTypes) else Scalar(Null)),
      ("exclude_internal", Scalar(Bool(draft.excludeInternal))) ]
  }

  /** `[(key, text)]` when `text` is not empty, and nothing otherwise. */
  function Param(key: string, text: string): seq<(string, string)>
  {
    if text == "" then [] else [(key, text)]
  }

  /** A text value appends one parameter, unless it is empty. */
  lemma ParamsOfText(key: string, text: string)
    ensures ParamsOf(key, Scalar(Str(text))) == Param(key, text)
    ensures ParamsOf(key, Scalar(Or(Str(text), Null))) == Param(key, text)
  {
  }

  /**
   * The initial query: the CMO code and the current period when not empty,
   * then the 'Packaging' type and `exclude_internal=true`.
   */
  lemma InitialQuery(cmCode: string, currentPeriod: string)
    ensures QueryOf(InitialFilters(cmCode, currentPeriod)) ==
      Param("cm_code", cmCode) + Param("period_id", currentPeriod) +
      [("material_type", "Packaging"), ("exclude_internal", "true")]
  {
    var e := InitialFilters(cmCode, currentPeriod);
    QueryOfFour(e[0], e[1], e[2], e[3]);
    assert [e[0], e[1], e[2], e[3]] == e;
    ParamsOfText("cm_code", cmCode);
    ParamsOfText("period_id", currentPeriod);
    ParamsOfScalar("material_type", Str("Packaging"));
    ParamsOfScalar("exclude_internal", Bool(true));
  }

  /** `[(key, items[0]), (key, items[1]), ...]` */
  function Repeated(key: string, items: seq<string>): (params: seq<(string, string)>)
    ensures |params| == |items|
    ensures forall i :: 0 <= i < |items| ==> params[i] == (key, items[i])
  {
    seq(|items|, i requires 0 <= i < |items| => (key, items[i]))
  }

  /** An array value appends one parameter per item; the empty array is sent as undefined and appends none. */
  lemma ParamsOfList(key: string, items: seq<string>)
    ensures ParamsOf(key, if |items| > 0 then List(items) else Scalar(Null)) == Repeated(key, items)
  {
  }

  /**
   * The query of an apply: the CMO code, period and component type when not
   * empty, one `component_packaging_types` parameter per selected packaging
   * type in order, and `exclude_internal` always.
   */
  lemma ApplyQuery(cmCode: string, draft: Criteria)
    ensures QueryOf(ApplyFilters(cmCode, draft)) ==
      Param("cm_code", cmCode) + Param("period_id", draft.period) + Param("material_type", draft.componentType) +
      Repeated("component_packaging_types", draft.packagingTypes) +
      [("exclude_internal", if draft.excludeInternal then "true" else "false")]
  {
    var e := ApplyFilters(cmCode, draft);
    QueryOfFive(e[0], e[1], e[2], e[3], e[4]);
    assert [e[0], e[1], e[2], e[3], e[4]] == e;
    ParamsOfText("cm_code", cmCode);
    ParamsOfText("period_id", draft.period);
    ParamsOfText("material_type", draft.componentType);
    ParamsOfList("component_packaging_types", draft.packagingTypes);
    ParamsOfScalar("exclude_internal", Bool(draft.excludeInternal));
  }

}

/**
 * The options of the SKU filter: de-duplicated by SKU code, the first
 * record carrying a code winning. The page builds them in two places: from
 * the component records (`extractUniqueSkus`, keyed on 'SKU Code') and
 * from the SKU list passed in the navigation state (keyed on `sku_code`).
 */
module SkuOptions {

  import opened Wrappers
  import opened JsValues

  /** A dropdown option `{ id, sku_code, sku_description }`. */
  datatype SkuOption = SkuOption(id: Value, code: Value, description: Value)

  /** Where the options are built from. */
  datatype SkuSource = ApiRecords | NavigationState

  /** The property a record's SKU code is read from. */
  function KeyName(source: SkuSource): string
  {
    match source
    case ApiRecords => "SKU Code"
    case NavigationState => "sku_code"
  }

  function Key(source: SkuSource, item: Record): Value
  {
    Get(item, KeyName(source))
  }

  /**
   * The option made from the first record with a given code, at position
   * `index` of the input, when `size` options exist already.
   */
  function MakeOption(source: SkuSource, item: Record, index: nat, size: nat): SkuOption
  {
    match source
    case ApiRecords =>
      SkuOption(Num(size + 1), Key(source, item), Or(Get(item, "SKU Description"), Key(source, item)))
    case NavigationState =>
      SkuOption(Or(Get(item, "id"), Num(index + 1)), Key(source, item),
                Or(Or(Get(item, "sku_description"), Get(item, "description")), Str("No Description")))
  }

  function Codes(options: seq<SkuOption>): (codes: seq<Value>)
    ensures |codes| == |options|
    ensures forall j :: 0 <= j < |options| ==> codes[j] == options[j].code
  {
    seq(|options|, j requires 0 <= j < |options| => options[j].code)
  }

  lemma CodesAppend(options: seq<SkuOption>, o: SkuOption)
    ensures Codes(options + [o]) == Codes(options) + [o.code]
  {
  }

  /** The values of the `Map` after the records of `items`, in insertion order. */
  function UniqueSkus(source: SkuSource, items: seq<Record>): (options: seq<SkuOption>)
    ensures |options| <= |items|
    decreases |items|
  {
    if items == [] then []
    else
      var prev := UniqueSkus(source, items[..|items| - 1]);
      var item := items[|items| - 1];
      var code := Key(source, item);
      if Truthy(code) && code !in Codes(prev) then prev + [MakeOption(source, item, |items| - 1, |prev|)]
      else prev
  }

  /** Record `k` carries a SKU code no earlier record carries. */
  predicate IsFirst(source: SkuSource, items: seq<Record>, k: int)
  {
    0 <= k < |items| && Truthy(Key(source, items[k])) &&
    forall m :: 0 <= m < k ==> Key(source, items[m]) != Key(source, items[k])
  }

  /** Dropping the last record changes which records come first only by dropping the last one. */
  lemma IsFirstInPrefix(source: SkuSource, items: seq<Record>)
    requires items != []
    ensures forall k :: IsFirst(source, items[..|items| - 1], k) <==> k < |items| - 1 && IsFirst(source, items, k)
  {
    var prefix := items[..|items| - 1];
    forall k
      ensures IsFirst(source, prefix, k) <==> k < |items| - 1 && IsFirst(source, items, k)
    {
      if 0 <= k < |items| - 1 {
        assert forall m :: 0 <= m <= k ==> prefix[m] == items[m];
      }
    }
  }

  /** The positions of the records that carry a code first, in increasing order. */
  function FirstOccurrences(source: SkuSource, items: seq<Record>): (ks: seq<int>)
    ensures forall j :: 0 <= j < |ks| ==> IsFirst(source, items, ks[j])
    ensures forall i, j :: 0 <= i < j < |ks| ==> ks[i] < ks[j]
    ensures forall k :: IsFirst(source, items, k) ==> k in ks
    decreases |items|
  {
    if items == [] then []
    else
      var n := |items|;
      var prev := FirstOccurrences(source, items[..n - 1]);
      IsFirstInPrefix(source, items);
      prev + if IsFirst(source, items, n - 1) then [n - 1] else []
  }

  /** Some record carries the truthy code `x`. */
  predicate Carried(source: SkuSource, items: seq<Record>, x: Value)
  {
    Truthy(x) && exists k :: 0 <= k < |items| && Key(source, items[k]) == x
  }

  lemma CarriedInPrefix(source: SkuSource, items: seq<Record>, x: Value)
    requires items != []
    ensures Carried(source, items, x) <==>
      Carried(source, items[..|items| - 1], x) || (Truthy(x) && Key(source, items[|items| - 1]) == x)
  {
    var prefix := items[..|items| - 1];
    if Truthy(x) && exists k :: 0 <= k < |items| && Key(source, items[k]) == x {
      var k :| 0 <= k < |items| && Key(source, items[k]) == x;
      if k < |items| - 1 {
        assert prefix[k] == items[k];
      }
    }
    if Carried(source, prefix, x) {
      var k :| 0 <= k < |prefix| && Key(source, prefix[k]) == x;
      assert items[k] == prefix[k];
    }
  }

  /**
   * The codes of the options are distinct, and they are exactly the truthy
   * codes the records carry.
   */
  lemma {:induction false} UniqueSkusCodes(source: SkuSource, items: seq<Record>)
    ensures var options := UniqueSkus(source, items);
      && |options| <= |items|
      && (forall i, j :: 0 <= i < j < |options| ==> options[i].code != options[j].code)
      && (forall x :: x in Codes(options) <==> Carried(source, items, x))
    decreases |items|
  {
    if items != [] {
      var n := |items|;
      var prefix := items[..n - 1];
      UniqueSkusCodes(source, prefix);
      var prev := UniqueSkus(source, prefix);
      var item := items[n - 1];
      CodesAppend(prev, MakeOption(source, item, n - 1, |prev|));
      forall x {
        CarriedInPrefix(source, items, x);
      }
    }
  }

  /** The last record carries a code first exactly when the options of the records before it lack its code. */
  lemma LastIsFirstWhenNew(source: SkuSource, items: seq<Record>)
    requires items != []
    ensures var n := |items|;
      var code := Key(source, items[n - 1]);
      IsFirst(source, items, n - 1) <==> Truthy(code) && code !in Codes(UniqueSkus(source, items[..n - 1]))
  {
    var n := |items|;
    var prefix := items[..n - 1];
    var code := Key(source, items[n - 1]);
    UniqueSkusCodes(source, prefix);
    if Truthy(code) && code in Codes(UniqueSkus(source, prefix)) {
      var k :| 0 <= k < |prefix| && Key(source, prefix[k]) == code;
      assert items[k] == prefix[k];
    }
    if Truthy(code) && !IsFirst(source, items, n - 1) {
      var m :| 0 <= m < n - 1 && Key(source, items[m]) == code;
      assert prefix[m] == items[m];
      assert Carried(source, prefix, code);
    }
  }

  /** One more record adds an option and a first position exactly when it carries a code first. */
  lemma UniqueSkusStep(source: SkuSource, items: seq<Record>)
    requires items != []
    ensures var n := |items|;
      var prefix := items[..n - 1];
      var prev := UniqueSkus(source, prefix);
      if IsFirst(source, items, n - 1) then
        && UniqueSkus(source, items) == prev + [MakeOption(source, items[n - 1], n - 1, |prev|)]
        && FirstOccurrences(source, items) == FirstOccurrences(source, prefix) + [n - 1]
      else
        && UniqueSkus(source, items) == prev
        && FirstOccurrences(source, items) == FirstOccurrences(source, prefix)
  {
    LastIsFirstWhenNew(source, items);
  }

  /** Option j is made from record `firsts[j]`, as the j-th option. */
  predicate MadeFrom(source: SkuSource, items: seq<Record>, options: seq<SkuOption>, firsts: seq<int>)
  {
    && |options| == |firsts|
    && forall j :: 0 <= j < |options| ==>
         0 <= firsts[j] < |items| && options[j] == MakeOption(source, items[firsts[j]], firsts[j], j)
  }

  /** Options made from the records before the last are made from the same records of the whole input. */
  lemma MadeFromPrefix(source: SkuSource, items: seq<Record>, options: seq<SkuOption>, firsts: seq<int>)
    requires items != []
    requires MadeFrom(source, items[..|items| - 1], options, firsts)
    ensures MadeFrom(source, items, options, firsts)
  {
    var prefix := items[..|items| - 1];
    forall j | 0 <= j < |options|
      ensures options[j] == MakeOption(source, items[firsts[j]], firsts[j], j)
    {
      assert prefix[firsts[j]] == items[firsts[j]];
    }
  }

  /** The option made from the last record, appended as the next option, keeps the relation. */
  lemma MadeFromAppend(source: SkuSource, items: seq<Record>, options: seq<SkuOption>, firsts: seq<int>)
    requires items != []
    requires MadeFrom(source, items, options, firsts)
    ensures var n := |items|;
      MadeFrom(source, items, options + [MakeOption(source, items[n - 1], n - 1, |options|)], firsts + [n - 1])
  {
  }

  /**
   * The options, one per record that carries a code first, in the order of
   * those records: option j is made from the j-th such record.
   */
  lemma UniqueSkusFromFirstOccurrences(source: SkuSource, items: seq<Record>)
    ensures var options := UniqueSkus(source, items);
      var firsts := FirstOccurrences(source, items);
      && |options| == |firsts|
      && forall j :: 0 <= j < |options| ==> options[j] == MakeOption(source, items[firsts[j]], firsts[j], j)
  {
    MadeFromFirstOccurrences(source, items);
  }

  /** The induction behind `UniqueSkusFromFirstOccurrences`, one record at a time. */
  lemma {:induction false} MadeFromFirstOccurrences(source: SkuSource, items: seq<Record>)
    ensures MadeFrom(source, items, UniqueSkus(source, items), FirstOccurrences(source, items))
    decreases |items|
  {
    if items != [] {
      var n := |items|;
      var prefix := items[..n - 1];
      var prev := UniqueSkus(source, prefix);
      var prevFirsts := FirstOccurrences(source, prefix);
      MadeFromFirstOccurrences(source, prefix);
      UniqueSkusStep(source, items);
      MadeFromPrefix(source, items, prev, prevFirsts);
      if IsFirst(source, items, n - 1) {
        MadeFromAppend(source, items, prev, prevFirsts);
      }
    }
  }

  /** The loop of both de-duplications: a `Map` from code to option, filled in record order. */
  method CollectUniqueSkus(source: SkuSource, items: seq<Record>) returns (options: seq<SkuOption>)
    ensures options == UniqueSkus(source, items)
  {
    var seen: set<Value> := {};
    options := [];
    var i := 0;
    while i < |items|
      invariant 0 <= i <= |items|
      invariant options == UniqueSkus(source, items[..i])
      invariant forall x :: x in seen <==> x in Codes(options)
    {
      var code := Key(source, items[i]);
      assert items[..i + 1][..i] == items[..i];
      if Truthy(code) && code !in seen {
        CodesAppend(options, MakeOption(source, items[i], i, |options|));
        options := options + [MakeOption(source, items[i], i, |options|)];
        seen := seen + {code};
      }
      i := i + 1;
    }
    assert items[..|items|] == items;
  }

  /** `extractUniqueSkus(apiData)`: an input that is not an array gives no options. */
  method ExtractUniqueSkus(data: Option<seq<Record>>) returns (options: seq<SkuOption>)
    ensures data.None? ==> options == []
    ensures data.Some? ==> options == UniqueSkus(ApiRecords, data.value)
  {
    if data.None? {
      return [];
    }
    options := CollectUniqueSkus(ApiRecords, data.value);
  }

  /**
   * The options `extractUniqueSkus` builds: distinct truthy codes in
   * first-seen order, ids 1..n, and each description the first record's
   * 'SKU Description', or the code itself when that is falsy.
   */
  lemma ExtractedOptions(items: seq<Record>)
    ensures var options := UniqueSkus(ApiRecords, items);
      var firsts := FirstOccurrences(ApiRecords, items);
      && |options| == |firsts|
      && (forall i, j :: 0 <= i < j < |options| ==> options[i].code != options[j].code)
      && (forall k :: 0 <= k < |items| && Truthy(Get(items[k], "SKU Code")) ==> Get(items[k], "SKU Code") in Codes(options))
      && forall j :: 0 <= j < |options| ==>
           && options[j].id == Num(j + 1)
           && options[j].code == Get(items[firsts[j]], "SKU Code")
           && options[j].description == Or(Get(items[firsts[j]], "SKU Description"), options[j].code)
  {
    UniqueSkusCodes(ApiRecords, items);
    UniqueSkusFromFirstOccurrences(ApiRecords, items);
  }

  /**
   * The options built from the navigation state: one per distinct truthy
   * `sku_code`, from the first entry carrying it, with that entry's `id`
   * (or its position + 1) and `sku_description || description || 'No Description'`.
   */
  lemma NavigationOptions(items: seq<Record>)
    ensures var options := UniqueSkus(NavigationState, items);
      var firsts := FirstOccurrences(NavigationState, items);
      && |options| == |firsts|
      && (forall i, j :: 0 <= i < j < |options| ==> options[i].code != options[j].code)
      && forall j :: 0 <= j < |options| ==>
           && options[j].id == Or(Get(items[firsts[j]], "id"), Num(firsts[j] + 1))
           && options[j].code == Get(items[firsts[j]], "sku_code")
           && Truthy(options[j].description)
  {
    UniqueSkusCodes(NavigationState, items);
    UniqueSkusFromFirstOccurrences(NavigationState, items);
  }

  /**
   * The options `fetchMasterData` makes of the master data's `skus`: one per
   * entry, copied field by field and not de-duplicated.
   */
  function MasterSkuOptions(records: seq<Record>): (options: seq<SkuOption>)
    ensures |options| == |records|
    ensures forall i :: 0 <= i < |records| ==>
      && options[i].id == Get(records[i], "id")
      && options[i].code == Get(records[i], "sku_code")
      && options[i].description == Get(records[i], "sku_description")
  {
    seq(|records|, i requires 0 <= i < |records| =>
      SkuOption(Get(records[i], "id"), Get(records[i], "sku_code"), Get(records[i], "sku_description")))
  }
}

/**
 * The client-side filter (`filteredData`): which rows of the table the page
 * shows, given the applied filter criteria and the packaging-type master data.
 */
module ClientFilter {

  import opened Wrappers
  import opened JsValues
  import opened RowProps
  import opened FieldCatalog
  import opened DisplayRows
  import opened Seqs

  /**
   * One set of filter criteria. The page keeps two: the draft the filter
   * controls edit (`selectedPeriod`, `selectedComponentType`, ...,
   * `selectedFields`) and the applied one the table is filtered by
   * (`appliedPeriod`, ..., `appliedFields`).
   */
  datatype Criteria = Criteria(
    period: string,
    componentType: string,
    packagingTypes: seq<string>,
    skus: seq<string>,
    excludeInternal: bool,
    fields: seq<string>)

  /** An entry of the `component_packaging_type` master data; `item_name_new` may be absent. */
  datatype PackagingType = PackagingType(itemName: Value, itemNameNew: Value)

  /** `v !== undefined && v !== null && v !== ''` */
  predicate HasData(v: Value)
  {
    v != Null && v != Str("")
  }

  /** `fields.some(label => hasData(row[componentFieldValues[label]]))` */
  predicate HasMatchingField(row: Row, fields: seq<string>)
  {
    exists i :: 0 <= i < |fields| && HasData(Field(row, FieldKey(fields[i])))
  }

  /** `list.includes(v)` on an array of strings: strict equality, so only a string is ever found. */
  predicate Includes(list: seq<string>, v: Value)
  {
    v.Str? && v.s in list
  }

  /** `pt.item_name === v || pt.item_name_new === v` */
  predicate MatchesPackaging(pt: PackagingType, v: Value)
  {
    pt.itemName == v || pt.itemNameNew == v
  }

  /** Entry `i` is the first master-data entry that names `v`. */
  predicate IsFirstMatch(pts: seq<PackagingType>, v: Value, i: int)
  {
    0 <= i < |pts| && MatchesPackaging(pts[i], v) && forall j :: 0 <= j < i ==> !MatchesPackaging(pts[j], v)
  }

  /** `componentPackagingTypes.find(...)`: the first master-data entry that names `v`. */
  function FindPackaging(pts: seq<PackagingType>, v: Value): (r: Option<PackagingType>)
    ensures r.None? <==> forall i :: 0 <= i < |pts| ==> !MatchesPackaging(pts[i], v)
    ensures r.Some? ==> exists i :: IsFirstMatch(pts, v, i) && pts[i] == r.value
    decreases |pts|
  {
    if pts == [] then None
    else if MatchesPackaging(pts[0], v) then Some(pts[0])
    else
      var r := FindPackaging(pts[1..], v);
      assert forall i :: 1 <= i < |pts| ==> pts[i] == pts[1..][i - 1];
      r
  }

  /**
   * The packaging-type check: compare the master-data entry's
   * `item_name_new || item_name` when the row's value names one, and the
   * raw value otherwise.
   */
  predicate PackagingMatches(v: Value, selected: seq<string>, pts: seq<PackagingType>)
  {
    match FindPackaging(pts, v)
    case Some(pt) => Includes(selected, Or(pt.itemNameNew, pt.itemName))
    case None => Includes(selected, v)
  }

  /**
   * The filter predicate: a conjunction of guarded checks, so that with no
   * criteria applied every row passes.
   */
  predicate Passes(row: Row, applied: Criteria, pts: seq<PackagingType>)
    ensures (&& applied.fields == [] && applied.componentType == "" && applied.packagingTypes == []
             && applied.skus == [] && !applied.excludeInternal) ==> Passes(row, applied, pts)
  {
    // at least one applied field has data, when fields are applied
    && (|applied.fields| > 0 ==> HasMatchingField(row, applied.fields))
    // the component type, when one is applied and the row has one
    && (applied.componentType != "" && Truthy(Field(row, MaterialType)) ==>
          Field(row, MaterialType) == Str(applied.componentType))
    // the packaging types, when some are applied and the row has one
    && (|applied.packagingTypes| > 0 && Truthy(Field(row, ComponentPackagingTypeId)) ==>
          PackagingMatches(Field(row, ComponentPackagingTypeId), applied.packagingTypes, pts))
    // the SKUs, when some are applied and the row has a SKU code
    && (|applied.skus| > 0 && Truthy(Field(row, SkuCode)) ==> Includes(applied.skus, Field(row, SkuCode)))
    // internal SKUs, whatever the checks above say
    && !(applied.excludeInternal && Field(row, Skutype) == Str("internal"))
  }

  function Keep(applied: Criteria, pts: seq<PackagingType>): Row -> bool
  {
    row => Passes(row, applied, pts)
  }

  /** `filteredData` (and `displayData`, which is the same list). */
  function FilteredData(rows: seq<Row>, applied: Criteria, pts: seq<PackagingType>): (shown: seq<Row>)
    ensures |shown| <= |rows|
    ensures forall i :: 0 <= i < |shown| ==> Passes(shown[i], applied, pts)
  {
    Filter(rows, Keep(applied, pts))
  }

  /**
   * The filtered rows are the rows that pass, in their table order, and no
   * internal SKU survives while internal SKUs are excluded.
   */
  lemma FilteredDataSpec(rows: seq<Row>, applied: Criteria, pts: seq<PackagingType>)
    ensures IsSubsequence(FilteredData(rows, applied, pts), rows)
    ensures forall row :: row in FilteredData(rows, applied, pts) <==> row in rows && Passes(row, applied, pts)
    ensures applied.excludeInternal ==>
      forall row :: row in FilteredData(rows, applied, pts) ==> Field(row, Skutype) != Str("internal")
  {
    FilterIsSubsequence(rows, Keep(applied, pts));
    forall row
      ensures row in FilteredData(rows, applied, pts) <==> row in rows && Passes(row, applied, pts)
    {
      FilterMembership(rows, Keep(applied, pts), row);
    }
  }

  /**
   * A row whose `material_type`, `component_packaging_type_id` or
   * `sku_code` is falsy is not constrained by the corresponding check: the
   * verdict does not depend on what that check was given.
   */
  lemma FalsyFieldsUnconstrained(row: Row, applied: Criteria, pts: seq<PackagingType>,
                                 otherType: string, otherPackaging: seq<string>, otherPts: seq<PackagingType>, otherSkus: seq<string>)
    ensures !Truthy(Field(row, MaterialType)) ==>
      (Passes(row, applied, pts) <==> Passes(row, applied.(componentType := otherType), pts))
    ensures !Truthy(Field(row, ComponentPackagingTypeId)) ==>
      (Passes(row, applied, pts) <==> Passes(row, applied.(packagingTypes := otherPackaging), otherPts))
    ensures !Truthy(Field(row, SkuCode)) ==>
      (Passes(row, applied, pts) <==> Passes(row, applied.(skus := otherSkus), pts))
  {
  }

  /**
   * On a row made by the transform, the field check passes exactly when
   * some applied label is in the catalog: every catalog property of such a
   * row holds a value or '-'.
   */
  lemma FieldCheckOnTransformedRow(item: Record, index: nat, cmCode: string, cmDescription: string, fields: seq<string>)
    ensures HasMatchingField(TransformItem(item, index, cmCode, cmDescription), fields) <==>
      exists j :: 0 <= j < |fields| && fields[j] in ComponentFieldValues
  {
    var row := TransformItem(item, index, cmCode, cmDescription);
    forall j | 0 <= j < |fields|
      ensures HasData(Field(row, FieldKey(fields[j]))) <==> fields[j] in ComponentFieldValues
    {
      var key := FieldKey(fields[j]);
      FieldKeyDefined(fields[j]);
      FieldKeyNotCmo(fields[j]);
      TransformItemFields(item, index, cmCode, cmDescription, key);
      if key != Undefined {
        TransformItemTruthy(item, index, cmCode, cmDescription, key);
      }
    }
  }

  /** Every transformed row is 'Packaging', so any other applied component type hides all of them. */
  lemma OtherComponentTypeHidesTransformedRows(data: seq<Record>, cmCode: string, cmDescription: string,
                                               applied: Criteria, pts: seq<PackagingType>)
    requires applied.componentType != "" && applied.componentType != "Packaging"
    ensures FilteredData(TransformApiResponse(data, cmCode, cmDescription), applied, pts) == []
  {
    var rows := TransformApiResponse(data, cmCode, cmDescription);
    forall i | 0 <= i < |rows|
      ensures !Keep(applied, pts)(rows[i])
    {
      TransformItemIsPackaging(data[i], i, cmCode, cmDescription);
    }
    FilterDropsAll(rows, Keep(applied, pts));
  }
}

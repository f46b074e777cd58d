/**
 * Display rows, and the transform that turns the records of the component
 * endpoint into them (`transformApiResponse`).
 */
module DisplayRows {

  import opened JsValues
  import opened RowProps

  /**
   * A display row: its synthetic id, and the values of its other
   * properties. A property the row does not have reads as undefined.
   */
  datatype Row = Row(id: string, values: map<Prop, Value>)

  /** `row[p]` */
  function Field(row: Row, p: Prop): (v: Value)
    ensures p in row.values ==> v == row.values[p]
    ensures p !in row.values ==> v == Null
  {
    if p in row.values then row.values[p] else Null
  }

  /** The ids of a list of rows, in order (`rows.map(row => row.id)`). */
  function Ids(rows: seq<Row>): (ids: seq<string>)
    ensures |ids| == |rows|
    ensures forall i :: 0 <= i < |rows| ==> ids[i] == rows[i].id
  {
    seq(|rows|, i requires 0 <= i < |rows| => rows[i].id)
  }

  /** No two rows share an id. */
  predicate DistinctIds(rows: seq<Row>)
  {
    forall i, j :: 0 <= i < |rows| && 0 <= j < |rows| && rows[i].id == rows[j].id ==> i == j
  }

  /** Every row is either a SKU row or a component row. */
  predicate AllTyped(rows: seq<Row>)
  {
    forall i :: 0 <= i < |rows| ==> Field(rows[i], Type) == Str("sku") || Field(rows[i], Type) == Str("component")
  }

  /** The row id `api-<n>` given to the record at position `index`. */
  function RowId(index: nat): (id: string)
    ensures |id| > 4 && id[..4] == "api-" && id[4..] == NatToText(index + 1)
  {
    "api-" + NatToText(index + 1)
  }

  /** Records at different positions get different ids. */
  lemma RowIdInjective(i: nat, j: nat)
    requires RowId(i) == RowId(j)
    ensures i == j
  {
    assert RowId(i)[4..] == RowId(j)[4..];
    NatToTextInjective(i + 1, j + 1);
  }

  /** `formatDate(v)` with the date reformatting left out: an absent value gives '-'. */
  function FormatDate(v: Value): Value
  {
    if Truthy(v) then Str(ToText(v)) else Str("-")
  }

  /** `item[key] || '-'` */
  function OrDash(item: Record, key: string): Value
  {
    Or(Get(item, key), Str("-"))
  }

  /** The value the transform writes into property `p` of the row it makes from `item`. */
  function TransformValue(item: Record, p: Prop, cmCode: string, cmDescription: string): Value
  {
    match p
    // SKU-level properties
    case Type => Str(if Truthy(Get(item, "component_code")) then "component" else "sku")
    case SkuCode => OrDash(item, "sku_code")
    case SkuDescription => OrDash(item, "sku_description")
    case SkuReference => OrDash(item, "sku_reference")
    case Skutype => Or(Get(item, "skutype"), Str("external"))
    case BulkExpert => OrDash(item, "formulation_reference")
    case IsApproved => Bool(true)
    case IsActive => Or(Get(item, "sku_is_active"), Bool(true))
    // component-level properties
    case ComponentCode => OrDash(item, "component_code")
    case ComponentDescription => OrDash(item, "component_description")
    case ComponentValidFrom => FormatDate(Get(item, "mapping_valid_from"))
    case ComponentValidTo => FormatDate(Get(item, "mapping_valid_to"))
    case ComponentMaterialGroup => Str("-")
    case ComponentQuantity => OrDash(item, "component_quantity")
    case ComponentUomId => OrDash(item, "component_uom_id")
    case ComponentBaseQuantity => OrDash(item, "component_base_quantity")
    case ComponentBaseUomId => OrDash(item, "component_base_uom_id")
    case PercentWW => OrDash(item, "percent_w_w")
    case Evidence => Str("-")
    case ComponentPackagingTypeId => OrDash(item, "component_packaging_type_id")
    case ComponentPackagingTypeDisplay => OrDash(item, "component_packaging_type_id")
    case ComponentPackagingMaterial => OrDash(item, "Component Packaging Material")
    case ComponentUnitWeight => Str("-")
    case WeightUnitMeasureId => Str("-")
    case PercentMechanicalPcrContent => Str("-")
    case PercentMechanicalPirContent => Str("-")
    case PercentChemicalRecycledContent => Str("-")
    case PercentBioSourced => Str("-")
    case MaterialStructureMultimaterials => Str("-")
    case ComponentPackagingColorOpacity => Str("-")
    case ComponentPackagingLevelId => Str("-")
    case ComponentDimensions => Str("-")
    case PackagingSpecificationEvidence => Str("-")
    case EvidenceOfRecycledOrBioSource => Str("-")
    case LastUpdateDate => Str("-")
    // the CMO context and constant placeholders
    case CmCode => Or(Get(item, "sku_cm_code"), Str(cmCode))
    case CmDescription => Or(Get(item, "cm_description"), Str(cmDescription))
    case PurchasedQuantity => Str("-")
    case SkuReferenceCheck => Str("-")
    case MaterialType => Str("Packaging")
    case MaterialTypeId => Str("Packaging")
    case ComponentsReference => Str("-")
    case HelperColumn => Str("-")
    case Site => OrDash(item, "site")
    case Period => OrDash(item, "period")
    case Undefined => Null
  }

  /** The display row made from the API record at position `index`. */
  function TransformItem(item: Record, index: nat, cmCode: string, cmDescription: string): Row
  {
    Row(RowId(index), map i | 0 <= i < RowPropCount :: PropAt(i) := TransformValue(item, PropAt(i), cmCode, cmDescription))
  }

  /** `transformApiResponse(apiData)`: one row per record, in order. */
  function TransformApiResponse(data: seq<Record>, cmCode: string, cmDescription: string): (rows: seq<Row>)
    ensures |rows| == |data|
  {
    seq(|data|, i requires 0 <= i < |data| => TransformItem(data[i], i, cmCode, cmDescription))
  }

  /** A transformed row has exactly the 45 row properties, each holding the value the transform writes. */
  lemma TransformItemFields(item: Record, index: nat, cmCode: string, cmDescription: string, p: Prop)
    ensures var r := TransformItem(item, index, cmCode, cmDescription);
      && r.id == RowId(index)
      && (p in r.values <==> p != Undefined)
      && Field(r, p) == TransformValue(item, p, cmCode, cmDescription)
  {
    var r := TransformItem(item, index, cmCode, cmDescription);
    if p != Undefined {
      assert PropAt(PropIndex(p)) in r.values;
    } else {
      forall i | 0 <= i < RowPropCount
        ensures PropAt(i) != Undefined
      {
        PropAtIsRowProp(i);
      }
    }
  }

  /** Every transformed row is packaging material. */
  lemma TransformItemIsPackaging(item: Record, index: nat, cmCode: string, cmDescription: string)
    ensures Field(TransformItem(item, index, cmCode, cmDescription), MaterialType) == Str("Packaging")
  {
    TransformItemFields(item, index, cmCode, cmDescription, MaterialType);
  }

  /**
   * The kind of a transformed row follows `component_code`: a row with a
   * component code is a 'component' row and keeps the code, one without is
   * a 'sku' row whose component code reads '-'.
   */
  lemma TransformItemKind(item: Record, index: nat, cmCode: string, cmDescription: string)
    ensures var r := TransformItem(item, index, cmCode, cmDescription);
      && (Field(r, Type) == Str("component") <==> Truthy(Get(item, "component_code")))
      && (Field(r, Type) == Str("sku") <==> !Truthy(Get(item, "component_code")))
      && (Truthy(Get(item, "component_code")) ==> Field(r, ComponentCode) == Get(item, "component_code"))
      && (!Truthy(Get(item, "component_code")) ==> Field(r, ComponentCode) == Str("-"))
  {
    TransformItemFields(item, index, cmCode, cmDescription, Type);
    TransformItemFields(item, index, cmCode, cmDescription, ComponentCode);
  }

  /**
   * The defaults of a transformed row: `skutype` falls back to 'external',
   * and a falsy `sku_code` (absent, null, 0, '') becomes '-'.
   */
  lemma TransformItemDefaults(item: Record, index: nat, cmCode: string, cmDescription: string)
    ensures var r := TransformItem(item, index, cmCode, cmDescription);
      && (Truthy(Get(item, "skutype")) ==> Field(r, Skutype) == Get(item, "skutype"))
      && (!Truthy(Get(item, "skutype")) ==> Field(r, Skutype) == Str("external"))
      && (Truthy(Get(item, "sku_code")) ==> Field(r, SkuCode) == Get(item, "sku_code"))
      && (!Truthy(Get(item, "sku_code")) ==> Field(r, SkuCode) == Str("-"))
  {
    TransformItemFields(item, index, cmCode, cmDescription, Skutype);
    TransformItemFields(item, index, cmCode, cmDescription, SkuCode);
  }

  /**
   * Every property of a transformed row other than `cm_code` and
   * `cm_description` is truthy: absent values have been replaced by '-',
   * 'external', `true` or 'Packaging'.
   */
  lemma TransformItemTruthy(item: Record, index: nat, cmCode: string, cmDescription: string, p: Prop)
    requires p != Undefined && p != CmCode && p != CmDescription
    ensures Truthy(Field(TransformItem(item, index, cmCode, cmDescription), p))
  {
    TransformItemFields(item, index, cmCode, cmDescription, p);
    var from := Get(item, "mapping_valid_from");
    var to := Get(item, "mapping_valid_to");
    if Truthy(from) {
      ToTextOfTruthy(from);
    }
    if Truthy(to) {
      ToTextOfTruthy(to);
    }
  }

  /**
   * The rows of `transformApiResponse`: row i is made from record i and has
   * id `api-<i+1>`, so the ids are pairwise distinct, and every row is
   * typed 'sku' or 'component'.
   */
  lemma TransformRows(data: seq<Record>, cmCode: string, cmDescription: string)
    ensures var rows := TransformApiResponse(data, cmCode, cmDescription);
      && (forall i :: 0 <= i < |data| ==> rows[i] == TransformItem(data[i], i, cmCode, cmDescription) && rows[i].id == RowId(i))
      && DistinctIds(rows)
      && AllTyped(rows)
  {
    var rows := TransformApiResponse(data, cmCode, cmDescription);
    forall i, j | 0 <= i < |rows| && 0 <= j < |rows| && rows[i].id == rows[j].id
      ensures i == j
    {
      RowIdInjective(i, j);
    }
    forall i | 0 <= i < |rows|
      ensures Field(rows[i], Type) == Str("sku") || Field(rows[i], Type) == Str("component")
    {
      TransformItemKind(data[i], i, cmCode, cmDescription);
    }
  }
}

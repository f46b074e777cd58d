/**
 * The fixed catalog of the 22 component attributes: the database key of
 * each, its display label, the two lookup tables between them, the
 * 13-entry default field list, and the PDF column-width table.
 */
module FieldCatalog {

  import opened ObjectLiterals
  import opened RowProps

  /** The database keys of the component attributes, in catalog order. */
  const ComponentFields: seq<Prop> := [
    ComponentCode,
    ComponentDescription,
    ComponentValidFrom,
    ComponentValidTo,
    ComponentQuantity,
    ComponentUomId,
    ComponentBaseQuantity,
    ComponentBaseUomId,
    ComponentPackagingTypeId,
    ComponentPackagingMaterial,
    ComponentUnitWeight,
    WeightUnitMeasureId,
    PercentMechanicalPcrContent,
    ComponentsReference,
    ComponentMaterialGroup,
    PercentWW,
    PercentMechanicalPirContent,
    PercentChemicalRecycledContent,
    PercentBioSourced,
    MaterialStructureMultimaterials,
    ComponentPackagingLevelId,
    ComponentDimensions
  ]

  /** Key to display label (`componentFieldLabels`), as the entries of its object literal. */
  const LabelEntries: seq<(Prop, string)> := [
    (ComponentCode, "Component Code"),
    (ComponentDescription, "Component Description"),
    (ComponentValidFrom, "Component validity date - From"),
    (ComponentValidTo, "Component validity date - To"),
    (ComponentQuantity, "Component Qty"),
    (ComponentUomId, "Component UoM"),
    (ComponentBaseQuantity, "Component Base Qty"),
    (ComponentBaseUomId, "Component Base UoM"),
    (ComponentPackagingTypeId, "Component Packaging Type"),
    (ComponentPackagingMaterial, "Component Packaging Material"),
    (ComponentUnitWeight, "Component Unit Weight"),
    (WeightUnitMeasureId, "Weight Unit of Measure"),
    (PercentMechanicalPcrContent, "% Mechanical Post-Consumer Recycled Content (inc. Chemical)"),
    (ComponentsReference, "Component reference"),
    (ComponentMaterialGroup, "Component Material Group (Category)"),
    (PercentWW, "%w/w"),
    (PercentMechanicalPirContent, "% Mechanical Post-Industrial Recycled Content"),
    (PercentChemicalRecycledContent, "% Chemical Recycled Content"),
    (PercentBioSourced, "% Bio-sourced?"),
    (MaterialStructureMultimaterials, "Material structure - multimaterials only (with % wt)"),
    (ComponentPackagingLevelId, "Component packaging level"),
    (ComponentDimensions, "Component dimensions (3D - LxWxH, 2D - LxW)")
  ]

  /** Display label to key (`componentFieldValues`): the reverse table, written out separately in the page. */
  const ValueEntries: seq<(string, Prop)> := [
    ("Component Code", ComponentCode),
    ("Component Description", ComponentDescription),
    ("Component validity date - From", ComponentValidFrom),
    ("Component validity date - To", ComponentValidTo),
    ("Component Qty", ComponentQuantity),
    ("Component UoM", ComponentUomId),
    ("Component Base Qty", ComponentBaseQuantity),
    ("Component Base UoM", ComponentBaseUomId),
    ("Component Packaging Type", ComponentPackagingTypeId),
    ("Component Packaging Material", ComponentPackagingMaterial),
    ("Component Unit Weight", ComponentUnitWeight),
    ("Weight Unit of Measure", WeightUnitMeasureId),
    ("% Mechanical Post-Consumer Recycled Content (inc. Chemical)", PercentMechanicalPcrContent),
    ("Component reference", ComponentsReference),
    ("Component Material Group (Category)", ComponentMaterialGroup),
    ("%w/w", PercentWW),
    ("% Mechanical Post-Industrial Recycled Content", PercentMechanicalPirContent),
    ("% Chemical Recycled Content", PercentChemicalRecycledContent),
    ("% Bio-sourced?", PercentBioSourced),
    ("Material structure - multimaterials only (with % wt)", MaterialStructureMultimaterials),
    ("Component packaging level", ComponentPackagingLevelId),
    ("Component dimensions (3D - LxWxH, 2D - LxW)", ComponentDimensions)
  ]

  /** The fields shown before the user chooses any, and restored when none are chosen. */
  const DefaultFields: seq<string> := [
    "Component Code",
    "Component Description",
    "Component validity date - From",
    "Component validity date - To",
    "Component Qty",
    "Component UoM",
    "Component Base Qty",
    "Component Base UoM",
    "Component Packaging Type",
    "Component Packaging Material",
    "Component Unit Weight",
    "Weight Unit of Measure",
    "% Mechanical Post-Consumer Recycled Content (inc. Chemical)"
  ]

  /** The most display fields a user may choose at once. */
  const MaxFields: nat := 15

  /** The four columns every PDF table starts with. */
  const FixedHeaders: seq<string> := ["SKU Code", "SKU Description", "CMO Code", "CMO Description"]

  /** Widths of the four fixed columns, in the order of `FixedHeaders`. */
  const FixedWidths: seq<int> := [25, 35, 20, 30]

  /** Width used for a field label the width table does not list. */
  const FallbackWidth: int := 25

  /** PDF column widths of the component fields, by display label (`componentFieldWidths`). */
  const WidthEntries: seq<(string, int)> := [
    ("Component Code", 25),
    ("Component Description", 40),
    ("Component validity date - From", 30),
    ("Component validity date - To", 30),
    ("Component Qty", 20),
    ("Component UoM", 20),
    ("Component Base Qty", 25),
    ("Component Base UoM", 25),
    ("Component Packaging Type", 35),
    ("Component Packaging Material", 35),
    ("Component Unit Weight", 25),
    ("Weight Unit of Measure", 30),
    ("% Mechanical Post-Consumer Recycled Content (inc. Chemical)", 50),
    ("Component reference", 25),
    ("Component Material Group (Category)", 35),
    ("%w/w", 15),
    ("% Mechanical Post-Industrial Recycled Content", 45),
    ("% Chemical Recycled Content", 30),
    ("% Bio-sourced?", 20),
    ("Material structure - multimaterials only (with % wt)", 50),
    ("Component packaging level", 30),
    ("Component dimensions (3D - LxWxH, 2D - LxW)", 40)
  ]

  const ComponentFieldLabels: map<Prop, string> := MapOf(LabelEntries)
  const ComponentFieldValues: map<string, Prop> := MapOf(ValueEntries)
  const ComponentFieldWidths: map<string, int> := MapOf(WidthEntries)

  /**
   * `catalog[label]` used as a property name: a label outside the table
   * gives `undefined`, which JavaScript turns into the property name "undefined".
   */
  function KeyIn(catalog: map<string, Prop>, fieldLabel: string): Prop
  {
    if fieldLabel in catalog then catalog[fieldLabel] else Undefined
  }

  /** `componentFieldValues[label]` used as a property name. */
  function FieldKey(fieldLabel: string): (key: Prop)
    ensures fieldLabel in ComponentFieldValues ==> key == ComponentFieldValues[fieldLabel]
    ensures fieldLabel !in ComponentFieldValues ==> key == Undefined
  {
    KeyIn(ComponentFieldValues, fieldLabel)
  }

  /** `componentFieldWidths[label] || 25` */
  function WidthOf(fieldLabel: string): (w: int)
    ensures fieldLabel in ComponentFieldWidths ==> w == ComponentFieldWidths[fieldLabel]
    ensures fieldLabel !in ComponentFieldWidths ==> w == FallbackWidth
  {
    if fieldLabel in ComponentFieldWidths then ComponentFieldWidths[fieldLabel] else FallbackWidth
  }

  /** The 22 catalog keys are distinct, and they are the keys of the label table, in order. */
  lemma CatalogKeys()
    ensures |ComponentFields| == 22 && Distinct(ComponentFields)
    ensures Firsts(LabelEntries) == ComponentFields
  {
  }

  /** The 22 labels are distinct, and they are the keys of the reverse table, in order. */
  lemma CatalogLabels()
    ensures |ValueEntries| == 22 && Distinct(Firsts(ValueEntries))
    ensures forall i :: 0 <= i < 22 ==> ValueEntries[i] == (LabelEntries[i].1, LabelEntries[i].0)
  {
  }

  /** The label table and the reverse table both have exactly 22 entries, and the label table is keyed by the catalog keys. */
  lemma FieldMapsSize()
    ensures |ComponentFieldLabels| == 22 && |ComponentFieldValues| == 22
    ensures ComponentFieldLabels.Keys == set k | k in ComponentFields
  {
    CatalogKeys();
    CatalogLabels();
    MapOfCardinality(LabelEntries);
    MapOfCardinality(ValueEntries);
  }

  /**
   * The label and reverse tables are mutual inverses: every key's label
   * leads back to the key, and every label's key back to the label.
   */
  lemma FieldMapsAreInverse()
    ensures forall k :: k in ComponentFieldLabels ==>
      ComponentFieldLabels[k] in ComponentFieldValues && ComponentFieldValues[ComponentFieldLabels[k]] == k
    ensures forall l :: l in ComponentFieldValues ==>
      ComponentFieldValues[l] in ComponentFieldLabels && ComponentFieldLabels[ComponentFieldValues[l]] == l
  {
    CatalogKeys();
    CatalogLabels();
    InverseTables(LabelEntries, ValueEntries);
  }

  /** The default field list is the first 13 catalog labels, so each is in the catalog, and it is within the limit. */
  lemma DefaultFieldsInCatalog()
    ensures |DefaultFields| == 13 <= MaxFields
    ensures Distinct(DefaultFields)
    ensures forall l :: l in DefaultFields ==> l in ComponentFieldValues
  {
    CatalogLabels();
    assert forall i :: 0 <= i < 13 ==> DefaultFields[i] == ValueEntries[i].0;
  }

  /** The width table lists exactly the catalog labels. */
  lemma WidthTableCoversCatalog()
    ensures ComponentFieldWidths.Keys == ComponentFieldValues.Keys
  {
    assert Firsts(WidthEntries) == Firsts(ValueEntries);
  }

  /** Every catalog key is a property of a row, and neither of the CMO properties. */
  lemma CatalogKeysAreRowData()
    ensures Undefined !in ComponentFields
    ensures CmCode !in ComponentFields && CmDescription !in ComponentFields
  {
  }

  /** The reverse table leads from a label to one of the catalog keys. */
  lemma CatalogValueIsKey(fieldLabel: string)
    requires fieldLabel in ComponentFieldValues
    ensures ComponentFieldValues[fieldLabel] in ComponentFields
  {
    MapOfValuesFromEntries(ValueEntries, fieldLabel);
    var j :| 0 <= j < |ValueEntries| && ValueEntries[j] == (fieldLabel, ComponentFieldValues[fieldLabel]);
    CatalogKeys();
    CatalogLabels();
    assert ValueEntries[j].1 == LabelEntries[j].0 == Firsts(LabelEntries)[j];
  }

  /** Only a label outside the catalog leads to the property name "undefined". */
  lemma FieldKeyDefined(fieldLabel: string)
    ensures FieldKey(fieldLabel) != Undefined <==> fieldLabel in ComponentFieldValues
  {
    if fieldLabel in ComponentFieldValues {
      CatalogValueIsKey(fieldLabel);
      CatalogKeysAreRowData();
    }
  }

  /** No label leads to the CMO properties of a row. */
  lemma FieldKeyNotCmo(fieldLabel: string)
    ensures FieldKey(fieldLabel) != CmCode && FieldKey(fieldLabel) != CmDescription
  {
    if fieldLabel in ComponentFieldValues {
      CatalogValueIsKey(fieldLabel);
      CatalogKeysAreRowData();
    }
  }

  /** Every column width lies between 15 and 50, the fallback included. */
  lemma WidthBounds(fieldLabel: string)
    ensures 15 <= WidthOf(fieldLabel) <= 50
  {
    if fieldLabel in ComponentFieldWidths {
      MapOfValuesFromEntries(WidthEntries, fieldLabel);
      assert forall j :: 0 <= j < |WidthEntries| ==> 15 <= WidthEntries[j].1 <= 50;
    }
  }
}

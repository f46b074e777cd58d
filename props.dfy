/**
 * The property names of a display row other than `id`, as an enumeration.
 *
 * A display row is a JavaScript object that the page reads both by fixed
 * name (`row.sku_code`) and by a name computed at run time
 * (`row[componentFieldValues[label]]`). Every row the page builds has the
 * same 45 properties besides `id`; `Undefined` is the property name
 * `"undefined"`, which is what the computed lookup produces for a label
 * outside the field catalog, and which no row has.
 */
module RowProps {

  datatype Prop =
    | Type  // type
    | SkuCode  // sku_code
    | SkuDescription  // sku_description
    | SkuReference  // sku_reference
    | Skutype  // skutype
    | BulkExpert  // bulk_expert
    | IsApproved  // is_approved
    | IsActive  // is_active
    | ComponentCode  // component_code
    | ComponentDescription  // component_description
    | ComponentValidFrom  // component_valid_from
    | ComponentValidTo  // component_valid_to
    | ComponentMaterialGroup  // component_material_group
    | ComponentQuantity  // component_quantity
    | ComponentUomId  // component_uom_id
    | ComponentBaseQuantity  // component_base_quantity
    | ComponentBaseUomId  // component_base_uom_id
    | PercentWW  // percent_w_w
    | Evidence  // evidence
    | ComponentPackagingTypeId  // component_packaging_type_id
    | ComponentPackagingTypeDisplay  // component_packaging_type_display
    | ComponentPackagingMaterial  // component_packaging_material
    | ComponentUnitWeight  // component_unit_weight
    | WeightUnitMeasureId  // weight_unit_measure_id
    | PercentMechanicalPcrContent  // percent_mechanical_pcr_content
    | PercentMechanicalPirContent  // percent_mechanical_pir_content
    | PercentChemicalRecycledContent  // percent_chemical_recycled_content
    | PercentBioSourced  // percent_bio_sourced
    | MaterialStructureMultimaterials  // material_structure_multimaterials
    | ComponentPackagingColorOpacity  // component_packaging_color_opacity
    | ComponentPackagingLevelId  // component_packaging_level_id
    | ComponentDimensions  // component_dimensions
    | PackagingSpecificationEvidence  // packaging_specification_evidence
    | EvidenceOfRecycledOrBioSource  // evidence_of_recycled_or_bio_source
    | LastUpdateDate  // last_update_date
    | CmCode  // cm_code
    | CmDescription  // cm_description
    | PurchasedQuantity  // purchased_quantity
    | SkuReferenceCheck  // sku_reference_check
    | MaterialType  // material_type
    | MaterialTypeId  // material_type_id
    | ComponentsReference  // components_reference
    | HelperColumn  // helper_column
    | Site  // site
    | Period  // period
    | Undefined  // undefined

  /** The number of properties a display row has besides `id`. */
  const RowPropCount: nat := 45

  /** The position of a property in the order the row transform writes them. */
  function PropIndex(p: Prop): (i: nat)
    ensures p != Undefined <==> i < RowPropCount
    ensures PropAt(i) == p
  {
    match p
    case Type => 0
    case SkuCode => 1
    case SkuDescription => 2
    case SkuReference => 3
    case Skutype => 4
    case BulkExpert => 5
    case IsApproved => 6
    case IsActive => 7
    case ComponentCode => 8
    case ComponentDescription => 9
    case ComponentValidFrom => 10
    case ComponentValidTo => 11
    case ComponentMaterialGroup => 12
    case ComponentQuantity => 13
    case ComponentUomId => 14
    case ComponentBaseQuantity => 15
    case ComponentBaseUomId => 16
    case PercentWW => 17
    case Evidence => 18
    case ComponentPackagingTypeId => 19
    case ComponentPackagingTypeDisplay => 20
    case ComponentPackagingMaterial => 21
    case ComponentUnitWeight => 22
    case WeightUnitMeasureId => 23
    case PercentMechanicalPcrContent => 24
    case PercentMechanicalPirContent => 25
    case PercentChemicalRecycledContent => 26
    case PercentBioSourced => 27
    case MaterialStructureMultimaterials => 28
    case ComponentPackagingColorOpacity => 29
    case ComponentPackagingLevelId => 30
    case ComponentDimensions => 31
    case PackagingSpecificationEvidence => 32
    case EvidenceOfRecycledOrBioSource => 33
    case LastUpdateDate => 34
    case CmCode => 35
    case CmDescription => 36
    case PurchasedQuantity => 37
    case SkuReferenceCheck => 38
    case MaterialType => 39
    case MaterialTypeId => 40
    case ComponentsReference => 41
    case HelperColumn => 42
    case Site => 43
    case Period => 44
    case Undefined => RowPropCount
  }

  /** The property at a position; positions past the last one give `Undefined`. */
  function PropAt(i: nat): Prop
  {
    match i
    case 0 => Type
    case 1 => SkuCode
    case 2 => SkuDescription
    case 3 => SkuReference
    case 4 => Skutype
    case 5 => BulkExpert
    case 6 => IsApproved
    case 7 => IsActive
    case 8 => ComponentCode
    case 9 => ComponentDescription
    case 10 => ComponentValidFrom
    case 11 => ComponentValidTo
    case 12 => ComponentMaterialGroup
    case 13 => ComponentQuantity
    case 14 => ComponentUomId
    case 15 => ComponentBaseQuantity
    case 16 => ComponentBaseUomId
    case 17 => PercentWW
    case 18 => Evidence
    case 19 => ComponentPackagingTypeId
    case 20 => ComponentPackagingTypeDisplay
    case 21 => ComponentPackagingMaterial
    case 22 => ComponentUnitWeight
    case 23 => WeightUnitMeasureId
    case 24 => PercentMechanicalPcrContent
    case 25 => PercentMechanicalPirContent
    case 26 => PercentChemicalRecycledContent
    case 27 => PercentBioSourced
    case 28 => MaterialStructureMultimaterials
    case 29 => ComponentPackagingColorOpacity
    case 30 => ComponentPackagingLevelId
    case 31 => ComponentDimensions
    case 32 => PackagingSpecificationEvidence
    case 33 => EvidenceOfRecycledOrBioSource
    case 34 => LastUpdateDate
    case 35 => CmCode
    case 36 => CmDescription
    case 37 => PurchasedQuantity
    case 38 => SkuReferenceCheck
    case 39 => MaterialType
    case 40 => MaterialTypeId
    case 41 => ComponentsReference
    case 42 => HelperColumn
    case 43 => Site
    case 44 => Period
    case _ => Undefined
  }

  /** Every position of a row property holds a real property, never `Undefined`. */
  lemma PropAtIsRowProp(i: nat)
    requires i < RowPropCount
    ensures PropAt(i) != Undefined
  {
  }
}

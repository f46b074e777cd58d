/**
 * The state of the Generate PDF page and its handlers: the draft and
 * applied filter criteria, the table data and the row selection, the SKU
 * and master-data options, the error line and the two dialogs. A network
 * call is split in two: the handler that starts it returns the query it
 * sends, and an `On...` method takes the response and updates the state.
 */
module GeneratePdfPage {

  import opened Wrappers
  import opened JsValues
  import opened FieldCatalog
  import opened DisplayRows
  import opened Seqs
  import opened ClientFilter
  import Selection
  import opened SkuOptions
  import QueryParams
  import opened Periods
  import opened RetryPolicy
  import opened PdfExport

  /** The filter criteria the page starts with: any period, 'Packaging', no packaging type, internal SKUs excluded. */
  function DefaultCriteria(period: string, fields: seq<string>): Criteria
  {
    Criteria(period, "Packaging", [], [], true, fields)
  }

  /** Putting the default filters back, leaving the SKUs and the fields as they are. */
  function ResetCriteria(c: Criteria): Criteria
  {
    c.(period := "", componentType := "Packaging", packagingTypes := [], excludeInternal := true)
  }

  class Page {
    /** `cmCode` and `cmDescription` from the URL (empty when absent). */
    const cmCode: string
    const cmDescription: string

    /** What the filter controls hold (`selectedPeriod`, ..., `selectedFields`). */
    var draft: Criteria
    /** What the table is filtered by (`appliedPeriod`, ..., `appliedFields`). */
    var applied: Criteria
    var tableData: seq<Row>
    var selectedRows: seq<string>
    var skus: seq<SkuOption>
    var periods: seq<Period>
    var currentPeriod: string
    var packagingTypes: seq<PackagingType>
    var error: Option<string>
    var showNoDataModal: bool
    var showMaxSelectionModal: bool
    var isFilterApplied: bool

    /**
     * At most 15 fields are chosen or applied; no SKU is ever chosen (the
     * SKU control is commented out) or applied; the table's rows have
     * distinct ids and a type; and the periods are sorted with the most
     * recent first.
     */
    predicate Valid()
      reads this`draft, this`applied, this`tableData, this`periods
    {
      && |draft.fields| <= MaxFields
      && |applied.fields| <= MaxFields
      && draft.skus == []
      && applied.skus == []
      && DistinctIds(tableData)
      && AllTyped(tableData)
      && SortedDesc(periods)
    }

    /** `displayData`: the table filtered by the applied criteria. */
    function Display(): seq<Row>
      reads this`tableData, this`applied, this`packagingTypes
    {
      FilteredData(tableData, applied, packagingTypes)
    }

    /** The "select all" checkbox. */
    predicate AllRowsSelected()
      reads this`tableData, this`applied, this`packagingTypes, this`selectedRows
    {
      Selection.AllSelected(Display(), selectedRows)
    }

    /** The page as it mounts, before any data has arrived. */
    constructor(cmCode: string, cmDescription: string)
      ensures this.cmCode == cmCode && this.cmDescription == cmDescription
      ensures draft == DefaultCriteria("", DefaultFields) && applied == draft
      ensures tableData == [] && selectedRows == [] && skus == [] && periods == []
      ensures currentPeriod == "" && packagingTypes == [] && error == None
      ensures !showNoDataModal && !showMaxSelectionModal && isFilterApplied
      ensures Valid()
    {
      this.cmCode := cmCode;
      this.cmDescription := cmDescription;
      draft := DefaultCriteria("", DefaultFields);
      applied := DefaultCriteria("", DefaultFields);
      tableData := [];
      selectedRows := [];
      skus := [];
      periods := [];
      currentPeriod := "";
      packagingTypes := [];
      error := None;
      showNoDataModal := false;
      showMaxSelectionModal := false;
      isFilterApplied := true;
      DefaultFieldsInCatalog();
    }

    /** `handleSelectAll(checked)`: tick every shown row, or none. */
    method SelectAll(checked: bool)
      modifies this`selectedRows
      ensures selectedRows == Selection.SelectAll(Display(), checked)
      ensures AllRowsSelected() <==> |Display()| > 0
    {
      selectedRows := Selection.SelectAll(Display(), checked);
      Selection.AllSelectedCases(Display(), old(selectedRows), "");
    }

    /** `handleRowSelect(id, checked)` */
    method RowSelect(id: string, checked: bool)
      modifies this`selectedRows
      ensures selectedRows == Selection.RowSelect(old(selectedRows), id, checked)
      ensures checked ==> id in selectedRows
      ensures !checked ==> id !in selectedRows
    {
      selectedRows := Selection.RowSelect(selectedRows, id, checked);
      if !checked {
        Selection.RemoveIdSpec(old(selectedRows), id);
      }
    }

    /** `handleFieldSelection(fields)`: more than 15 fields opens the limit dialog instead. */
    method SelectFields(fields: seq<string>)
      requires Valid()
      modifies this`draft, this`showMaxSelectionModal
      ensures |fields| > MaxFields ==> showMaxSelectionModal && draft == old(draft)
      ensures |fields| <= MaxFields ==> draft == old(draft).(fields := fields) && showMaxSelectionModal == old(showMaxSelectionModal)
      ensures Valid()
    {
      if |fields| > MaxFields {
        showMaxSelectionModal := true;
      } else {
        draft := draft.(fields := fields);
      }
    }

    /** The component type select. */
    method SetDraftComponentType(componentType: string)
      requires Valid()
      modifies this`draft
      ensures draft == old(draft).(componentType := componentType)
      ensures Valid()
    {
      draft := draft.(componentType := componentType);
    }

    /** The component packaging type multi-select. */
    method SetDraftPackagingTypes(packagingTypes: seq<string>)
      requires Valid()
      modifies this`draft
      ensures draft == old(draft).(packagingTypes := packagingTypes)
      ensures Valid()
    {
      draft := draft.(packagingTypes := packagingTypes);
    }

    /** The "exclude internal" checkbox. */
    method SetDraftExcludeInternal(excludeInternal: bool)
      requires Valid()
      modifies this`draft
      ensures draft == old(draft).(excludeInternal := excludeInternal)
      ensures Valid()
    {
      draft := draft.(excludeInternal := excludeInternal);
    }

    /** `handleCloseModal` */
    method CloseNoDataModal()
      modifies this`showNoDataModal
      ensures !showNoDataModal
    {
      showNoDataModal := false;
    }

    /** `handleCloseMaxSelectionModal` */
    method CloseMaxSelectionModal()
      modifies this`showMaxSelectionModal
      ensures !showMaxSelectionModal
    {
      showMaxSelectionModal := false;
    }

    /**
     * `handleResetFilters`: both criteria back to the defaults (SKUs and
     * fields kept), no row ticked, the table emptied, and the initial data
     * requested again with the current period.
     */
    method Reset() returns (query: seq<(string, string)>)
      requires Valid()
      modifies this`draft, this`applied, this`selectedRows, this`tableData, this`error
      ensures draft == ResetCriteria(old(draft)) && applied == ResetCriteria(old(applied))
      ensures selectedRows == [] && tableData == [] && error == None
      ensures query == QueryParams.QueryOf(QueryParams.InitialFilters(cmCode, currentPeriod))
      ensures Display() == [] && !AllRowsSelected()
      ensures Valid()
    {
      draft := ResetCriteria(draft);
      applied := ResetCriteria(applied);
      selectedRows := [];
      tableData := [];
      error := None;
      query := QueryParams.BuildQuery(QueryParams.InitialFilters(cmCode, currentPeriod));
    }

    /**
     * `handleApplyFilters`: the draft becomes the applied criteria (the SKU
     * filter stays unapplied), and the filtered data is requested with the
     * draft's filters.
     */
    method Apply() returns (query: seq<(string, string)>)
      requires Valid()
      modifies this`applied, this`isFilterApplied, this`error
      ensures applied == old(draft).(skus := old(applied.skus))
      ensures isFilterApplied && error == None
      ensures query == QueryParams.QueryOf(QueryParams.ApplyFilters(cmCode, draft))
      ensures Valid()
    {
      applied := draft.(skus := applied.skus);
      isFilterApplied := true;
      error := None;
      query := QueryParams.BuildQuery(QueryParams.ApplyFilters(cmCode, draft));
    }

    /**
     * The start of an attempt of any of the three loads, a scheduled retry
     * included: the error line is cleared. The success callbacks below leave
     * it as it is, as the page's success branches do.
     */
    method BeginLoad()
      modifies this`error
      ensures error == None
    {
      error := None;
    }

    /**
     * A successful `loadInitialData`: the table and the SKU options are
     * rebuilt from the records, the default fields are chosen if none were,
     * every row is ticked, and the applied criteria record the defaults the
     * query used. Every shown row is then ticked.
     */
    method OnInitialDataLoaded(data: seq<Record>)
      requires Valid()
      modifies this`tableData, this`skus, this`draft, this`applied, this`selectedRows
      ensures tableData == TransformApiResponse(data, cmCode, cmDescription)
      ensures skus == UniqueSkus(ApiRecords, data)
      ensures var fields := if |old(draft.fields)| == 0 then DefaultFields else old(applied.fields);
        && draft == (if |old(draft.fields)| == 0 then old(draft).(fields := DefaultFields) else old(draft))
        && applied == old(applied).(period := currentPeriod, componentType := "Packaging", excludeInternal := true, fields := fields)
      ensures selectedRows == Ids(tableData)
      ensures AllRowsSelected() <==> |Display()| > 0
      ensures SelectedData(Display(), selectedRows) == Display()
      ensures Valid()
    {
      OnFilteredDataLoaded(data);
      if |draft.fields| == 0 {
        DefaultFieldsInCatalog();
        draft := draft.(fields := DefaultFields);
        applied := applied.(fields := DefaultFields);
      }
      selectedRows := Ids(tableData);
      applied := applied.(period := currentPeriod, componentType := "Packaging", excludeInternal := true);
      TableSelectionCoversDisplay(tableData, applied, packagingTypes);
    }

    /**
     * A successful `fetchFilteredComponents`: the table and the SKU options
     * are rebuilt from the records and nothing else changes. The initial load
     * starts the same way.
     */
    method OnFilteredDataLoaded(data: seq<Record>)
      requires Valid()
      modifies this`tableData, this`skus
      ensures tableData == TransformApiResponse(data, cmCode, cmDescription)
      ensures skus == UniqueSkus(ApiRecords, data)
      ensures Valid()
    {
      var rows := TransformApiResponse(data, cmCode, cmDescription);
      TransformRows(data, cmCode, cmDescription);
      tableData := rows;
      skus := ExtractUniqueSkus(Some(data));
    }

    /**
     * A successful `fetchMasterData`; each part is `None` when the response
     * lacks it. The periods are processed and sorted, and the most recent one
     * becomes the current, chosen and applied period; `reloads` says whether
     * the current period changed to a non-empty one, which makes the page
     * load its initial data.
     */
    method OnMasterDataLoaded(rawPeriods: Option<seq<RawPeriod>>, pts: Option<seq<PackagingType>>,
                              masterSkus: Option<seq<Record>>) returns (reloads: bool)
      requires Valid()
      modifies this`periods, this`currentPeriod, this`draft, this`applied, this`packagingTypes, this`skus
      ensures periods == if rawPeriods.Some? then LatestFirst(rawPeriods.value) else old(periods)
      ensures var latest := if rawPeriods.Some? then CurrentPeriod(periods) else None;
        && (latest.Some? ==>
              && currentPeriod == latest.value
              && draft == old(draft).(period := latest.value)
              && applied == old(applied).(period := latest.value))
        && (latest.None? ==> currentPeriod == old(currentPeriod) && draft == old(draft) && applied == old(applied))
      ensures packagingTypes == if pts.Some? then pts.value else old(packagingTypes)
      ensures skus == if masterSkus.Some? then MasterSkuOptions(masterSkus.value) else old(skus)
      ensures reloads <==> currentPeriod != old(currentPeriod) && currentPeriod != ""
      ensures Valid()
    {
      var previous := currentPeriod;
      if rawPeriods.Some? {
        SetPeriods(rawPeriods.value);
      }
      SetLists(pts, masterSkus);
      reloads := currentPeriod != previous && currentPeriod != "";
    }

    /** The packaging-type and SKU parts of `fetchMasterData`: each list present replaces the old one. */
    method SetLists(pts: Option<seq<PackagingType>>, masterSkus: Option<seq<Record>>)
      modifies this`packagingTypes, this`skus
      ensures packagingTypes == if pts.Some? then pts.value else old(packagingTypes)
      ensures skus == if masterSkus.Some? then MasterSkuOptions(masterSkus.value) else old(skus)
    {
      if pts.Some? {
        packagingTypes := pts.value;
      }
      if masterSkus.Some? {
        skus := MasterSkuOptions(masterSkus.value);
      }
    }

    /** The periods part of `fetchMasterData`. */
    method SetPeriods(raws: seq<RawPeriod>)
      requires Valid()
      modifies this`periods, this`currentPeriod, this`draft, this`applied
      ensures periods == LatestFirst(raws)
      ensures var latest := CurrentPeriod(periods);
        && (latest.Some? ==>
              && currentPeriod == latest.value
              && draft == old(draft).(period := latest.value)
              && applied == old(applied).(period := latest.value))
        && (latest.None? ==> currentPeriod == old(currentPeriod) && draft == old(draft) && applied == old(applied))
      ensures Valid()
    {
      var sorted := LatestFirst(raws);
      periods := sorted;
      if |sorted| > 0 {
        var latest := IntToText(sorted[0].id);
        currentPeriod := latest;
        draft := draft.(period := latest);
        applied := applied.(period := latest);
      }
    }

    /**
     * A failed load, on attempt `retryCount + 1`: the error line shows the
     * retry notice or the final error, and a load of the initial data whose
     * `catch` block gives up clears the SKU options (a thrown error, or the
     * TypeError of a non-string reported message).
     */
    method OnLoadFailed(loader: Loader, failure: Failure, retryCount: nat) returns (decision: Decision)
      modifies this`error, this`skus
      ensures decision == Decide(loader, failure, retryCount)
      ensures decision.RetryAfter? ==> error == decision.notice
      ensures decision.GiveUp? ==> error == Some(ErrorMessage(loader, decision.reason))
      ensures skus == if loader == InitialData && Handled(loader, failure).Thrown? && decision.GiveUp? then [] else old(skus)
    {
      decision := Decide(loader, failure, retryCount);
      match decision
      case RetryAfter(_, notice) =>
        error := notice;
      case GiveUp(reason) =>
        error := Some(ErrorMessage(loader, reason));
        if loader == InitialData && Handled(loader, failure).Thrown? {
          skus := [];
        }
    }

    /** The SKU list of the navigation state, when it is an array, de-duplicated into the SKU options. */
    method OnNavigationSkus(skuData: Option<seq<Record>>)
      modifies this`skus
      ensures skus == if skuData.Some? then UniqueSkus(NavigationState, skuData.value) else old(skus)
    {
      if skuData.Some? {
        skus := CollectUniqueSkus(NavigationState, skuData.value);
      }
    }

    /** `handleGeneratePDF`: nothing ticked opens the "no data" dialog; otherwise the export runs. */
    method GeneratePdf() returns (outcome: ExportOutcome)
      modifies this`showNoDataModal
      ensures outcome == Export(Display(), selectedRows, applied.fields, cmCode, cmDescription)
      ensures showNoDataModal == (outcome == NoRowsSelected || old(showNoDataModal))
    {
      outcome := GenerateReport(Display(), selectedRows, applied.fields, cmCode, cmDescription);
      if outcome == NoRowsSelected {
        showNoDataModal := true;
      }
    }
  }

  /**
   * An initial load that fails transiently, is retried and then succeeds
   * leaves no error shown: the retry notice is cleared when the retry starts.
   */
  method RetriedInitialLoad(p: Page, failure: Failure, data: seq<Record>)
    requires p.Valid() && Transient(InitialData, failure)
    modifies p
    ensures p.error == None
    ensures p.tableData == TransformApiResponse(data, p.cmCode, p.cmDescription)
  {
    var decision := p.OnLoadFailed(InitialData, failure, 0);
    assert decision.RetryAfter? && decision.notice.Some?;
    p.BeginLoad();
    p.OnInitialDataLoaded(data);
  }

  /**
   * Ticking every row of the table ticks every shown row: the "select all"
   * checkbox is on exactly when some row is shown, and the export takes
   * every shown row.
   */
  lemma TableSelectionCoversDisplay(rows: seq<Row>, applied: Criteria, pts: seq<PackagingType>)
    ensures var display := FilteredData(rows, applied, pts);
      && (Selection.AllSelected(display, Ids(rows)) <==> |display| > 0)
      && SelectedData(display, Ids(rows)) == display
  {
    var display := FilteredData(rows, applied, pts);
    FilteredDataSpec(rows, applied, pts);
    forall i | 0 <= i < |display|
      ensures IsSelected(Ids(rows))(display[i])
    {
      assert display[i] in display;
      var k :| 0 <= k < |rows| && rows[k] == display[i];
      assert Ids(rows)[k] == display[i].id;
    }
    FilterKeepsAll(display, IsSelected(Ids(rows)));
  }
}

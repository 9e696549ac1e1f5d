/**
 * The reusable data table (`GenericTableComponent`): which rows the text and
 * select filters let through, how the filter state is set up and rebuilt, and
 * the CSS class and icon chosen for chip and status cells.
 */
module GenericTable {
  import opened Base
  import opened JsStrings

  datatype ColumnType = Text | Number | Currency | Chip | Status | Date

  datatype TableColumn = TableColumn(
    key: string,
    caption: string,   // `label`
    kind: Option<ColumnType>,
    sortable: Option<bool>,
    width: Option<string>,
    chipColors: Option<map<string, string>>)

  datatype FilterOption = FilterOption(key: string, caption: string, options: seq<string>)

  /** A cell value as the table receives it; a key missing from a row is `undefined`. */
  datatype Cell = Str(s: string) | Num(n: int) | Bool(b: bool) | Null

  type Row = map<string, Cell>

  /** The value of the select filters meaning "no restriction". */
  const AllValues: string := "Todos"

  /** JavaScript truthiness of a cell. */
  predicate Truthy(c: Cell) {
    match c
    case Str(s) => s != ""
    case Num(n) => n != 0
    case Bool(b) => b
    case Null => false
  }

  /** `value.toString()` */
  function CellText(c: Cell): string {
    match c
    case Str(s) => s
    case Num(n) => IntToString(n)
    case Bool(b) => if b then "true" else "false"
    case Null => "null"
  }

  /** The filter the data source holds, before its JSON round trip. */
  datatype Filter = Filter(text: string, selects: map<string, string>)

  /** `value && value.toString().toLowerCase().includes(searchText)` for the cell under `key`. */
  predicate CellMatches(row: Row, key: string, searchText: string) {
    key in row && Truthy(row[key]) && Includes(Lower(CellText(row[key])), searchText)
  }

  /** `filterValue === 'Todos' || data[filterKey] === filterValue` */
  predicate SelectHolds(row: Row, key: string, value: string) {
    value == AllValues || (key in row && row[key] == Str(value))
  }

  /** A row is shown when some column matches the lower-cased text (if any) and every select holds. */
  ghost predicate Passes(columns: seq<TableColumn>, row: Row, filter: Filter) {
    && (filter.text != "" ==> exists i :: 0 <= i < |columns| && CellMatches(row, columns[i].key, Lower(filter.text)))
    && (forall k :: k in filter.selects ==> SelectHolds(row, k, filter.selects[k]))
  }

  /** `this.columns.some(...)`: whether some column's cell contains the search text. */
  method SomeColumnMatches(columns: seq<TableColumn>, row: Row, searchText: string) returns (matchesText: bool)
    ensures matchesText <==> exists j :: 0 <= j < |columns| && CellMatches(row, columns[j].key, searchText)
  {
    matchesText := false;
    var i := 0;
    while i < |columns| && !matchesText
      invariant 0 <= i <= |columns|
      invariant !matchesText ==> forall j :: 0 <= j < i ==> !CellMatches(row, columns[j].key, searchText)
      invariant matchesText ==> 0 < i && CellMatches(row, columns[i - 1].key, searchText)
    {
      matchesText := CellMatches(row, columns[i].key, searchText);
      i := i + 1;
    }
    if matchesText {
      assert CellMatches(row, columns[i - 1].key, searchText);
    }
  }

  /** `for (const filterKey in parsedFilter.selects)`: whether every select holds, stopping at the first that fails. */
  method SelectsHold(row: Row, selects: map<string, string>) returns (ok: bool)
    ensures ok <==> forall k :: k in selects ==> SelectHolds(row, k, selects[k])
  {
    var pending := selects.Keys;
    while exists k :: k in pending
      invariant pending <= selects.Keys
      invariant forall k :: k in selects && k !in pending ==> SelectHolds(row, k, selects[k])
      decreases pending
    {
      var k :| k in pending;
      var v := selects[k];
      if v != AllValues && !(k in row && row[k] == Str(v)) {
        return false;
      }
      pending := pending - {k};
    }
    return true;
  }

  /** The data source's `filterPredicate`. */
  method FilterPredicate(columns: seq<TableColumn>, row: Row, filter: Filter) returns (pass: bool)
    ensures pass == Passes(columns, row, filter)
  {
    if filter.text != "" {
      var matchesText := SomeColumnMatches(columns, row, Lower(filter.text));
      if !matchesText {
        return false;
      }
    }
    pass := SelectsHold(row, filter.selects);
  }

  /** With no text and every select at "Todos", every row is shown. */
  lemma ClearedFilterPassesAll(columns: seq<TableColumn>, row: Row, selects: map<string, string>)
    requires forall k :: k in selects ==> selects[k] == AllValues
    ensures Passes(columns, row, Filter("", selects))
  {
  }

  /** A text filter never shows a row whose cells none contain the text, nor hides a cell match. */
  lemma TextFilterIff(columns: seq<TableColumn>, row: Row, text: string)
    requires text != ""
    ensures Passes(columns, row, Filter(text, map[])) <==>
      exists i :: 0 <= i < |columns| && columns[i].key in row && Truthy(row[columns[i].key])
                  && Includes(Lower(CellText(row[columns[i].key])), Lower(text))
  {
  }

  /** Shortening the search text (to a non-empty part of it) can only let more rows through. */
  lemma NarrowerTextShowsFewer(columns: seq<TableColumn>, row: Row, longer: string, shorter: string, selects: map<string, string>)
    requires shorter != "" && Includes(Lower(longer), Lower(shorter))
    requires Passes(columns, row, Filter(longer, selects))
    ensures Passes(columns, row, Filter(shorter, selects))
  {
    assert longer != "";
    var i :| 0 <= i < |columns| && CellMatches(row, columns[i].key, Lower(longer));
    IncludesTransitive(Lower(CellText(row[columns[i].key])), Lower(longer), Lower(shorter));
    assert CellMatches(row, columns[i].key, Lower(shorter));
  }

  /** Falsy cells never match the text, whatever it is. */
  lemma FalsyCellNeverMatches(row: Row, key: string, searchText: string)
    requires key !in row || !Truthy(row[key])
    ensures !CellMatches(row, key, searchText)
  {
  }

  /** `columns.map(col => col.key)` */
  function ColumnKeys(columns: seq<TableColumn>): (r: seq<string>)
    ensures |r| == |columns|
    ensures forall i :: 0 <= i < |r| ==> r[i] == columns[i].key
  {
    seq(|columns|, i requires 0 <= i < |columns| => columns[i].key)
  }

  /** The keys of the filter options. */
  function OptionKeys(options: seq<FilterOption>): set<string> {
    set i | 0 <= i < |options| :: options[i].key
  }

  /** `getChipClass(column, value)` */
  function GetChipClass(column: TableColumn, value: string): (r: string)
    ensures column.chipColors.Some? && value in column.chipColors.value && column.chipColors.value[value] != "" ==>
      r == column.chipColors.value[value]
    ensures !(column.chipColors.Some? && value in column.chipColors.value && column.chipColors.value[value] != "") ==>
      if column.kind == Some(Status) then
        (r == "status-active" <==> value == "Activo") && (r != "status-active" ==> r == "status-inactive")
      else
        && r == "chip-" + ReplaceSpaceRuns(Lower(value), '-')
        && StartsWith(r, "chip-") && forall i :: |"chip-"| <= i < |r| ==> !IsSpace(r[i])
  {
    if column.chipColors.Some? && value in column.chipColors.value && column.chipColors.value[value] != "" then
      column.chipColors.value[value]
    else if column.kind == Some(Status) then
      if value == "Activo" then "status-active" else "status-inactive"
    else
      var suffix := ReplaceSpaceRuns(Lower(value), '-');
      assert ("chip-" + suffix)[..5] == "chip-";
      "chip-" + suffix
  }

  /** Without custom colours or a status column, a value with no whitespace gives `chip-` and its lower case. */
  lemma ChipClassOfPlainValue(column: TableColumn, value: string)
    requires column.chipColors.None? && column.kind != Some(Status)
    requires forall i :: 0 <= i < |value| ==> !IsSpace(value[i])
    ensures GetChipClass(column, value) == "chip-" + Lower(value)
  {
    forall i | 0 <= i < |Lower(value)| ensures !IsSpace(Lower(value)[i]) {
      LowerPreservesSpace(value[i]);
    }
  }

  /**
   * A plain column maps a small-letter word, a whitespace run and another
   * small-letter word to `chip-`, the first word, one hyphen and the second.
   */
  lemma ChipClassOfRun(column: TableColumn, p: string, w: string, t: string)
    requires column.chipColors.None? && column.kind != Some(Status)
    requires forall k :: 0 <= k < |p| ==> !IsSpace(p[k]) && !IsUpper(p[k])
    requires w != [] && forall k :: 0 <= k < |w| ==> IsSpace(w[k])
    requires forall k :: 0 <= k < |t| ==> !IsSpace(t[k]) && !IsUpper(t[k])
    ensures GetChipClass(column, p + w + t) == "chip-" + p + "-" + t
  {
    ReplaceSpaceRunsOfSmallRun(p, w, t, '-');
  }

  /** `getStatusIcon(value)` */
  function GetStatusIcon(value: string): (r: string)
    ensures r == "check_circle" <==> value == "Activo"
    ensures r != "check_circle" ==> r == "cancel"
  {
    if value == "Activo" then "check_circle" else "cancel"
  }

  /** The inputs that changed, with their new values. */
  datatype Changes = Changes(columns: Option<seq<TableColumn>>, data: Option<seq<Row>>, filterOptions: Option<seq<FilterOption>>)

  class GenericTableComponent {
    var columns: seq<TableColumn>
    var data: seq<Row>
    var filterOptions: seq<FilterOption>
    var displayedColumns: seq<string>
    /** `dataSource.data` */
    var tableData: seq<Row>
    /** `dataSource.filter`; `None` is the empty filter string a new data source starts with. */
    var filter: Option<Filter>
    var selectedFilters: map<string, string>

    /** The component with its inputs bound. */
    constructor (columns: seq<TableColumn>, data: seq<Row>, filterOptions: seq<FilterOption>)
      ensures this.columns == columns && this.data == data && this.filterOptions == filterOptions
      ensures displayedColumns == [] && tableData == [] && filter == None && selectedFilters == map[]
    {
      this.columns, this.data, this.filterOptions := columns, data, filterOptions;
      displayedColumns, tableData, filter, selectedFilters := [], [], None, map[];
    }

    /** `initializeFilters()`: every option key set to "Todos", other keys kept. */
    method InitializeFilters()
      modifies this
      ensures selectedFilters.Keys == old(selectedFilters).Keys + OptionKeys(filterOptions)
      ensures forall k :: k in OptionKeys(filterOptions) ==> selectedFilters[k] == AllValues
      ensures forall k :: k in old(selectedFilters) && k !in OptionKeys(filterOptions) ==>
        selectedFilters[k] == old(selectedFilters)[k]
      ensures columns == old(columns) && data == old(data) && filterOptions == old(filterOptions)
      ensures displayedColumns == old(displayedColumns) && tableData == old(tableData) && filter == old(filter)
    {
      var i := 0;
      while i < |filterOptions|
        invariant 0 <= i <= |filterOptions|
        invariant selectedFilters.Keys == old(selectedFilters).Keys + OptionKeys(filterOptions[..i])
        invariant forall k :: k in OptionKeys(filterOptions[..i]) ==> selectedFilters[k] == AllValues
        invariant forall k :: k in old(selectedFilters) && k !in OptionKeys(filterOptions[..i]) ==>
          selectedFilters[k] == old(selectedFilters)[k]
        invariant columns == old(columns) && data == old(data) && filterOptions == old(filterOptions)
        invariant displayedColumns == old(displayedColumns) && tableData == old(tableData) && filter == old(filter)
      {
        assert OptionKeys(filterOptions[..i + 1]) == OptionKeys(filterOptions[..i]) + {filterOptions[i].key} by {
          assert forall j :: 0 <= j < i ==> filterOptions[..i + 1][j] == filterOptions[..i][j];
        }
        selectedFilters := selectedFilters[filterOptions[i].key := AllValues];
        i := i + 1;
      }
      assert filterOptions[..i] == filterOptions;
    }

    /** `ngOnInit()`: the displayed keys, the data and the select defaults. */
    method NgOnInit()
      modifies this
      ensures displayedColumns == ColumnKeys(columns) && tableData == data
      ensures selectedFilters.Keys == old(selectedFilters).Keys + OptionKeys(filterOptions)
      ensures forall k :: k in OptionKeys(filterOptions) ==> selectedFilters[k] == AllValues
      ensures forall k :: k in old(selectedFilters) && k !in OptionKeys(filterOptions) ==>
        selectedFilters[k] == old(selectedFilters)[k]
      ensures columns == old(columns) && data == old(data) && filterOptions == old(filterOptions) && filter == old(filter)
    {
      displayedColumns := ColumnKeys(columns);
      tableData := data;
      InitializeFilters();
    }

    /** `ngOnChanges(changes)`: each changed input is rebound and its derived state rebuilt. */
    method NgOnChanges(changes: Changes)
      modifies this
      ensures columns == changes.columns.GetOr(old(columns))
      ensures data == changes.data.GetOr(old(data))
      ensures filterOptions == changes.filterOptions.GetOr(old(filterOptions))
      ensures displayedColumns == if changes.columns.Some? then ColumnKeys(columns) else old(displayedColumns)
      ensures tableData == if changes.data.Some? then data else old(tableData)
      ensures changes.filterOptions.None? ==> selectedFilters == old(selectedFilters)
      ensures changes.filterOptions.Some? ==>
        && selectedFilters.Keys == old(selectedFilters).Keys + OptionKeys(filterOptions)
        && (forall k :: k in OptionKeys(filterOptions) ==> selectedFilters[k] == AllValues)
        && (forall k :: k in old(selectedFilters) && k !in OptionKeys(filterOptions) ==>
              selectedFilters[k] == old(selectedFilters)[k])
      ensures filter == old(filter)
    {
      columns := changes.columns.GetOr(columns);
      data := changes.data.GetOr(data);
      filterOptions := changes.filterOptions.GetOr(filterOptions);
      if changes.columns.Some? {
        displayedColumns := ColumnKeys(columns);
      }
      if changes.data.Some? {
        tableData := data;
      }
      if changes.filterOptions.Some? {
        InitializeFilters();
      }
    }

    /** `applyFilters()`: no text, a copy of the current selects. */
    method ApplyFilters()
      modifies this
      ensures filter == Some(Filter("", selectedFilters))
      ensures selectedFilters == old(selectedFilters) && columns == old(columns) && data == old(data)
      ensures filterOptions == old(filterOptions) && displayedColumns == old(displayedColumns) && tableData == old(tableData)
    {
      filter := Some(Filter("", selectedFilters));
    }

    /** `clearFilters()`: the option keys back to "Todos", then `applyFilters()`. */
    method ClearFilters()
      modifies this
      ensures filter == Some(Filter("", selectedFilters))
      ensures selectedFilters.Keys == old(selectedFilters).Keys + OptionKeys(filterOptions)
      ensures forall k :: k in OptionKeys(filterOptions) ==> selectedFilters[k] == AllValues
      ensures forall k :: k in old(selectedFilters) && k !in OptionKeys(filterOptions) ==>
        selectedFilters[k] == old(selectedFilters)[k]
      ensures columns == old(columns) && data == old(data) && filterOptions == old(filterOptions)
      ensures displayedColumns == old(displayedColumns) && tableData == old(tableData)
    {
      InitializeFilters();
      ApplyFilters();
    }

    /** `applyTextFilter(event)` for the input's current value. */
    method ApplyTextFilter(inputValue: string)
      modifies this
      ensures filter == Some(Filter(Lower(Trim(inputValue)), selectedFilters))
      ensures selectedFilters == old(selectedFilters) && columns == old(columns) && data == old(data)
      ensures filterOptions == old(filterOptions) && displayedColumns == old(displayedColumns) && tableData == old(tableData)
    {
      filter := Some(Filter(Lower(Trim(inputValue)), selectedFilters));
    }
  }
}

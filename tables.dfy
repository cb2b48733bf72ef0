/** The tables page: each table joined with its area's name and its cart's
    state, the section tabs, the occupancy counts, the section/search filter,
    and the two small form rules (a new area's name and a table form's default
    area). Cart totals are integer minor units. */
module Tables {
  import opened Common

  datatype Area = Area(id: int, name: string)

  /** The open cart of a table; `totalAmount` is None when the backend sends no
      total (null or an empty string). */
  datatype Shopcart = Shopcart(totalAmount: Option<int>)

  datatype Table = Table(id: int, name: string, tableAreaId: Option<int>, activeShopcart: Option<Shopcart>)

  datatype TableStatus = Occupied | Empty

  datatype TableView = TableView(table: Table, section: string, status: TableStatus, total: int)

  /** A section tab: 'all' or one area id, with its caption. */
  datatype SectionTab = SectionTab(id: IdChoice, caption: string)

  const Unassigned := "Tan\U{0131}mlanmam\U{0131}\U{015F}"   // "Tanımlanmamış"
  const AllLabel := "T\U{00FC}m\U{00FC}"                      // "Tümü"

  // ---------------------------------------------------------------------------
  // getTableWithAreaName.

  /** The first area whose id is the table's area id (find with ===; a table
      without an area id matches none). */
  function AreaIndex(areas: seq<Area>, t: Table): (k: nat)
    ensures k <= |areas|
    ensures k < |areas| ==> t.tableAreaId == Some(areas[k].id)
    ensures forall j :: 0 <= j < k ==> t.tableAreaId != Some(areas[j].id)
  {
    FindIndex(areas, (a: Area) => t.tableAreaId == Some(a.id))
  }

  /** The table as the page shows it: occupied exactly when it has an open
      cart; its total is the cart's total, or 0 without one; its section is
      the name of its area, or "Tanımlanmamış" when no area matches or the
      name is empty. */
  function WithAreaName(areas: seq<Area>, t: Table): (v: TableView)
    ensures v.table == t
    ensures v.status == Occupied <==> t.activeShopcart.Some?
    ensures v.total == (if t.activeShopcart.Some? && t.activeShopcart.value.totalAmount.Some?
                        then t.activeShopcart.value.totalAmount.value else 0)
    ensures (forall a :: a in areas ==> t.tableAreaId != Some(a.id)) ==> v.section == Unassigned
    ensures v.section != Unassigned ==> exists a :: a in areas && t.tableAreaId == Some(a.id) && v.section == a.name
    ensures var k := AreaIndex(areas, t);
      v.section == (if k < |areas| && areas[k].name != "" then areas[k].name else Unassigned)
  {
    var k := AreaIndex(areas, t);
    var section := if k < |areas| && areas[k].name != "" then areas[k].name else Unassigned;
    assert k < |areas| ==> areas[k] in areas;
    var total := if t.activeShopcart.Some? && t.activeShopcart.value.totalAmount.Some?
                 then t.activeShopcart.value.totalAmount.value else 0;
    TableView(t, section, if t.activeShopcart.Some? then Occupied else Empty, total)
  }

  function WithAreaNames(areas: seq<Area>, tables: seq<Table>): (r: seq<TableView>)
    ensures |r| == |tables|
    ensures forall k :: 0 <= k < |tables| ==> r[k] == WithAreaName(areas, tables[k])
  {
    seq(|tables|, k requires 0 <= k < |tables| => WithAreaName(areas, tables[k]))
  }

  // ---------------------------------------------------------------------------
  // sections.

  /** 'all' first, then one tab per area, in area order, labelled by name. */
  function Sections(areas: seq<Area>): (r: seq<SectionTab>)
    ensures |r| == |areas| + 1
    ensures r[0] == SectionTab(All, AllLabel)
    ensures forall k :: 0 <= k < |areas| ==> r[k + 1] == SectionTab(Id(areas[k].id), areas[k].name)
  {
    [SectionTab(All, AllLabel)] +
      seq(|areas|, k requires 0 <= k < |areas| => SectionTab(Id(areas[k].id), areas[k].name))
  }

  // ---------------------------------------------------------------------------
  // Statistics.

  function TotalTables(views: seq<TableView>): nat {
    |views|
  }

  function OccupiedTables(views: seq<TableView>): nat {
    |Filter(views, (v: TableView) => v.status == Occupied)|
  }

  function CartCount(tables: seq<Table>): nat {
    if tables == [] then 0
    else (if tables[0].activeShopcart.Some? then 1 else 0) + CartCount(tables[1..])
  }

  /** The occupied count is the number of tables with an open cart, and never
      exceeds the table count. */
  lemma {:induction false} OccupiedCount(areas: seq<Area>, tables: seq<Table>)
    ensures OccupiedTables(WithAreaNames(areas, tables)) == CartCount(tables)
    ensures OccupiedTables(WithAreaNames(areas, tables)) <= TotalTables(WithAreaNames(areas, tables)) == |tables|
  {
    if tables != [] {
      OccupiedCount(areas, tables[1..]);
      var vs := WithAreaNames(areas, tables);
      assert vs[1..] == WithAreaNames(areas, tables[1..]);
    }
  }

  // ---------------------------------------------------------------------------
  // filteredTables.

  predicate MatchesSection(v: TableView, section: IdChoice) {
    section.All? || v.table.tableAreaId == Some(section.id)
  }

  predicate MatchesSearch(v: TableView, query: string) {
    Contains(Lower(v.table.name), Lower(query)) || Contains(Lower(v.section), Lower(query))
  }

  /** A table is listed exactly when it is in the chosen section and the
      query occurs, ignoring case, in its name or its section name; the list
      keeps the table order. */
  function FilteredTables(views: seq<TableView>, section: IdChoice, query: string): (r: seq<TableView>)
    ensures IsSubsequence(r, views)
    ensures forall v :: v in r <==> v in views && MatchesSection(v, section) && MatchesSearch(v, query)
    ensures forall v :: multiset(r)[v] == (if MatchesSection(v, section) && MatchesSearch(v, query) then multiset(views)[v] else 0)
  {
    FilterCounts(views, (v: TableView) => MatchesSection(v, section) && MatchesSearch(v, query));
    Filter(views, (v: TableView) => MatchesSection(v, section) && MatchesSearch(v, query))
  }

  /** With 'all' and an empty query every table is listed. */
  lemma UnfilteredListsAll(views: seq<TableView>)
    ensures forall v :: v in FilteredTables(views, All, "") <==> v in views
  {
    forall v | v in views {
      ContainsEmpty(Lower(v.table.name));
    }
  }

  // ---------------------------------------------------------------------------
  // CreateAreaModal.handleSubmit.

  /** A trimmed string is empty exactly when the string is all white space,
      and otherwise neither starts nor ends with white space. */
  lemma TrimProperties(s: string)
    ensures Trim(s) == [] <==> forall i :: 0 <= i < |s| ==> IsJsSpace(s[i])
    ensures Trim(s) != [] ==> !IsJsSpace(Trim(s)[0]) && !IsJsSpace(Trim(s)[|Trim(s)| - 1])
  {
    var t := TrimStart(s);
    var r := TrimEnd(t);
    if r == [] {
      forall i | 0 <= i < |s| ensures IsJsSpace(s[i]) {
        if i >= |s| - |t| {
          assert s[i] == t[i - (|s| - |t|)];
        }
      }
    } else {
      assert r[0] == t[0];
      assert s[|s| - |t|] == t[0];
    }
  }

  /** The name passed on when an area is created: nothing for a blank or
      white-space-only name, otherwise the name without surrounding white
      space. */
  function AreaSubmission(areaName: string): (r: Option<string>)
    ensures r.None? <==> forall i :: 0 <= i < |areaName| ==> IsJsSpace(areaName[i])
    ensures r.Some? ==> r.value == Trim(areaName) && r.value != []
    ensures r.Some? ==> !IsJsSpace(r.value[0]) && !IsJsSpace(r.value[|r.value| - 1])
  {
    TrimProperties(areaName);
    if Trim(areaName) == [] then None else Some(Trim(areaName))
  }

  // ---------------------------------------------------------------------------
  // TableFormSidebar defaults.

  datatype TableForm = TableForm(name: string, tableAreaId: Option<int>)

  /** The form's starting values: the edited table's name (empty for a new
      table) and its area id; a new table, or one whose area id is missing or
      0 (falsy), takes the first area's id, and no id at all when there is no
      area or that id is 0 too. */
  function DefaultForm(table: Option<Table>, areas: seq<Area>): (r: TableForm)
    ensures r.name == (if table.Some? then table.value.name else "")
    ensures r.tableAreaId.Some? ==> r.tableAreaId.value != 0
    ensures table.Some? && table.value.tableAreaId.Some? && table.value.tableAreaId.value != 0 ==>
      r.tableAreaId == table.value.tableAreaId
    ensures !(table.Some? && table.value.tableAreaId.Some? && table.value.tableAreaId.value != 0) ==>
      r.tableAreaId == (if areas != [] && areas[0].id != 0 then Some(areas[0].id) else None)
    ensures r.tableAreaId.Some? ==> (table.Some? && r.tableAreaId == table.value.tableAreaId) ||
                                    (areas != [] && r.tableAreaId == Some(areas[0].id))
  {
    var name := if table.Some? then table.value.name else "";
    var own := if table.Some? && table.value.tableAreaId.Some? && table.value.tableAreaId.value != 0
               then table.value.tableAreaId else None;
    var first := if areas != [] && areas[0].id != 0 then Some(areas[0].id) else None;
    TableForm(name, if own.Some? then own else first)
  }
}

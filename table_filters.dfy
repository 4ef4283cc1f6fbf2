/**
 * The search and brand filters of the page's tables: the Pine Labs detail
 * tables of index.js, pinelabs.js and the admin view in navigation.js, and
 * the mapping tables of index.js and navigation.js. Each is a filter over
 * the rows already loaded; the two `populatePinelabsTable` routines also
 * replace the `allPineLabsData` mirror with the rows they are given, when
 * the table body they render into exists.
 *
 * `toLowerCase`, `trim` and `toLocaleDateString` are locale-dependent and
 * appear as uninterpreted functions; the only thing assumed of the first
 * two, where a lemma needs it, is that they map the empty string to itself.
 */
module TableFilters {
  import opened JsValues
  import opened DetailPlan
  import opened DetailSync

  datatype TextOps = TextOps(lower: string -> string, trim: string -> string, localeDate: string -> string)

  /** `toLowerCase` and `trim` leave the empty string empty. */
  predicate KeepsEmpty(ops: TextOps) {
    ops.lower("") == "" && ops.trim("") == ""
  }

  /** `x?.toLowerCase().includes(term)` for a nullable column: false on null. */
  predicate FieldIncludes(f: Field, term: string, ops: TextOps) {
    f.Str? && Contains(ops.lower(f.s), term)
  }

  /** `input?.value?.toLowerCase().trim() || ''`. */
  function SearchTerm(raw: Option<string>, ops: TextOps): string {
    if raw.Some? then ops.trim(ops.lower(raw.value)) else ""
  }

  /** `String(n || '')`: the number's text, or empty for 0. */
  function NumberOrEmpty(n: int): string {
    if n == 0 then "" else IntText(n)
  }

  /** `String(id || '')` for a detail id. */
  function IdOrEmpty(id: JsId): string {
    match id
    case Num(n) => NumberOrEmpty(n)
    case Text(t) => t
  }

  function ParentStoreName(row: MirrorRow): string {
    if row.parent.Some? then OrElse(row.parent.value.storeName, "") else ""
  }

  function ParentBrand(row: MirrorRow): string {
    if row.parent.Some? then OrElse(row.parent.value.brand, "") else ""
  }

  /** `pl.finance_mappings?.brand === brand`. */
  predicate HasBrand(row: MirrorRow, brand: string) {
    row.parent.Some? && row.parent.value.brand == Str(brand)
  }

  // ---------------------------------------------------------------------
  // index.js `populatePinelabsTable`: search term and brand

  /** The six columns searched, joined with spaces and lower-cased. */
  function IndexDetailSearchText(row: MirrorRow, ops: TextOps): string {
    ops.lower(Join([ParentStoreName(row), ParentBrand(row), OrElse(row.fields.posId, ""),
                    OrElse(row.fields.tid, ""), OrElse(row.fields.serialNo, ""),
                    OrElse(row.fields.storeId, "")], " "))
  }

  predicate IndexDetailShown(row: MirrorRow, term: string, brand: string, ops: TextOps) {
    (term == "" || Contains(IndexDetailSearchText(row, ops), term)) &&
    (brand == "" || HasBrand(row, brand))
  }

  function IndexDetailKeep(term: string, brand: string, ops: TextOps): MirrorRow -> bool {
    row => IndexDetailShown(row, term, brand, ops)
  }

  /** The rows displayed: all of them when both filters are empty, else those passing both. */
  function IndexDetailRows(rows: seq<MirrorRow>, rawTerm: Option<string>, rawBrand: Option<string>,
                           ops: TextOps): seq<MirrorRow>
  {
    var term := SearchTerm(rawTerm, ops);
    var brand := InputValue(rawBrand);
    if term != "" || brand != "" then Filter(rows, IndexDetailKeep(term, brand, ops)) else rows
  }

  /**
   * The displayed rows are exactly the loaded rows that contain the term and
   * carry the brand, in their loaded order; a non-empty brand shows only rows
   * of that brand.
   */
  lemma IndexDetailRowsExact(rows: seq<MirrorRow>, more: seq<MirrorRow>, rawTerm: Option<string>,
                             rawBrand: Option<string>, ops: TextOps)
    ensures var term := SearchTerm(rawTerm, ops);
      var brand := InputValue(rawBrand);
      var r := IndexDetailRows(rows, rawTerm, rawBrand, ops);
      (forall i :: 0 <= i < |r| ==> r[i] in rows && IndexDetailShown(r[i], term, brand, ops)) &&
      (forall i :: 0 <= i < |rows| && IndexDetailShown(rows[i], term, brand, ops) ==> rows[i] in r) &&
      (brand != "" ==> forall i :: 0 <= i < |r| ==> HasBrand(r[i], brand)) &&
      IndexDetailRows(rows + more, rawTerm, rawBrand, ops) ==
        IndexDetailRows(rows, rawTerm, rawBrand, ops) + IndexDetailRows(more, rawTerm, rawBrand, ops)
  {
    var term := SearchTerm(rawTerm, ops);
    var brand := InputValue(rawBrand);
    FilterConcat(rows, more, IndexDetailKeep(term, brand, ops));
  }

  /** With an empty search box and no brand selected, every loaded row is displayed in order. */
  lemma IndexDetailRowsUnfiltered(rows: seq<MirrorRow>, rawTerm: Option<string>, rawBrand: Option<string>,
                                  ops: TextOps)
    requires KeepsEmpty(ops)
    requires rawTerm.None? || rawTerm.value == ""
    requires InputValue(rawBrand) == ""
    ensures IndexDetailRows(rows, rawTerm, rawBrand, ops) == rows
  {
  }

  // ---------------------------------------------------------------------
  // pinelabs.js `populatePinelabsTable` / `filterPineLabsTable`: search term only

  /** The eight columns searched, joined with spaces and lower-cased. */
  function ScriptDetailSearchText(row: MirrorRow, ops: TextOps): string {
    ops.lower(Join([IdOrEmpty(row.id), NumberOrEmpty(row.mappingId), ParentStoreName(row), ParentBrand(row),
                    OrElse(row.fields.posId, ""), OrElse(row.fields.tid, ""),
                    OrElse(row.fields.serialNo, ""), OrElse(row.fields.storeId, "")], " "))
  }

  predicate ScriptDetailShown(row: MirrorRow, term: string, ops: TextOps) {
    Contains(ScriptDetailSearchText(row, ops), term)
  }

  function ScriptDetailKeep(term: string, ops: TextOps): MirrorRow -> bool {
    row => ScriptDetailShown(row, term, ops)
  }

  function ScriptDetailRows(rows: seq<MirrorRow>, rawTerm: Option<string>, ops: TextOps): seq<MirrorRow> {
    var term := SearchTerm(rawTerm, ops);
    if term == "" then rows else Filter(rows, ScriptDetailKeep(term, ops))
  }

  /**
   * The displayed rows are exactly the loaded rows whose joined text
   * contains the term, in order; an empty term displays every row.
   */
  lemma ScriptDetailRowsExact(rows: seq<MirrorRow>, more: seq<MirrorRow>, rawTerm: Option<string>, ops: TextOps)
    ensures var term := SearchTerm(rawTerm, ops);
      var r := ScriptDetailRows(rows, rawTerm, ops);
      (term == "" ==> r == rows) &&
      (forall i :: 0 <= i < |r| ==> r[i] in rows && ScriptDetailShown(r[i], term, ops)) &&
      (forall i :: 0 <= i < |rows| && ScriptDetailShown(rows[i], term, ops) ==> rows[i] in r) &&
      ScriptDetailRows(rows + more, rawTerm, ops) ==
        ScriptDetailRows(rows, rawTerm, ops) + ScriptDetailRows(more, rawTerm, ops)
  {
    var term := SearchTerm(rawTerm, ops);
    if term == "" {
      forall i | 0 <= i < |rows|
        ensures ScriptDetailShown(rows[i], term, ops)
      {
        ContainsEmpty(ScriptDetailSearchText(rows[i], ops));
      }
    } else {
      FilterConcat(rows, more, ScriptDetailKeep(term, ops));
    }
  }

  // ---------------------------------------------------------------------
  // navigation.js `applyOverallPinelabsFilters`

  predicate OverallDetailShown(row: MirrorRow, term: string, brand: string, ops: TextOps) {
    (term == "" ||
     FieldIncludes(row.fields.posId, term, ops) || FieldIncludes(row.fields.tid, term, ops) ||
     FieldIncludes(row.fields.serialNo, term, ops) || FieldIncludes(row.fields.storeId, term, ops) ||
     Contains(IntText(row.mappingId), term) || Contains(IdText(row.id), term) ||
     (row.parent.Some? && FieldIncludes(row.parent.value.storeName, term, ops))) &&
    (brand == "" || HasBrand(row, brand))
  }

  function OverallDetailKeep(term: string, brand: string, ops: TextOps): MirrorRow -> bool {
    row => OverallDetailShown(row, term, brand, ops)
  }

  function OverallDetailRows(rows: seq<MirrorRow>, rawTerm: string, brand: string, ops: TextOps): seq<MirrorRow> {
    Filter(rows, OverallDetailKeep(ops.lower(rawTerm), brand, ops))
  }

  /**
   * The kept rows are exactly those matching term and brand, in order;
   * a non-empty brand keeps only rows of that brand, and with both filters
   * empty every row is kept.
   */
  lemma OverallDetailRowsExact(rows: seq<MirrorRow>, more: seq<MirrorRow>, rawTerm: string, brand: string,
                               ops: TextOps)
    ensures var term := ops.lower(rawTerm);
      var r := OverallDetailRows(rows, rawTerm, brand, ops);
      (forall i :: 0 <= i < |r| ==> r[i] in rows && OverallDetailShown(r[i], term, brand, ops)) &&
      (forall i :: 0 <= i < |rows| && OverallDetailShown(rows[i], term, brand, ops) ==> rows[i] in r) &&
      (brand != "" ==> forall i :: 0 <= i < |r| ==> HasBrand(r[i], brand)) &&
      (term == "" && brand == "" ==> r == rows) &&
      OverallDetailRows(rows + more, rawTerm, brand, ops) ==
        OverallDetailRows(rows, rawTerm, brand, ops) + OverallDetailRows(more, rawTerm, brand, ops)
  {
    var term := ops.lower(rawTerm);
    FilterConcat(rows, more, OverallDetailKeep(term, brand, ops));
    if term == "" && brand == "" {
      FilterKeepsAll(rows, OverallDetailKeep(term, brand, ops));
    }
  }

  // ---------------------------------------------------------------------
  // Mapping rows

  /**
   * `financier_code` as loaded: absent, null, a string (what the form
   * writes), or an object keyed by financier.
   */
  datatype FinancierCode = CodeAbsent | CodeNull | CodeText(s: string) | CodeObject(entries: map<string, Field>)

  /** A `finance_mappings` row with its `pinelabs_details` (absent when not joined). */
  datatype MainMapping = MainMapping(
    id: int, storeName: Field, city: Field, state: Field, asm: Field, mailId: Field,
    brand: Field, brandCode: Field, financier: Field, financierCode: FinancierCode,
    requestedBy: Field, requestedDate: Field, details: Option<seq<DetailFields>>)

  /** A mapping with no financier but with Pine Labs details. */
  predicate PurePineLabs(m: MainMapping) {
    !Truthy(m.financier) && m.details.Some? && |m.details.value| > 0
  }

  // ---------------------------------------------------------------------
  // index.js `applyYourMappingsFilter` / `applyOverallMainMappingsFilter`

  /** `x?.value.toLowerCase() || ''`. */
  function LoweredOrEmpty(raw: Option<string>, ops: TextOps): string {
    if raw.Some? then ops.lower(raw.value) else ""
  }

  predicate IndexMappingShown(m: MainMapping, term: string, brand: string, ops: TextOps) {
    (FieldIncludes(m.storeName, term, ops) || FieldIncludes(m.city, term, ops) ||
     FieldIncludes(m.mailId, term, ops) || FieldIncludes(m.brand, term, ops) ||
     FieldIncludes(m.financier, term, ops) || FieldIncludes(m.requestedBy, term, ops)) &&
    (brand == "" || m.brand == Str(brand))
  }

  function IndexMappingKeep(term: string, brand: string, ops: TextOps): MainMapping -> bool {
    m => IndexMappingShown(m, term, brand, ops)
  }

  function IndexMappingRows(rows: seq<MainMapping>, rawTerm: Option<string>, rawBrand: Option<string>,
                            ops: TextOps): seq<MainMapping>
  {
    Filter(rows, IndexMappingKeep(LoweredOrEmpty(rawTerm, ops), InputValue(rawBrand), ops))
  }

  predicate AnySearchedColumn(m: MainMapping) {
    m.storeName.Str? || m.city.Str? || m.mailId.Str? || m.brand.Str? || m.financier.Str? || m.requestedBy.Str?
  }

  /**
   * The kept mappings are exactly those matching term and brand, in order.
   * With both filters empty a mapping is kept iff one of its six searched
   * columns is non-null: a mapping whose six columns are all null is hidden
   * even then.
   */
  lemma IndexMappingRowsExact(rows: seq<MainMapping>, more: seq<MainMapping>, rawTerm: Option<string>,
                              rawBrand: Option<string>, ops: TextOps)
    ensures var term := LoweredOrEmpty(rawTerm, ops);
      var brand := InputValue(rawBrand);
      var r := IndexMappingRows(rows, rawTerm, rawBrand, ops);
      (forall i :: 0 <= i < |r| ==> r[i] in rows && IndexMappingShown(r[i], term, brand, ops)) &&
      (forall i :: 0 <= i < |rows| && IndexMappingShown(rows[i], term, brand, ops) ==> rows[i] in r) &&
      (brand != "" ==> forall i :: 0 <= i < |r| ==> r[i].brand == Str(brand)) &&
      IndexMappingRows(rows + more, rawTerm, rawBrand, ops) ==
        IndexMappingRows(rows, rawTerm, rawBrand, ops) + IndexMappingRows(more, rawTerm, rawBrand, ops)
  {
    FilterConcat(rows, more, IndexMappingKeep(LoweredOrEmpty(rawTerm, ops), InputValue(rawBrand), ops));
  }

  lemma IndexMappingUnfiltered(m: MainMapping, ops: TextOps)
    requires KeepsEmpty(ops)
    ensures IndexMappingShown(m, "", "", ops) <==> AnySearchedColumn(m)
  {
    if m.storeName.Str? { ContainsEmpty(ops.lower(m.storeName.s)); }
    if m.city.Str? { ContainsEmpty(ops.lower(m.city.s)); }
    if m.mailId.Str? { ContainsEmpty(ops.lower(m.mailId.s)); }
    if m.brand.Str? { ContainsEmpty(ops.lower(m.brand.s)); }
    if m.financier.Str? { ContainsEmpty(ops.lower(m.financier.s)); }
    if m.requestedBy.Str? { ContainsEmpty(ops.lower(m.requestedBy.s)); }
  }

  // ---------------------------------------------------------------------
  // navigation.js `applyOverallMainMappingsFilters`

  /** The financier text searched: `'Pine Labs'` for a pure Pine Labs mapping seen by an admin. */
  function FinancierSearchValue(m: MainMapping, role: string): string {
    if PurePineLabs(m) && role == "admin" then "Pine Labs" else OrElse(m.financier, "")
  }

  predicate OverallMappingMatches(m: MainMapping, term: string, brand: string, role: string, ops: TextOps) {
    (term == "" ||
     FieldIncludes(m.storeName, term, ops) || FieldIncludes(m.state, term, ops) ||
     FieldIncludes(m.asm, term, ops) || FieldIncludes(m.mailId, term, ops) ||
     FieldIncludes(m.brand, term, ops) ||
     Contains(ops.lower(FinancierSearchValue(m, role)), term) ||
     FieldIncludes(m.requestedBy, term, ops) ||
     Contains(IntText(m.id), term) ||
     (Truthy(m.requestedDate) && Contains(ops.localeDate(m.requestedDate.s), term))) &&
    (brand == "" || m.brand == Str(brand))
  }

  /** Pure Pine Labs mappings are kept only for an admin; the rest when they match. */
  predicate OverallMappingShown(m: MainMapping, term: string, brand: string, role: string, ops: TextOps) {
    (!PurePineLabs(m) || role == "admin") && OverallMappingMatches(m, term, brand, role, ops)
  }

  function OverallMappingKeep(term: string, brand: string, role: string, ops: TextOps): MainMapping -> bool {
    m => OverallMappingShown(m, term, brand, role, ops)
  }

  function OverallMappingRows(rows: seq<MainMapping>, rawTerm: string, brand: string, role: string,
                              ops: TextOps): seq<MainMapping>
  {
    Filter(rows, OverallMappingKeep(ops.lower(rawTerm), brand, role, ops))
  }

  /**
   * The kept mappings are exactly those shown, in order: a non-admin never
   * keeps a pure Pine Labs mapping, a non-empty brand keeps only that
   * brand, and with both filters empty an admin keeps every mapping.
   */
  lemma OverallMappingRowsExact(rows: seq<MainMapping>, more: seq<MainMapping>, rawTerm: string, brand: string,
                                role: string, ops: TextOps)
    ensures var term := ops.lower(rawTerm);
      var r := OverallMappingRows(rows, rawTerm, brand, role, ops);
      (forall i :: 0 <= i < |r| ==> r[i] in rows && OverallMappingShown(r[i], term, brand, role, ops)) &&
      (forall i :: 0 <= i < |rows| && OverallMappingShown(rows[i], term, brand, role, ops) ==> rows[i] in r) &&
      (role != "admin" ==> forall i :: 0 <= i < |r| ==> !PurePineLabs(r[i])) &&
      (brand != "" ==> forall i :: 0 <= i < |r| ==> r[i].brand == Str(brand)) &&
      (term == "" && brand == "" && role == "admin" ==> r == rows) &&
      OverallMappingRows(rows + more, rawTerm, brand, role, ops) ==
        OverallMappingRows(rows, rawTerm, brand, role, ops) + OverallMappingRows(more, rawTerm, brand, role, ops)
  {
    var term := ops.lower(rawTerm);
    FilterConcat(rows, more, OverallMappingKeep(term, brand, role, ops));
    if term == "" && brand == "" && role == "admin" {
      FilterKeepsAll(rows, OverallMappingKeep(term, brand, role, ops));
    }
  }

  /**
   * With both filters empty a non-admin sees exactly the mappings that are
   * not pure Pine Labs ones.
   */
  lemma OverallMappingRowsForNonAdmin(rows: seq<MainMapping>, role: string, ops: TextOps)
    requires KeepsEmpty(ops) && role != "admin"
    ensures var r := OverallMappingRows(rows, "", "", role, ops);
      (forall i :: 0 <= i < |r| ==> r[i] in rows && !PurePineLabs(r[i])) &&
      (forall i :: 0 <= i < |rows| && !PurePineLabs(rows[i]) ==> rows[i] in r)
  {
  }

  /**
   * An admin finds a pure Pine Labs mapping under the text "Pine Labs": it
   * is kept whenever the lower-cased "Pine Labs" contains the term and the
   * brand filter admits it.
   */
  lemma AdminFindsPurePineLabs(rows: seq<MainMapping>, i: nat, rawTerm: string, brand: string, ops: TextOps)
    requires i < |rows| && PurePineLabs(rows[i])
    requires Contains(ops.lower("Pine Labs"), ops.lower(rawTerm))
    requires brand == "" || rows[i].brand == Str(brand)
    ensures FinancierSearchValue(rows[i], "admin") == "Pine Labs"
    ensures rows[i] in OverallMappingRows(rows, rawTerm, brand, "admin", ops)
  {
  }

  // ---------------------------------------------------------------------
  // Loading rows into the mirror

  /**
   * index.js `populatePinelabsTable`. Without a table body it returns at
   * once: the mirror is kept and nothing is rendered. Otherwise the mirror
   * becomes the rows given (or empty when they are not an array) and the
   * displayed rows are filtered from it.
   */
  method PopulatePinelabsTable(view: PineLabsView, tablePresent: bool, data: Option<seq<MirrorRow>>,
                               rawTerm: Option<string>, rawBrand: Option<string>, ops: TextOps)
    returns (shown: seq<MirrorRow>)
    modifies view
    ensures !tablePresent ==> view.mirror == old(view.mirror) && shown == []
    ensures tablePresent ==> view.mirror == if data.Some? then data.value else []
    ensures tablePresent ==> shown == IndexDetailRows(view.mirror, rawTerm, rawBrand, ops)
  {
    if !tablePresent {
      return [];
    }
    view.mirror := if data.Some? then data.value else [];
    var term := SearchTerm(rawTerm, ops);
    var brand := InputValue(rawBrand);
    shown := view.mirror;
    if term != "" || brand != "" {
      shown := Filter(view.mirror, IndexDetailKeep(term, brand, ops));
    }
  }

  /**
   * index.js `filterPineLabsTable`: without a table body nothing is
   * rendered; otherwise the mirror is redisplayed through the filters.
   * The mirror is unchanged either way.
   */
  method FilterPineLabsTable(view: PineLabsView, tablePresent: bool, rawTerm: Option<string>,
                             rawBrand: Option<string>, ops: TextOps) returns (shown: seq<MirrorRow>)
    modifies view
    ensures view.mirror == old(view.mirror)
    ensures shown == if tablePresent then IndexDetailRows(view.mirror, rawTerm, rawBrand, ops) else []
  {
    if !tablePresent {
      return [];
    }
    shown := PopulatePinelabsTable(view, true, Some(view.mirror), rawTerm, rawBrand, ops);
  }

  /**
   * pinelabs.js `populatePinelabsTable`: the same early return without a
   * table body; otherwise the mirror becomes the rows given and the
   * displayed rows are those containing the term.
   */
  method PopulatePinelabsTableScript(view: PineLabsView, tablePresent: bool, data: Option<seq<MirrorRow>>,
                                     rawTerm: Option<string>, ops: TextOps) returns (shown: seq<MirrorRow>)
    modifies view
    ensures !tablePresent ==> view.mirror == old(view.mirror) && shown == []
    ensures tablePresent ==> view.mirror == if data.Some? then data.value else []
    ensures tablePresent ==> shown == ScriptDetailRows(view.mirror, rawTerm, ops)
  {
    if !tablePresent {
      return [];
    }
    view.mirror := if data.Some? then data.value else [];
    var term := SearchTerm(rawTerm, ops);
    shown := view.mirror;
    if term != "" {
      shown := Filter(view.mirror, ScriptDetailKeep(term, ops));
    }
  }

  /**
   * pinelabs.js `filterPineLabsTable`: reads the mirror without changing
   * it, and renders nothing without a table body.
   */
  method FilterPineLabsTableScript(view: PineLabsView, tablePresent: bool, rawTerm: Option<string>, ops: TextOps)
    returns (shown: seq<MirrorRow>)
    ensures shown == if tablePresent then ScriptDetailRows(view.mirror, rawTerm, ops) else []
    ensures forall i :: 0 <= i < |shown| ==> shown[i] in view.mirror
  {
    if !tablePresent {
      return [];
    }
    var term := SearchTerm(rawTerm, ops);
    if term == "" {
      shown := view.mirror;
    } else {
      shown := Filter(view.mirror, ScriptDetailKeep(term, ops));
    }
  }
}

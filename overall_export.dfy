/**
 * The row shaping of the admin "overall" Excel export
 * (`prepareOverallExcelData` in navigation.js): one output row per loaded
 * mapping, with `'-'` for empty columns, the financier code looked up in a
 * per-financier object, and the mapping's Pine Labs details flattened into
 * one text column. The spreadsheet writing itself is not modelled.
 */
module OverallExport {
  import opened JsValues
  import opened DetailPlan
  import opened TableFilters

  datatype ExportRow = ExportRow(
    id: int, storeName: string, state: string, asm: string, mail: string, brand: string,
    brandCode: string, financier: string, financierCode: string, requestedBy: string,
    date: string, plDetails: string)

  /**
   * Reading a key of a null `financier_code` throws a TypeError
   * (`typeof null` is `'object'`), which aborts the whole export.
   */
  datatype ExportError = NullFinancierCode(mappingId: int)

  /** `s.replace(/ /g, '_')`. */
  function ReplaceSpaces(s: string): (r: string)
    ensures |r| == |s|
    ensures forall i :: 0 <= i < |s| ==> r[i] == if s[i] == ' ' then '_' else s[i]
  {
    if s == [] then []
    else ReplaceSpaces(s[..|s| - 1]) + [if s[|s| - 1] == ' ' then '_' else s[|s| - 1]]
  }

  /** The key a financier's code is stored under in a `financier_code` object. */
  function FinancierKey(financier: string, ops: TextOps): string {
    ReplaceSpaces(ops.lower(financier))
  }

  /** The entry of a code object under `key`, or `'-'` when it is missing or falsy. */
  function CodeEntry(entries: map<string, Field>, key: string): string {
    if key in entries then OrElse(entries[key], "-") else "-"
  }

  /** `FCode` as written: only an object code is read; a string code gives `'-'`. */
  function ExportFinancierCode(m: MainMapping, ops: TextOps): Result<string, ExportError> {
    if !Truthy(m.financier) then Ok("-")
    else match m.financierCode
      case CodeObject(entries) => Ok(CodeEntry(entries, FinancierKey(m.financier.s, ops)))
      case CodeNull => Err(NullFinancierCode(m.id))
      case _ => Ok("-")
  }

  /** The financier code the overall mapping table displays (navigation.js), which also shows a string code. */
  function FinancierCodeDisplay(m: MainMapping, ops: TextOps): Result<string, ExportError> {
    if !Truthy(m.financier) then Ok("-")
    else match m.financierCode
      case CodeObject(entries) => Ok(CodeEntry(entries, FinancierKey(m.financier.s, ops)))
      case CodeNull => Err(NullFinancierCode(m.id))
      case CodeText(s) => Ok(if s != "" then s else "-")
      case CodeAbsent => Ok("-")
  }

  /** `FCode` with the string case the table display has. */
  function ExportFinancierCodeFixed(m: MainMapping, ops: TextOps): Result<string, ExportError> {
    match m.financierCode
    case CodeText(s) => Ok(if Truthy(m.financier) && s != "" then s else "-")
    case _ => ExportFinancierCode(m, ops)
  }

  /** `Fin`: the financier, `'Pine Labs'` for a pure Pine Labs mapping, else `'-'`. */
  function FinancierColumn(m: MainMapping): string {
    if Truthy(m.financier) then m.financier.s
    else if PurePineLabs(m) then "Pine Labs"
    else "-"
  }

  /** `BCode`: the brand code only for Apple. */
  function BrandCodeColumn(m: MainMapping): string {
    if m.brand == Str("Apple") then OrElse(m.brandCode, "-") else "-"
  }

  /** One detail as `POS:…,TID:…,SNo:…,StoreID:…`, with `N/A` for empty fields. */
  function DetailSegment(p: DetailFields): string {
    "POS:" + OrElse(p.posId, "N/A") + ",TID:" + OrElse(p.tid, "N/A") +
    ",SNo:" + OrElse(p.serialNo, "N/A") + ",StoreID:" + OrElse(p.storeId, "N/A")
  }

  function DetailSegments(ds: seq<DetailFields>): (r: seq<string>)
    ensures |r| == |ds|
    ensures forall i :: 0 <= i < |ds| ==> r[i] == DetailSegment(ds[i])
    decreases |ds|
  {
    if ds == [] then [] else DetailSegments(ds[..|ds| - 1]) + [DetailSegment(ds[|ds| - 1])]
  }

  /** `PLDetails`: the segments joined with `'; '`, or `'-'` when that is empty. */
  function DetailsColumn(details: Option<seq<DetailFields>>): string {
    if details.None? then "-"
    else
      var joined := Join(DetailSegments(details.value), "; ");
      if joined != "" then joined else "-"
  }

  function DateColumn(m: MainMapping, ops: TextOps): string {
    if Truthy(m.requestedDate) then ops.localeDate(m.requestedDate.s) else "-"
  }

  /** The export row of one mapping, or the error its financier code raises. */
  function ExportRowOf(m: MainMapping, ops: TextOps): Result<ExportRow, ExportError> {
    var code := ExportFinancierCode(m, ops);
    if code.Err? then Err(code.error)
    else Ok(ExportRow(m.id, OrElse(m.storeName, "-"), OrElse(m.state, "-"), OrElse(m.asm, "-"),
                      OrElse(m.mailId, "-"), OrElse(m.brand, "-"), BrandCodeColumn(m),
                      FinancierColumn(m), code.value, OrElse(m.requestedBy, "-"),
                      DateColumn(m, ops), DetailsColumn(m.details)))
  }

  /**
   * `prepareOverallExcelData`: the mappings shaped in order. It fails, with
   * the first mapping's error, exactly when some mapping cannot be shaped;
   * otherwise there is one row per mapping, in the same order.
   */
  function PrepareOverallExcelData(ms: seq<MainMapping>, ops: TextOps): (r: Result<seq<ExportRow>, ExportError>)
    ensures r.Ok? <==> forall i :: 0 <= i < |ms| ==> ExportRowOf(ms[i], ops).Ok?
    ensures r.Ok? ==> |r.value| == |ms|
    ensures r.Ok? ==> forall i :: 0 <= i < |ms| ==> Ok(r.value[i]) == ExportRowOf(ms[i], ops)
    ensures r.Err? ==> exists i :: 0 <= i < |ms| && ExportRowOf(ms[i], ops) == Err(r.error) &&
                                  (forall j :: 0 <= j < i ==> ExportRowOf(ms[j], ops).Ok?)
    decreases |ms|
  {
    if ms == [] then Ok([])
    else
      var first := ExportRowOf(ms[0], ops);
      if first.Err? then Err(first.error)
      else
        var rest := PrepareOverallExcelData(ms[1..], ops);
        if rest.Err? then Err(rest.error) else Ok([first.value] + rest.value)
  }

  // ---------------------------------------------------------------------
  // Properties of a row

  /** A mapping fails to export exactly when it has a financier and a null code. */
  lemma ExportRowFails(m: MainMapping, ops: TextOps)
    ensures ExportRowOf(m, ops).Err? <==> Truthy(m.financier) && m.financierCode == CodeNull
  {
  }

  /**
   * `PLDetails` is `'-'` exactly when the mapping has no details, and
   * otherwise starts with the first detail's segment.
   */
  lemma DetailsColumnShape(details: Option<seq<DetailFields>>)
    ensures DetailsColumn(details) == "-" <==> details.None? || details.value == []
    ensures details.Some? && details.value != [] ==>
      DetailSegment(details.value[0]) <= DetailsColumn(details)
  {
    if details.Some? && details.value != [] {
      var segs := DetailSegments(details.value);
      JoinStartsWithFirst(segs, "; ");
      var joined := Join(segs, "; ");
      assert joined[..4] == "POS:";
    }
  }

  /** A mapping with one detail exports it as a single segment. */
  lemma OneDetailSegment(p: DetailFields)
    ensures DetailsColumn(Some([p])) == DetailSegment(p)
  {
    var seg := DetailSegment(p);
    assert DetailSegments([p]) == [seg];
    assert Join([seg], "; ") == seg;
    assert seg[..4] == "POS:";
  }

  /**
   * Null and empty fields read `N/A` and every other field reads as itself,
   * so a detail with no field set exports as four `N/A`s.
   */
  lemma EmptyFieldsReadNA(p: DetailFields)
    ensures !Truthy(p.posId) && !Truthy(p.tid) && !Truthy(p.serialNo) && !Truthy(p.storeId) ==>
      DetailSegment(p) == "POS:N/A,TID:N/A,SNo:N/A,StoreID:N/A"
    ensures Truthy(p.posId) && Truthy(p.tid) && Truthy(p.serialNo) && Truthy(p.storeId) ==>
      DetailSegment(p) == "POS:" + p.posId.s + ",TID:" + p.tid.s + ",SNo:" + p.serialNo.s + ",StoreID:" + p.storeId.s
  {
  }

  /** Two details are joined with `'; '`. */
  lemma TwoDetailSegments(p: DetailFields, q: DetailFields)
    ensures DetailsColumn(Some([p, q])) == DetailSegment(p) + "; " + DetailSegment(q)
  {
    var a, b := DetailSegment(p), DetailSegment(q);
    assert DetailSegments([p, q]) == [a, b];
    assert [a, b][1..] == [b];
    assert Join([a, b], "; ") == a + "; " + b;
    assert a[..4] == "POS:";
    assert (a + "; " + b)[..4] == "POS:";
  }

  /**
   * The coded columns: `BCode` is not `'-'` only for an Apple mapping with a
   * brand code, which it then is; `Fin` is `'Pine Labs'` for a pure Pine Labs
   * mapping; an `FCode` other than `'-'` is the object code's entry under the
   * financier's key.
   */
  lemma ExportRowCodes(m: MainMapping, ops: TextOps)
    requires ExportRowOf(m, ops).Ok?
    ensures var row := ExportRowOf(m, ops).value;
      row.id == m.id &&
      (row.brandCode != "-" ==> m.brand == Str("Apple") && m.brandCode == Str(row.brandCode)) &&
      (m.brand == Str("Apple") && Truthy(m.brandCode) ==> row.brandCode == m.brandCode.s) &&
      (PurePineLabs(m) ==> row.financier == "Pine Labs") &&
      (Truthy(m.financier) ==> row.financier == m.financier.s) &&
      (row.financierCode != "-" ==>
        Truthy(m.financier) && m.financierCode.CodeObject? &&
        FinancierKey(m.financier.s, ops) in m.financierCode.entries &&
        m.financierCode.entries[FinancierKey(m.financier.s, ops)] == Str(row.financierCode))
  {
  }

  /** The key of a financier name without spaces keeps its lower-cased form; spaces become `_`. */
  lemma FinancierKeyOfLowered(financier: string, ops: TextOps)
    requires forall i :: 0 <= i < |ops.lower(financier)| ==> ops.lower(financier)[i] != ' '
    ensures FinancierKey(financier, ops) == ops.lower(financier)
  {
  }

  // ---------------------------------------------------------------------
  // The financier code written by the form

  /**
   * As written: a mapping whose code is the string the form saved exports
   * `FCode` as `'-'`, while the table displays that code.
   */
  lemma TextCodeDroppedByExport(m: MainMapping, ops: TextOps)
    requires Truthy(m.financier) && m.financierCode.CodeText? && m.financierCode.s != ""
    ensures ExportFinancierCode(m, ops) == Ok("-")
    ensures FinancierCodeDisplay(m, ops) == Ok(m.financierCode.s)
  {
  }

  /** A concrete mapping: financier `HDFC`, code `HD42`. */
  lemma TextCodeDroppedExample(ops: TextOps)
    ensures var m := MainMapping(7, Str("Store"), Null, Null, Null, Null, Str("Samsung"), Null,
                                 Str("HDFC"), CodeText("HD42"), Str("asm"), Null, None);
      ExportRowOf(m, ops).Ok? && ExportRowOf(m, ops).value.financierCode == "-" &&
      FinancierCodeDisplay(m, ops) == Ok("HD42")
  {
  }

  /** With the string case added, the exported code is the code the table displays, for every mapping. */
  lemma FixedExportMatchesDisplay(m: MainMapping, ops: TextOps)
    ensures ExportFinancierCodeFixed(m, ops) == FinancierCodeDisplay(m, ops)
    ensures Truthy(m.financier) && m.financierCode.CodeText? && m.financierCode.s != "" ==>
      ExportFinancierCodeFixed(m, ops) == Ok(m.financierCode.s)
  {
  }
}

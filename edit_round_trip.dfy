/**
 * Editing a mapping and saving it without touching its Pine Labs rows:
 * `editMapping` renders one form row per stored detail, `handleFormSubmit`
 * reads the rows back into the edit buffer, and `updatePineLabsDetails`
 * plans against the stored snapshot. An untouched form should plan nothing.
 *
 * As written, two things break that round trip: the buffer's ids are the
 * `data-id` strings, which never equal the numeric keys of the snapshot, and
 * a null column is rendered as the text "null". Both are exhibited here, and
 * the round trip is proved for the corrected reading (`DataIdNumber`) and
 * rendering (`RenderAll`).
 */
module EditRoundTrip {
  import opened JsValues
  import opened DetailPlan
  import opened DetailSync
  import opened MappingForm

  /** The snapshot holds exactly the given rows: same ids, same fields. */
  predicate RowsOf(snap: map<JsId, DetailFields>, rows: seq<DetailRecord>) {
    (forall i :: 0 <= i < |rows| ==> rows[i].id in snap && snap[rows[i].id] == rows[i].fields) &&
    (forall k :: k in snap ==> exists i :: 0 <= i < |rows| && rows[i].id == k)
  }

  /** Server ids are numbers. */
  predicate NumericKeys(snap: map<JsId, DetailFields>) {
    forall k :: k in snap ==> k.Num?
  }

  // ---------------------------------------------------------------------
  // The id read as text

  /** Reading `data-id` as text never yields a number. */
  lemma TextIdsNeverMatch(es: seq<FormEntry>, snap: map<JsId, DetailFields>)
    requires NumericKeys(snap)
    ensures forall i :: 0 <= i < |ExtractBuffer(es, DataIdText)| ==> !Matched(snap, ExtractBuffer(es, DataIdText)[i])
  {
    var buf := ExtractBuffer(es, DataIdText);
    forall i | 0 <= i < |buf|
      ensures !Matched(snap, buf[i])
    {
      var j :| 0 <= j < |es| && ReadAll(es, DataIdText)[j] == buf[i];
      assert buf[i].id == ReadId(es[j].dataId, DataIdText);
    }
  }

  /**
   * As written, saving an edited mapping unchanged deletes every stored
   * row of the mapping and inserts every non-empty form row anew: no
   * buffer entry is ever matched to its stored row.
   */
  lemma EditSaveReplacesEveryRow(snap: map<JsId, DetailFields>, rows: seq<DetailRecord>)
    requires NumericKeys(snap) && RowsOf(snap, rows)
    ensures var buf := ExtractBuffer(RenderAllAsWritten(rows), DataIdText);
      MakePlan(snap, buf) == Plan(buf, [], snap.Keys)
  {
    var buf := ExtractBuffer(RenderAllAsWritten(rows), DataIdText);
    TextIdsNeverMatch(RenderAllAsWritten(rows), snap);
    NoMatchReplacesEverything(snap, buf);
    AllMeaningfulKept(buf);
  }

  /** The stored row of the examples below: detail 5 of mapping 9. */
  function ExampleRow(tid: Field): DetailRecord {
    DetailRecord(Num(5), DetailFields(Str("P1"), tid, Str("S1"), Str("X1")), 9)
  }

  lemma ExampleRowRendered(tid: Field)
    ensures RenderAllAsWritten([ExampleRow(tid)]) ==
      [FormEntry(Some("5"), Some("P1"), Some(TemplateText(tid)), Some("S1"), Some("X1"), true)]
  {
    assert IntText(5) == "5";
    assert RenderStoredAsWritten(ExampleRow(tid)) ==
      FormEntry(Some("5"), Some("P1"), Some(TemplateText(tid)), Some("S1"), Some("X1"), true);
  }

  /** The example row's form entry, read back: its four texts, and the id as the reading gives it. */
  lemma ExampleEntryRead(tid: string, reading: IdReading)
    requires tid != ""
    ensures var fe := FormEntry(Some("5"), Some("P1"), Some(tid), Some("S1"), Some("X1"), true);
      ExtractBuffer([fe], reading) == [BufEntry(ReadId(Some("5"), reading), "P1", tid, "S1", "X1")]
  {
    var fe := FormEntry(Some("5"), Some("P1"), Some(tid), Some("S1"), Some("X1"), true);
    var e := BufEntry(ReadId(Some("5"), reading), "P1", tid, "S1", "X1");
    assert ReadEntry(fe, reading) == e;
    assert ReadAll([fe], reading) == [e];
    AllMeaningfulKept([e]);
  }

  /** As written, the example row's id comes back as the text "5". */
  lemma TextExampleBuffer()
    ensures ExtractBuffer(RenderAllAsWritten([ExampleRow(Str("T1"))]), DataIdText) ==
      [BufEntry(Some(Text("5")), "P1", "T1", "S1", "X1")]
  {
    ExampleRowRendered(Str("T1"));
    ExampleEntryRead("T1", DataIdText);
  }

  /** An entry whose id the snapshot does not hold replaces the stored row. */
  lemma TextExamplePlan(e: BufEntry<JsId>)
    requires e == BufEntry(Some(Text("5")), "P1", "T1", "S1", "X1")
    ensures MakePlan(map[Num(5) := ExampleRow(Str("T1")).fields], [e]) == Plan([e], [], {Num(5)})
  {
    var snap := map[Num(5) := ExampleRow(Str("T1")).fields];
    PlanOfOneEntry(snap, e);
    assert KeptIds(snap, [e]) == {};
  }

  /** The smallest case: one stored row with id 5, rendered as `data-id="5"`, is deleted and re-inserted. */
  lemma EditSaveReplacesRowExample()
    ensures var buf := ExtractBuffer(RenderAllAsWritten([ExampleRow(Str("T1"))]), DataIdText);
      buf == [BufEntry(Some(Text("5")), "P1", "T1", "S1", "X1")] &&
      MakePlan(map[Num(5) := ExampleRow(Str("T1")).fields], buf) == Plan(buf, [], {Num(5)})
  {
    TextExampleBuffer();
    TextExamplePlan(BufEntry(Some(Text("5")), "P1", "T1", "S1", "X1"));
  }

  // ---------------------------------------------------------------------
  // A null column rendered as "null"

  /** As written, a null column comes back from the form as the text "null". */
  lemma NullReadsBackAsText(d: DetailRecord, reading: IdReading)
    ensures d.fields.posId.Null? ==> ReadEntry(RenderStoredAsWritten(d), reading).posId == "null"
    ensures d.fields.tid.Null? ==> ReadEntry(RenderStoredAsWritten(d), reading).tid == "null"
    ensures d.fields.serialNo.Null? ==> ReadEntry(RenderStoredAsWritten(d), reading).serialNo == "null"
    ensures d.fields.storeId.Null? ==> ReadEntry(RenderStoredAsWritten(d), reading).storeId == "null"
  {
  }

  /**
   * Even with numeric ids, an untouched row whose TID is null is queued
   * for an update that stores the text "null" in it.
   */
  lemma NullSavedAsTextExample()
    ensures var buf := ExtractBuffer(RenderAllAsWritten([ExampleRow(Null)]), DataIdNumber);
      var u := BufEntry(Some(Num(5)), "P1", "null", "S1", "X1");
      buf == [u] && MakePlan(map[Num(5) := ExampleRow(Null).fields], buf) == Plan([], [u], {}) &&
      AsFields(u).tid == Str("null")
  {
    NullExampleBuffer();
    NullExamplePlan(BufEntry(Some(Num(5)), "P1", "null", "S1", "X1"));
  }

  /** With ids read as numbers, the example row comes back with its id and the TID "null". */
  lemma NullExampleBuffer()
    ensures ExtractBuffer(RenderAllAsWritten([ExampleRow(Null)]), DataIdNumber) ==
      [BufEntry(Some(Num(5)), "P1", "null", "S1", "X1")]
  {
    ExampleRowRendered(Null);
    FiveReadsAsNumber();
    ExampleEntryRead("null", DataIdNumber);
  }

  lemma FiveReadsAsNumber()
    ensures ReadId(Some("5"), DataIdNumber) == Some(Num(5))
  {
    assert IntText(5) == "5";
    ParseNatText(5);
  }

  /** The matched entry differs from the stored null TID, so it is queued for an update. */
  lemma NullExamplePlan(u: BufEntry<JsId>)
    requires u == BufEntry(Some(Num(5)), "P1", "null", "S1", "X1")
    ensures MakePlan(map[Num(5) := ExampleRow(Null).fields], [u]) == Plan([], [u], {})
  {
    var snap := map[Num(5) := ExampleRow(Null).fields];
    PlanOfOneEntry(snap, u);
    assert KeptIds(snap, [u]) == {Num(5)};
  }

  // ---------------------------------------------------------------------
  // The corrected round trip

  /** A column as the corrected form reads it back: null becomes empty text. */
  function Blank(f: Field): Field {
    if f.Null? then Str("") else f
  }

  /**
   * The corrected rendering reads back the stored id and the stored
   * columns, a null one as empty text; no column reads back as "null"
   * unless it was stored as that text.
   */
  lemma RenderedRowReadsBack(d: DetailRecord)
    requires d.id.Num? && d.id.n >= 0
    ensures var e := ReadEntry(RenderStored(d), DataIdNumber);
      e.id == Some(d.id) &&
      AsFields(e) == DetailFields(Blank(d.fields.posId), Blank(d.fields.tid),
                                  Blank(d.fields.serialNo), Blank(d.fields.storeId)) &&
      (e.tid == "null" ==> d.fields.tid == Str("null")) &&
      (e.posId == "null" ==> d.fields.posId == Str("null"))
  {
    ParseNatText(d.id.n);
  }

  /** The corrected reading of non-null rows gives back each row's id and columns, in order. */
  lemma CorrectedReadBack(rows: seq<DetailRecord>)
    requires forall i :: 0 <= i < |rows| ==> rows[i].id.Num? && rows[i].id.n >= 0
    requires forall i :: 0 <= i < |rows| ==>
      rows[i].fields.posId.Str? && rows[i].fields.tid.Str? &&
      rows[i].fields.serialNo.Str? && rows[i].fields.storeId.Str?
    ensures var read := ReadAll(RenderAll(rows), DataIdNumber);
      |read| == |rows| &&
      forall i :: 0 <= i < |rows| ==> read[i].id == Some(rows[i].id) && AsFields(read[i]) == rows[i].fields
  {
    var read := ReadAll(RenderAll(rows), DataIdNumber);
    forall i | 0 <= i < |rows|
      ensures read[i].id == Some(rows[i].id) && AsFields(read[i]) == rows[i].fields
    {
      RenderedRowReadsBack(rows[i]);
    }
  }

  /** A buffer that carries every stored row with its own id and columns plans nothing. */
  lemma {:induction false} NoOpFromReadBack(snap: map<JsId, DetailFields>, rows: seq<DetailRecord>,
                                            read: seq<BufEntry<JsId>>)
    requires RowsOf(snap, rows)
    requires |read| == |rows|
    requires forall i :: 0 <= i < |rows| ==> read[i].id == Some(rows[i].id) && AsFields(read[i]) == rows[i].fields
    ensures MakePlan(snap, read) == Plan([], [], {})
  {
    forall k | k in snap
      ensures exists i :: 0 <= i < |read| && read[i].id == Some(k)
    {
      var i :| 0 <= i < |rows| && rows[i].id == k;
      assert read[i].id == Some(k);
    }
    UnchangedBufferIsNoOp(snap, read);
  }

  /**
   * With ids read as numbers and nulls rendered empty, saving an edited
   * mapping whose stored rows are all non-null and non-empty, without
   * touching them, plans no insert, no update and no delete.
   */
  lemma {:induction false} EditSaveUnchangedIsNoOp(snap: map<JsId, DetailFields>, rows: seq<DetailRecord>)
    requires RowsOf(snap, rows)
    requires forall i :: 0 <= i < |rows| ==> rows[i].id.Num? && rows[i].id.n >= 0
    requires forall i :: 0 <= i < |rows| ==>
      rows[i].fields.posId.Str? && rows[i].fields.tid.Str? &&
      rows[i].fields.serialNo.Str? && rows[i].fields.storeId.Str?
    requires forall i :: 0 <= i < |rows| ==>
      Truthy(rows[i].fields.posId) || Truthy(rows[i].fields.tid) ||
      Truthy(rows[i].fields.serialNo) || Truthy(rows[i].fields.storeId)
    ensures MakePlan(snap, ExtractBuffer(RenderAll(rows), DataIdNumber)) == Plan([], [], {})
  {
    var read := ReadAll(RenderAll(rows), DataIdNumber);
    CorrectedReadBack(rows);
    forall i | 0 <= i < |read|
      ensures Meaningful(read[i])
    {
      assert AsFields(read[i]) == rows[i].fields;
    }
    AllMeaningfulKept(read);
    NoOpFromReadBack(snap, rows, read);
  }
}

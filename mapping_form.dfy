/**
 * The mapping form of the page: the Pine Labs entry rows it holds, the
 * edit buffer read back from them, the checks a submission passes before
 * anything is written, the submit guard against double submission, and
 * the add/remove rules of the entry list.
 */
module MappingForm {
  import opened JsValues
  import opened DetailPlan
  import opened DetailSync

  // ---------------------------------------------------------------------
  // Entry rows and the edit buffer read from them

  /**
   * One rendered Pine Labs entry row: its `data-id` attribute (absent on a
   * row added blank), the values of its four inputs (`None` when the input
   * is missing), and whether it carries a remove button.
   */
  datatype FormEntry = FormEntry(dataId: Option<string>, posId: Option<string>, tid: Option<string>,
                                 serialNo: Option<string>, storeId: Option<string>, removable: bool)

  /**
   * How the row id is read. `DataIdText` is the page as written: the
   * attribute string itself, `null` when empty. `DataIdNumber` reads it as
   * the decimal number the server issued, `null` when it is not one.
   */
  datatype IdReading = DataIdText | DataIdNumber

  function ReadId(dataId: Option<string>, reading: IdReading): Option<JsId> {
    if dataId.None? || dataId.value == "" then None
    else match reading
      case DataIdText => Some(Text(dataId.value))
      case DataIdNumber =>
        var n := ParseNat(dataId.value);
        if n.Some? then Some(Num(n.value)) else None
  }

  /** The buffer entry one form row yields. */
  function ReadEntry(e: FormEntry, reading: IdReading): BufEntry<JsId> {
    BufEntry(ReadId(e.dataId, reading), InputValue(e.posId), InputValue(e.tid),
             InputValue(e.serialNo), InputValue(e.storeId))
  }

  /** Every form row read, in form order. */
  function ReadAll(es: seq<FormEntry>, reading: IdReading): (r: seq<BufEntry<JsId>>)
    ensures |r| == |es|
    ensures forall i :: 0 <= i < |es| ==> r[i] == ReadEntry(es[i], reading)
    decreases |es|
  {
    if es == [] then [] else ReadAll(es[..|es| - 1], reading) + [ReadEntry(es[|es| - 1], reading)]
  }

  /** The edit buffer: the rows read, without those whose four inputs are all empty. */
  function ExtractBuffer(es: seq<FormEntry>, reading: IdReading): seq<BufEntry<JsId>> {
    MeaningfulEntries(ReadAll(es, reading))
  }

  lemma {:induction false} MeaningfulConcat<K>(a: seq<BufEntry<K>>, b: seq<BufEntry<K>>)
    ensures MeaningfulEntries(a + b) == MeaningfulEntries(a) + MeaningfulEntries(b)
    decreases |b|
  {
    if b == [] {
      assert a + b == a;
    } else {
      var b' := b[..|b| - 1];
      assert (a + b)[..|a + b| - 1] == a + b';
      assert (a + b)[|a + b| - 1] == b[|b| - 1];
      MeaningfulConcat(a, b');
    }
  }

  /**
   * The buffer is read row by row and keeps form order: the buffer of
   * `a + b` is the buffer of `a` followed by that of `b`.
   */
  lemma ExtractBufferConcat(a: seq<FormEntry>, b: seq<FormEntry>, reading: IdReading)
    ensures ExtractBuffer(a + b, reading) == ExtractBuffer(a, reading) + ExtractBuffer(b, reading)
  {
    assert ReadAll(a + b, reading) == ReadAll(a, reading) + ReadAll(b, reading);
    MeaningfulConcat(ReadAll(a, reading), ReadAll(b, reading));
  }

  /** A single row contributes its entry exactly when one of its four inputs is non-empty. */
  lemma ExtractBufferSingle(e: FormEntry, reading: IdReading)
    ensures ExtractBuffer([e], reading) ==
      (if InputValue(e.posId) != "" || InputValue(e.tid) != "" || InputValue(e.serialNo) != ""
          || InputValue(e.storeId) != ""
       then [ReadEntry(e, reading)] else [])
  {
    assert ReadAll([e], reading) == [ReadEntry(e, reading)];
    assert MeaningfulEntries([ReadEntry(e, reading)]) ==
      MeaningfulEntries<JsId>([]) + (if Meaningful(ReadEntry(e, reading)) then [ReadEntry(e, reading)] else []);
  }

  /** A form whose every input is empty yields an empty buffer. */
  lemma {:induction false} ClearedFormYieldsNoEntries(es: seq<FormEntry>, reading: IdReading)
    requires forall i :: 0 <= i < |es| ==>
      InputValue(es[i].posId) == "" && InputValue(es[i].tid) == "" &&
      InputValue(es[i].serialNo) == "" && InputValue(es[i].storeId) == ""
    ensures ExtractBuffer(es, reading) == []
    decreases |es|
  {
    if es != [] {
      var es', last := es[..|es| - 1], es[|es| - 1];
      assert es' + [last] == es;
      ExtractBufferConcat(es', [last], reading);
      ExtractBufferSingle(last, reading);
      assert ExtractBuffer([last], reading) == [];
      ClearedFormYieldsNoEntries(es', reading);
    }
  }

  // ---------------------------------------------------------------------
  // Submission checks

  /** The financiers that have a code section on the form. */
  const CodeSectionFinanciers: set<string> :=
    {"Bajaj", "Benow", "HDB", "HDFC", "Home Credit", "ICICI", "IDFC", "Kotak", "TVS"}

  /**
   * The inputs of the mapping part of the form (`None` for a missing
   * element). `codeInput` is the input inside the selected financier's code
   * section, if that section has one.
   */
  datatype MappingInput = MappingInput(
    storeName: Option<string>, city: Option<string>, mailId: Option<string>, brand: Option<string>,
    appleCode: Option<string>, financier: Option<string>, codeInput: Option<string>,
    asm: Option<string>, requestedBy: Option<string>)

  /** The `finance_mappings` row a submission writes. */
  datatype MappingRecord = MappingRecord(
    storeName: string, city: string, mailId: string, brand: string, brandCode: string,
    financier: string, financierCode: string, asm: string, requestedBy: string,
    requestedDate: string, userId: UserId)

  /** The columns the duplicate check compares. */
  datatype MappingKey = MappingKey(storeName: string, brand: string, financier: string)

  /** The financier code: the code input's value when the financier has a code section, else empty. */
  function FinanceCode(financier: string, codeInput: Option<string>): (code: string)
    ensures financier !in CodeSectionFinanciers ==> code == ""
    ensures financier in CodeSectionFinanciers ==> code == InputValue(codeInput)
  {
    if financier != "" && financier in CodeSectionFinanciers then InputValue(codeInput) else ""
  }

  function BuildRecord(input: MappingInput, userId: UserId, now: string): MappingRecord {
    var financier := InputValue(input.financier);
    MappingRecord(InputValue(input.storeName), InputValue(input.city), InputValue(input.mailId),
                  InputValue(input.brand), InputValue(input.appleCode), financier,
                  FinanceCode(financier, input.codeInput), InputValue(input.asm),
                  InputValue(input.requestedBy), now, userId)
  }

  predicate RequiredFilled(rec: MappingRecord) {
    rec.storeName != "" && rec.brand != "" && rec.financier != "" && rec.city != "" && rec.requestedBy != ""
  }

  function KeyOf(rec: MappingRecord): MappingKey {
    MappingKey(rec.storeName, rec.brand, rec.financier)
  }

  /**
   * The create-mode duplicate check over the rows the lookup returned;
   * a lookup that failed (`None`) reports no duplicate.
   */
  predicate IsDuplicate(lookup: Option<seq<MappingKey>>, key: MappingKey) {
    lookup.Some? && exists i :: 0 <= i < |lookup.value| && lookup.value[i] == key
  }

  datatype Mode = Create | Edit(mappingId: int)

  datatype SubmitError = SubmitNotAuthenticated | RequiredFieldMissing | DuplicateMapping

  /**
   * What an accepted submission goes on to do: write `record` (insert in
   * create mode, update of the edited mapping otherwise), then, when
   * `buffer` is non-empty, reconcile the mapping's Pine Labs details
   * with it.
   */
  datatype Submission = Submission(record: MappingRecord, mode: Mode, buffer: seq<BufEntry<JsId>>, reconcile: bool)

  /**
   * The checks `handleFormSubmit` makes before its first write, in its
   * order: the signed-in user, the required fields, then (create mode
   * only) the duplicate lookup. The page reads the rows' ids with
   * `DataIdText`; `DataIdNumber` is the corrected reading.
   */
  function PrepareSubmission(input: MappingInput, entries: seq<FormEntry>, reading: IdReading, userId: UserId,
                             now: string, mode: Mode, lookup: Option<seq<MappingKey>>): Result<Submission, SubmitError>
  {
    var rec := BuildRecord(input, userId, now);
    var buffer := ExtractBuffer(entries, reading);
    if userId == "" then Err(SubmitNotAuthenticated)
    else if !RequiredFilled(rec) then Err(RequiredFieldMissing)
    else if mode == Create && IsDuplicate(lookup, KeyOf(rec)) then Err(DuplicateMapping)
    else Ok(Submission(rec, mode, buffer, |buffer| > 0))
  }

  /**
   * The outcome of the checks: each error exactly when its check is the
   * first to fail, and on success a record carrying the user and the five
   * required fields, with reconciliation requested iff the buffer is non-empty.
   */
  lemma SubmissionOutcome(input: MappingInput, entries: seq<FormEntry>, reading: IdReading, userId: UserId,
                          now: string, mode: Mode, lookup: Option<seq<MappingKey>>)
    ensures var r := PrepareSubmission(input, entries, reading, userId, now, mode, lookup);
      var rec := BuildRecord(input, userId, now);
      (r == Err(SubmitNotAuthenticated) <==> userId == "") &&
      (r == Err(RequiredFieldMissing) <==> userId != "" && !RequiredFilled(rec)) &&
      (r == Err(DuplicateMapping) <==>
        userId != "" && RequiredFilled(rec) && mode == Create && IsDuplicate(lookup, KeyOf(rec))) &&
      (r.Ok? ==>
        r.value.record == rec && r.value.record.userId == userId && r.value.mode == mode &&
        r.value.buffer == ExtractBuffer(entries, reading) &&
        (r.value.reconcile <==> r.value.buffer != []))
  {
  }

  /** An edit is never rejected as a duplicate, and a failed lookup never rejects a create. */
  lemma DuplicateOnlyInCreateMode(input: MappingInput, entries: seq<FormEntry>, reading: IdReading, userId: UserId,
                                  now: string, mode: Mode, lookup: Option<seq<MappingKey>>)
    requires mode.Edit? || lookup.None?
    ensures PrepareSubmission(input, entries, reading, userId, now, mode, lookup) != Err(DuplicateMapping)
  {
  }

  /**
   * Saving a form whose entry inputs were all cleared does not reconcile:
   * the mapping's stored details are left as they were, not deleted.
   */
  lemma ClearedFormSkipsReconcile(input: MappingInput, entries: seq<FormEntry>, reading: IdReading, userId: UserId,
                                  now: string, mode: Mode, lookup: Option<seq<MappingKey>>)
    requires forall i :: 0 <= i < |entries| ==>
      InputValue(entries[i].posId) == "" && InputValue(entries[i].tid) == "" &&
      InputValue(entries[i].serialNo) == "" && InputValue(entries[i].storeId) == ""
    ensures var r := PrepareSubmission(input, entries, reading, userId, now, mode, lookup);
      r.Ok? ==> !r.value.reconcile && r.value.buffer == []
  {
    ClearedFormYieldsNoEntries(entries, reading);
  }

  // ---------------------------------------------------------------------
  // Submit guard

  const DebounceDelay: int := 1000

  datatype GuardState = GuardState(submitting: bool, lastSubmitTime: int)

  datatype Admission = Ignored | TooSoon | Accepted

  /** A press of the submit button at time `now`: the admission and the state it leaves. */
  function Admit(s: GuardState, now: int): (GuardState, Admission) {
    if s.submitting then (s, Ignored)
    else if now - s.lastSubmitTime < DebounceDelay then (s, TooSoon)
    else (GuardState(true, now), Accepted)
  }

  /** The `finally` of an admitted submission: the guard is released. */
  function Release(s: GuardState): GuardState {
    s.(submitting := false)
  }

  /** A submit press at a given time, or the end of the submission in flight. */
  datatype GuardEvent = Press(now: int) | Finished

  /** The guard's state after a sequence of events, and the times of the presses it admitted. */
  function Replay(s: GuardState, evs: seq<GuardEvent>): (GuardState, seq<int>)
    decreases |evs|
  {
    if evs == [] then (s, [])
    else
      var (t, acc) := Replay(s, evs[..|evs| - 1]);
      match evs[|evs| - 1]
      case Press(now) =>
        var (t', a) := Admit(t, now);
        (t', if a == Accepted then acc + [now] else acc)
      case Finished => (Release(t), acc)
  }

  function CountFinished(evs: seq<GuardEvent>): nat
    decreases |evs|
  {
    if evs == [] then 0 else CountFinished(evs[..|evs| - 1]) + (if evs[|evs| - 1] == Finished then 1 else 0)
  }

  /**
   * Over any sequence of presses and completions: admitted presses are at
   * least `DebounceDelay` apart (and the first that far after the starting
   * `lastSubmitTime`), `lastSubmitTime` is the last admitted time, and a
   * press is admitted only once the previous admitted one has finished.
   */
  lemma {:induction false} AdmittedPressesAreSpaced(s: GuardState, evs: seq<GuardEvent>)
    ensures var (t, acc) := Replay(s, evs);
      (forall i :: 0 < i < |acc| ==> acc[i] - acc[i - 1] >= DebounceDelay) &&
      (|acc| > 0 ==> acc[0] - s.lastSubmitTime >= DebounceDelay && t.lastSubmitTime == acc[|acc| - 1]) &&
      (|acc| == 0 ==> t.lastSubmitTime == s.lastSubmitTime) &&
      |acc| + (if s.submitting then 1 else 0) <= CountFinished(evs) + (if t.submitting then 1 else 0)
    decreases |evs|
  {
    if evs != [] {
      AdmittedPressesAreSpaced(s, evs[..|evs| - 1]);
    }
  }

  /** A press while a submission is in flight changes nothing and is ignored. */
  lemma PressWhileSubmittingIgnored(s: GuardState, now: int)
    requires s.submitting
    ensures Admit(s, now) == (s, Ignored)
  {
  }

  /** A press too soon after the last admitted one is refused and leaves `lastSubmitTime` as it was. */
  lemma PressTooSoonRefused(s: GuardState, now: int)
    requires !s.submitting && now < s.lastSubmitTime + DebounceDelay
    ensures Admit(s, now).1 == TooSoon && Admit(s, now).0.lastSubmitTime == s.lastSubmitTime
  {
  }

  /** The guard's two module-level variables. */
  class SubmitGuard {
    var submitting: bool
    var lastSubmitTime: int

    function State(): GuardState
      reads this
    {
      GuardState(submitting, lastSubmitTime)
    }

    constructor()
      ensures State() == GuardState(false, 0)
    {
      submitting := false;
      lastSubmitTime := 0;
    }

    /** The start of `handleFormSubmit`, up to its first wait. */
    method Begin(now: int) returns (a: Admission)
      modifies this
      ensures (State(), a) == Admit(old(State()), now)
      ensures a == Accepted <==> !old(submitting) && now - old(lastSubmitTime) >= DebounceDelay
    {
      if submitting {
        return Ignored;
      }
      submitting := true;
      if now - lastSubmitTime < DebounceDelay {
        submitting := false;
        return TooSoon;
      }
      lastSubmitTime := now;
      a := Accepted;
    }

    /** The `finally` block of an admitted submission. */
    method Finish()
      modifies this
      ensures State() == Release(old(State()))
    {
      submitting := false;
    }
  }

  // ---------------------------------------------------------------------
  // The entry list

  const MaxEntries: nat := 3

  /** A blank row, with or without a remove button. */
  function BlankEntry(removable: bool): FormEntry {
    FormEntry(None, Some(""), Some(""), Some(""), Some(""), removable)
  }

  /** `${x}` in the row template: a stored null renders as the text "null". */
  function TemplateText(f: Field): string {
    if f.Null? then "null" else f.s
  }

  /** The corrected `${x || ''}`: a stored null renders as an empty input. */
  function InputText(f: Field): (r: string)
    ensures f.Str? ==> r == f.s
    ensures f.Null? ==> r == ""
  {
    OrElse(f, "")
  }

  /** The row `editMapping` renders for a stored detail, as written. */
  function RenderStoredAsWritten(d: DetailRecord): FormEntry {
    FormEntry(Some(IdText(d.id)), Some(TemplateText(d.fields.posId)), Some(TemplateText(d.fields.tid)),
              Some(TemplateText(d.fields.serialNo)), Some(TemplateText(d.fields.storeId)), true)
  }

  /** The corrected row for a stored detail: null fields are shown empty. */
  function RenderStored(d: DetailRecord): FormEntry {
    FormEntry(Some(IdText(d.id)), Some(InputText(d.fields.posId)), Some(InputText(d.fields.tid)),
              Some(InputText(d.fields.serialNo)), Some(InputText(d.fields.storeId)), true)
  }

  /** The form rows `editMapping` renders, as written. */
  function RenderAllAsWritten(rows: seq<DetailRecord>): (r: seq<FormEntry>)
    ensures |r| == |rows|
    ensures forall i :: 0 <= i < |rows| ==> r[i] == RenderStoredAsWritten(rows[i])
    decreases |rows|
  {
    if rows == [] then [] else RenderAllAsWritten(rows[..|rows| - 1]) + [RenderStoredAsWritten(rows[|rows| - 1])]
  }

  /** The corrected rendering: one row per stored detail, null fields shown empty. */
  function RenderAll(rows: seq<DetailRecord>): (r: seq<FormEntry>)
    ensures |r| == |rows|
    ensures forall i :: 0 <= i < |rows| ==> r[i] == RenderStored(rows[i])
    decreases |rows|
  {
    if rows == [] then [] else RenderAll(rows[..|rows| - 1]) + [RenderStored(rows[|rows| - 1])]
  }

  /** Whether the remove buttons are displayed: only while more than one row is shown. */
  predicate RemoveButtonsShown(entries: seq<FormEntry>) {
    |entries| > 1
  }

  /**
   * The rows of the Pine Labs entry container. `capped` is the index.js
   * add action, which refuses a fourth row; the pinelabs.js one adds
   * without limit.
   */
  class EntryList {
    var entries: seq<FormEntry>
    const capped: bool

    /** A list holding the single blank row `createEmptyPinelabsEntry` renders. */
    constructor(capped: bool)
      ensures this.capped == capped
      ensures entries == [BlankEntry(false)]
    {
      this.capped := capped;
      entries := [BlankEntry(false)];
    }

    /** `createEmptyPinelabsEntry`: back to one blank row without a remove button. */
    method Reset()
      modifies this
      ensures entries == [BlankEntry(false)]
    {
      entries := [BlankEntry(false)];
    }

    /** `addPinelabsEntryWithRemoveButton`: appends a blank removable row, unless capped at three. */
    method AddEntry() returns (added: bool)
      modifies this
      ensures added <==> !capped || |old(entries)| < MaxEntries
      ensures entries == if added then old(entries) + [BlankEntry(true)] else old(entries)
      ensures capped && |old(entries)| <= MaxEntries ==> |entries| <= MaxEntries
    {
      if capped && |entries| >= MaxEntries {
        return false;
      }
      entries := entries + [BlankEntry(true)];
      added := true;
    }

    /**
     * A click on row `i`'s remove button: the row goes only when it has a
     * button and the buttons are shown; the other rows keep their order.
     */
    method RemoveEntry(i: nat) returns (removed: bool)
      requires i < |entries|
      modifies this
      ensures removed <==> old(entries)[i].removable && RemoveButtonsShown(old(entries))
      ensures entries == if removed then old(entries)[..i] + old(entries)[i + 1..] else old(entries)
      ensures |entries| >= 1
    {
      if entries[i].removable && RemoveButtonsShown(entries) {
        entries := entries[..i] + entries[i + 1..];
        removed := true;
      } else {
        removed := false;
      }
    }

    /**
     * `editMapping`: one removable row per stored detail, rendered through
     * the template as written, or the blank row when there is none.
     */
    method LoadForEdit(rows: seq<DetailRecord>)
      modifies this
      ensures entries == if rows == [] then [BlankEntry(false)] else RenderAllAsWritten(rows)
      ensures |entries| == if rows == [] then 1 else |rows|
    {
      if rows == [] {
        entries := [BlankEntry(false)];
      } else {
        entries := RenderAllAsWritten(rows);
      }
    }
  }
}

/**
 * The report-tracking state machine of the workspace page: a list of report records,
 * the active report, and a polling registry from report id to interval handle.
 * Each upload outcome and each tick of a polling interval is a method call that receives
 * the server's answer as an input value.
 */
module ReportTracker {
  import opened Wrappers
  import opened Json
  import Text
  import opened Shared

  // ---------------------------------------------------------------------------
  // Records
  // ---------------------------------------------------------------------------

  datatype ReportStatus = Processing | Results | Error

  /** One tracked analysis; `data` is `null` until results arrive, `error` is `undefined` until it fails. */
  datatype ReportRecord = ReportRecord(
    id: string,
    name: string,
    uploadedAt: Json,
    status: ReportStatus,
    data: Json,
    error: Option<Json>)

  /** `window.setInterval` returns a positive handle, so a registered handle is always truthy. */
  type IntervalHandle = n: int | n > 0 witness 1

  /** The record a submission prepends: processing, no data, uploaded at the given ISO time. */
  function NewRecord(file: FileInfo, id: string, now: string): (r: ReportRecord)
    ensures r.id == id && r.name == file.name && r.status == Processing
    ensures r.data == JNull && r.error == None
  {
    ReportRecord(id, file.name, JStr(now), Processing, JNull, None)
  }

  /** The two ways a processing record settles. */
  datatype Transition = ToResults(payload: Json) | ToError(message: Json)

  /** `{...payload, fileName: payload.fileName ?? name, uploadedAt: payload.uploadedAt ?? uploadedAt}`. */
  function Enriched(payload: Json, name: string, uploadedAt: Json): (m: map<string, Json>)
    ensures forall k :: k in Spread(payload) ==> k in m
    ensures forall k :: k in Spread(payload) && k != "fileName" && k != "uploadedAt" ==> m[k] == Spread(payload)[k]
    ensures "fileName" in m && m["fileName"] == Coalesce(Get(Some(payload), "fileName"), JStr(name))
    ensures "uploadedAt" in m && m["uploadedAt"] == Coalesce(Get(Some(payload), "uploadedAt"), uploadedAt)
    ensures m.Keys == Spread(payload).Keys + {"fileName", "uploadedAt"}
  {
    Spread(payload)
      ["fileName" := Coalesce(Get(Some(payload), "fileName"), JStr(name))]
      ["uploadedAt" := Coalesce(Get(Some(payload), "uploadedAt"), uploadedAt)]
  }

  /** The record a transition produces; identity and name never change, and the status becomes terminal. */
  function Apply(rec: ReportRecord, t: Transition): (r: ReportRecord)
    ensures r.id == rec.id && r.name == rec.name && r.status != Processing
    ensures t.ToError? ==> r == rec.(status := Error, error := Some(t.message))
    ensures t.ToResults? ==>
      && r.status == Results
      && r.error == rec.error
      && r.data == JObj(Enriched(t.payload, rec.name, rec.uploadedAt))
      && r.uploadedAt == r.data.fields["uploadedAt"]
  {
    match t
    case ToError(message) =>
      rec.(status := Error, error := Some(message))
    case ToResults(payload) =>
      var enriched := Enriched(payload, rec.name, rec.uploadedAt);
      rec.(status := Results, data := JObj(enriched),
           uploadedAt := Coalesce(Get(Some(JObj(enriched)), "uploadedAt"), rec.uploadedAt))
  }

  /** `prev.map(report => report.id === id ? <settled> : report)`: only records with that id change. */
  function ReplaceById(reports: seq<ReportRecord>, id: string, t: Transition): (r: seq<ReportRecord>)
    ensures |r| == |reports|
    ensures forall i :: 0 <= i < |r| ==> r[i].id == reports[i].id && r[i].name == reports[i].name
    ensures forall i :: 0 <= i < |r| && reports[i].id != id ==> r[i] == reports[i]
    ensures forall i :: 0 <= i < |r| && reports[i].id == id ==> r[i] == Apply(reports[i], t)
  {
    seq(|reports|, i requires 0 <= i < |reports| => if reports[i].id == id then Apply(reports[i], t) else reports[i])
  }

  // ---------------------------------------------------------------------------
  // One tick of a polling interval
  // ---------------------------------------------------------------------------

  /** What a tick observes: the parsed status body, or a value thrown by the status request. */
  datatype PollOutcome = StatusReceived(body: Json) | PollThrew(thrown: Thrown)

  /** What a tick decides: keep waiting, or settle the report and stop its interval. */
  datatype TickEffect = KeepPolling | Settle(transition: Transition)

  /** `String(statusResponse?.status || "").toUpperCase()`. */
  function NormalizedStatus(body: Json): string {
    Text.Upper(ToJsString(OrElse(Get(Some(body), "status"), JStr(""))))
  }

  /** `statusResponse?.data ?? null`. */
  function PayloadOf(body: Json): Json {
    Coalesce(Get(Some(body), "data"), JNull)
  }

  /** `!payload || Object.keys(payload).length === 0`. */
  predicate IsEmptyPayload(payload: Json) {
    !Truthy(payload) || KeyCount(payload) == 0
  }

  /** The decision of one tick, branch for branch as the interval callback takes it. */
  function EffectOf(outcome: PollOutcome): TickEffect {
    match outcome
    case PollThrew(thrown) =>
      Settle(ToError(JStr(MessageOr(thrown, "Unknown error during analysis."))))
    case StatusReceived(body) =>
      var status := NormalizedStatus(body);
      if status == "COMPLETE" then
        if IsEmptyPayload(PayloadOf(body)) then KeepPolling else Settle(ToResults(PayloadOf(body)))
      else if status == "FAILED" || status == "ERROR" then
        Settle(ToError(OrElse(Get(Some(body), "error"), JStr("Analysis failed."))))
      else
        KeepPolling
  }

  /** The report list after a tick for `id`. */
  function TickReports(reports: seq<ReportRecord>, id: string, outcome: PollOutcome): seq<ReportRecord> {
    match EffectOf(outcome)
    case KeepPolling => reports
    case Settle(t) => ReplaceById(reports, id, t)
  }

  /** The polling registry after a tick for `id`: a settled report is deregistered. */
  function TickRegistry(polling: map<string, IntervalHandle>, id: string, outcome: PollOutcome): map<string, IntervalHandle> {
    match EffectOf(outcome)
    case KeepPolling => polling
    case Settle(_) => polling - {id}
  }

  /** `startPolling`'s effect on the registry: an id already registered keeps its interval. */
  function Register(polling: map<string, IntervalHandle>, id: string, handle: IntervalHandle): map<string, IntervalHandle> {
    if id in polling then polling else polling[id := handle]
  }

  // ---------------------------------------------------------------------------
  // Submissions
  // ---------------------------------------------------------------------------

  /** The error a failed upload records: the thrown message, or "Failed to upload file.". */
  function UploadError(thrown: Thrown): Transition {
    ToError(JStr(MessageOr(thrown, "Failed to upload file.")))
  }

  /** Everything one file's submission depends on: the file, the fresh id, the clock, the upload's outcome, the interval handle. */
  datatype Submission = Submission(file: FileInfo, id: string, now: string, outcome: UploadOutcome, handle: IntervalHandle)

  /** The record a submission leaves once its upload has settled. */
  function SettledRecord(s: Submission): (r: ReportRecord)
    ensures r.id == s.id && r.name == s.file.name
  {
    var created := NewRecord(s.file, s.id, s.now);
    match s.outcome
    case Uploaded(_) => created
    case UploadFailed(thrown) => Apply(created, UploadError(thrown))
  }

  /** Records of a batch, most recent first: each submission prepends its record. */
  function Prepended(subs: seq<Submission>): (r: seq<ReportRecord>)
    ensures |r| == |subs|
    ensures forall i :: 0 <= i < |r| ==> r[i] == SettledRecord(subs[|subs| - 1 - i])
  {
    if subs == [] then [] else [SettledRecord(subs[|subs| - 1])] + Prepended(subs[..|subs| - 1])
  }

  /** Registrations a batch adds: one per successful upload. */
  function Registered(subs: seq<Submission>): map<string, IntervalHandle> {
    if subs == [] then map[]
    else
      var last := subs[|subs| - 1];
      var before := Registered(subs[..|subs| - 1]);
      if last.outcome.Uploaded? then before[last.id := last.handle] else before
  }

  // ---------------------------------------------------------------------------
  // State invariants
  // ---------------------------------------------------------------------------

  ghost predicate UniqueIds(reports: seq<ReportRecord>) {
    forall i, j :: 0 <= i < j < |reports| ==> reports[i].id != reports[j].id
  }

  ghost predicate IdFree(reports: seq<ReportRecord>, id: string) {
    forall i :: 0 <= i < |reports| ==> reports[i].id != id
  }

  ghost predicate HasProcessing(reports: seq<ReportRecord>, id: string) {
    exists i :: 0 <= i < |reports| && reports[i].id == id && reports[i].status == Processing
  }

  /** A record carries a payload exactly when it has results. */
  ghost predicate DataIffResults(r: ReportRecord) {
    r.data != JNull <==> r.status == Results
  }

  ghost predicate AllDataIffResults(reports: seq<ReportRecord>) {
    forall i :: 0 <= i < |reports| ==> DataIffResults(reports[i])
  }

  /** Ids of a batch are pairwise distinct and none is in use yet. */
  ghost predicate FreshBatch(reports: seq<ReportRecord>, subs: seq<Submission>) {
    && (forall i, j :: 0 <= i < j < |subs| ==> subs[i].id != subs[j].id)
    && (forall i :: 0 <= i < |subs| ==> IdFree(reports, subs[i].id))
  }

  class Tracker {
    var reports: seq<ReportRecord>
    var activeReportId: Option<string>
    var polling: map<string, IntervalHandle>

    /**
     * Ids are unique, every registered interval polls a record that is still processing, and
     * a record has a payload exactly when it has results.
     */
    ghost predicate Valid()
      reads this
    {
      && UniqueIds(reports)
      && (forall id :: id in polling ==> HasProcessing(reports, id))
      && AllDataIffResults(reports)
    }

    constructor ()
      ensures Valid()
      ensures reports == [] && activeReportId == None && polling == map[]
    {
      reports := [];
      activeReportId := None;
      polling := map[];
    }

    /** `startPolling`: returns at once if the id is registered, otherwise registers a new interval. */
    method StartPolling(reportId: string, handle: IntervalHandle)
      requires Valid() && HasProcessing(reports, reportId)
      modifies this
      ensures Valid()
      ensures polling == Register(old(polling), reportId, handle)
      ensures reports == old(reports) && activeReportId == old(activeReportId)
    {
      if reportId in polling {
        return;
      }
      polling := polling[reportId := handle];
    }

    /** One run of the interval callback registered for `reportId`. */
    method Tick(reportId: string, outcome: PollOutcome)
      requires Valid() && reportId in polling
      modifies this
      ensures Valid()
      ensures reports == TickReports(old(reports), reportId, outcome)
      ensures polling == TickRegistry(old(polling), reportId, outcome)
      ensures activeReportId == old(activeReportId)
      ensures forall i :: 0 <= i < |reports| && old(reports)[i].status != Processing ==> reports[i] == old(reports)[i]
    {
      TickNeverReopens(reports, reportId, outcome);
      match EffectOf(outcome) {
        case KeepPolling =>
        case Settle(t) =>
          SettlingKeepsInvariant(reports, polling, reportId, t);
          reports := ReplaceById(reports, reportId, t);
          polling := polling - {reportId};
      }
    }

    /** The synchronous part of `initiateAnalysisForFile`: prepend a processing record and make it active. */
    method BeginAnalysis(file: FileInfo, id: string, now: string)
      requires Valid() && IdFree(reports, id)
      modifies this
      ensures Valid()
      ensures reports == [NewRecord(file, id, now)] + old(reports)
      ensures activeReportId == Some(id) && polling == old(polling)
    {
      var newReport := NewRecord(file, id, now);
      ghost var before := reports;
      reports := [newReport] + reports;
      forall pid | pid in polling ensures HasProcessing(reports, pid) {
        var i :| 0 <= i < |before| && before[i].id == pid && before[i].status == Processing;
        assert reports[i + 1] == before[i];
      }
      activeReportId := Some(id);
    }

    /** The continuation of `initiateAnalysisForFile` once the upload call has settled. */
    method UploadSettled(id: string, outcome: UploadOutcome, handle: IntervalHandle)
      requires Valid() && HasProcessing(reports, id) && id !in polling
      modifies this
      ensures Valid()
      ensures outcome.Uploaded? ==> reports == old(reports) && polling == old(polling)[id := handle]
      ensures outcome.UploadFailed? ==>
        reports == ReplaceById(old(reports), id, UploadError(outcome.thrown)) && polling == old(polling)
      ensures activeReportId == old(activeReportId)
    {
      match outcome {
        case Uploaded(_) =>
          StartPolling(id, handle);
        case UploadFailed(thrown) =>
          ghost var before := reports;
          reports := ReplaceById(reports, id, UploadError(thrown));
          SettlingKeepsInvariant(before, polling + map[id := handle], id, UploadError(thrown));
      }
    }

    /** `initiateAnalysisForFile`: one submission from record creation to its upload's outcome. */
    method InitiateAnalysisForFile(s: Submission)
      requires Valid() && IdFree(reports, s.id)
      modifies this
      ensures Valid()
      ensures reports == [SettledRecord(s)] + old(reports)
      ensures polling == if s.outcome.Uploaded? then old(polling)[s.id := s.handle] else old(polling)
      ensures activeReportId == Some(s.id)
    {
      BeginAnalysis(s.file, s.id, s.now);
      assert HasProcessing(reports, s.id) by { assert reports[0].id == s.id; }
      assert !HasProcessing(old(reports), s.id);
      ghost var begun := reports;
      UploadSettled(s.id, s.outcome, s.handle);
      if s.outcome.UploadFailed? {
        assert reports[0] == Apply(begun[0], UploadError(s.outcome.thrown));
        assert reports == [SettledRecord(s)] + old(reports) by {
          assert reports[1..] == old(reports) by {
            forall i | 0 <= i < |old(reports)| ensures reports[i + 1] == old(reports)[i] {
              assert begun[i + 1] == old(reports)[i];
            }
          }
        }
      }
    }

    /** `handleUpload`: submits the files one after another, in order. */
    method HandleUpload(subs: seq<Submission>)
      requires Valid() && FreshBatch(reports, subs)
      modifies this
      ensures Valid()
      ensures reports == Prepended(subs) + old(reports)
      ensures polling == old(polling) + Registered(subs)
      ensures activeReportId == if subs == [] then old(activeReportId) else Some(subs[|subs| - 1].id)
    {
      if |subs| == 0 {
        assert Prepended(subs) + old(reports) == old(reports);
        assert old(polling) + Registered(subs) == old(polling);
        return;
      }
      var k := 0;
      while k < |subs|
        invariant 0 <= k <= |subs|
        invariant Valid()
        invariant reports == Prepended(subs[..k]) + old(reports)
        invariant polling == old(polling) + Registered(subs[..k])
        invariant activeReportId == if k == 0 then old(activeReportId) else Some(subs[k - 1].id)
        invariant forall j :: k <= j < |subs| ==> IdFree(reports, subs[j].id)
      {
        ghost var before := reports;
        InitiateAnalysisForFile(subs[k]);
        BatchStep(subs, k, old(reports), old(polling));
        forall j | k + 1 <= j < |subs| ensures IdFree(reports, subs[j].id) {
          PrependKeepsFree(SettledRecord(subs[k]), before, subs[j].id);
        }
        k := k + 1;
      }
      assert subs[..k] == subs;
    }

    /** `handleNewAnalysis`: no report is active any more; polling continues. */
    method HandleNewAnalysis()
      modifies this
      ensures activeReportId == None
      ensures reports == old(reports) && polling == old(polling)
    {
      activeReportId := None;
    }

    /** `onSelectReport`. */
    method SelectReport(id: string)
      modifies this
      ensures activeReportId == Some(id)
      ensures reports == old(reports) && polling == old(polling)
    {
      activeReportId := Some(id);
    }

    /** The unmount cleanup: every interval is cleared and the registry emptied. */
    method Teardown()
      requires Valid()
      modifies this
      ensures Valid()
      ensures polling == map[]
      ensures reports == old(reports) && activeReportId == old(activeReportId)
    {
      polling := map[];
    }
  }

  // ---------------------------------------------------------------------------
  // Lemmas
  // ---------------------------------------------------------------------------

  /** Settling the one processing record with a given id keeps every other registration valid. */
  lemma SettlingKeepsInvariant(reports: seq<ReportRecord>, polling: map<string, IntervalHandle>, id: string, t: Transition)
    requires UniqueIds(reports) && AllDataIffResults(reports) && HasProcessing(reports, id)
    requires forall pid :: pid in polling ==> HasProcessing(reports, pid)
    ensures UniqueIds(ReplaceById(reports, id, t))
    ensures forall pid :: pid in polling && pid != id ==> HasProcessing(ReplaceById(reports, id, t), pid)
    ensures AllDataIffResults(ReplaceById(reports, id, t))
  {
    var r := ReplaceById(reports, id, t);
    var k :| 0 <= k < |reports| && reports[k].id == id && reports[k].status == Processing;
    forall i | 0 <= i < |r| ensures DataIffResults(r[i]) {
      if reports[i].id == id {
        assert i == k;
        SettleKeepsDataIffResults(reports[i], t);
      }
    }
    forall pid | pid in polling && pid != id ensures HasProcessing(r, pid) {
      var i :| 0 <= i < |reports| && reports[i].id == pid && reports[i].status == Processing;
      assert r[i] == reports[i];
    }
  }

  /** Settling a processing record gives it a payload exactly when it settles with results. */
  lemma SettleKeepsDataIffResults(r: ReportRecord, t: Transition)
    requires DataIffResults(r) && r.status == Processing
    ensures DataIffResults(Apply(r, t))
    ensures Apply(r, t).data != JNull <==> t.ToResults?
  {
  }

  /** Extending a batch by one submission prepends its record and adds its registration. */
  lemma BatchStep(subs: seq<Submission>, k: nat, reports: seq<ReportRecord>, polling: map<string, IntervalHandle>)
    requires k < |subs|
    ensures Prepended(subs[..k + 1]) + reports == [SettledRecord(subs[k])] + (Prepended(subs[..k]) + reports)
    ensures polling + Registered(subs[..k + 1]) ==
      if subs[k].outcome.Uploaded? then (polling + Registered(subs[..k]))[subs[k].id := subs[k].handle]
      else polling + Registered(subs[..k])
  {
    assert subs[..k + 1][..k] == subs[..k];
  }

  lemma PrependKeepsFree(r: ReportRecord, reports: seq<ReportRecord>, id: string)
    requires IdFree(reports, id) && r.id != id
    ensures IdFree([r] + reports, id)
  {
    forall i | 0 <= i < |reports| + 1 ensures ([r] + reports)[i].id != id {
      if i > 0 { assert ([r] + reports)[i] == reports[i - 1]; }
    }
  }

  /** Calling `startPolling` a second time for the same id leaves the first registration in place. */
  lemma StartPollingIdempotent(polling: map<string, IntervalHandle>, id: string, first: IntervalHandle, second: IntervalHandle)
    ensures id in Register(polling, id, first)
    ensures Register(Register(polling, id, first), id, second) == Register(polling, id, first)
    ensures id in polling ==> Register(polling, id, first) == polling
  {
  }

  /** A status other than COMPLETE, FAILED or ERROR (after upper-casing) changes no record and keeps the interval. */
  lemma OtherStatusKeepsPolling(reports: seq<ReportRecord>, polling: map<string, IntervalHandle>, id: string, body: Json)
    requires NormalizedStatus(body) != "COMPLETE" && NormalizedStatus(body) != "FAILED" && NormalizedStatus(body) != "ERROR"
    ensures TickReports(reports, id, StatusReceived(body)) == reports
    ensures TickRegistry(polling, id, StatusReceived(body)) == polling
  {
  }

  /** A body without a status (or with a falsy one) reads as "" and so keeps polling. */
  lemma MissingStatusKeepsPolling(body: Json)
    requires Get(Some(body), "status").None? || !Truthy(Get(Some(body), "status").value)
    ensures NormalizedStatus(body) == ""
    ensures EffectOf(StatusReceived(body)) == KeepPolling
  {
  }

  /** Status matching ignores case: a status and its upper-cased form have the same effect. */
  lemma StatusCaseInsensitive(fields: map<string, Json>, status: string)
    ensures EffectOf(StatusReceived(JObj(fields["status" := JStr(status)])))
         == EffectOf(StatusReceived(JObj(fields["status" := JStr(Text.Upper(status))])))
  {
    Text.UpperIdempotent(status);
    assert status == [] <==> Text.Upper(status) == [];
  }

  /**
   * `!payload || Object.keys(payload).length === 0` holds exactly for `null`, the booleans,
   * every number, the empty string, the empty array and the empty object.
   */
  lemma EmptyPayloadCases(p: Json)
    ensures IsEmptyPayload(p) <==>
      p.JNull? || p.JBool? || p.JNum? || p == JStr("") || p == JArr([]) || p == JObj(map[])
  {
    if p.JObj? && |p.fields| == 0 {
      assert p.fields.Keys == {};
    }
  }

  /** COMPLETE with any payload `EmptyPayloadCases` lists changes nothing and keeps the interval. */
  lemma EmptyPayloadKeepsPolling(reports: seq<ReportRecord>, polling: map<string, IntervalHandle>, id: string, body: Json)
    requires NormalizedStatus(body) == "COMPLETE"
    requires IsEmptyPayload(PayloadOf(body))
    ensures TickReports(reports, id, StatusReceived(body)) == reports
    ensures TickRegistry(polling, id, StatusReceived(body)) == polling
  {
  }

  /**
   * COMPLETE with a non-empty payload: the matching record gets status "results" and the payload,
   * `fileName` and `uploadedAt` defaulting to the record's own, and the id is deregistered.
   */
  lemma CompleteSettlesWithPayload(reports: seq<ReportRecord>, polling: map<string, IntervalHandle>, id: string, body: Json, i: nat)
    requires NormalizedStatus(body) == "COMPLETE" && !IsEmptyPayload(PayloadOf(body))
    requires i < |reports| && reports[i].id == id
    ensures var r := TickReports(reports, id, StatusReceived(body))[i];
      && r.status == Results
      && r.data == JObj(Enriched(PayloadOf(body), reports[i].name, reports[i].uploadedAt))
      && (PayloadOf(body).JObj? && "fileName" !in PayloadOf(body).fields ==> r.data.fields["fileName"] == JStr(reports[i].name))
      && (PayloadOf(body).JObj? && "uploadedAt" !in PayloadOf(body).fields ==> r.uploadedAt == reports[i].uploadedAt)
    ensures TickRegistry(polling, id, StatusReceived(body)) == polling - {id}
  {
  }

  /** FAILED or ERROR marks the record "error" with the server's message or "Analysis failed.", keeping its data. */
  lemma FailureSettlesWithMessage(reports: seq<ReportRecord>, polling: map<string, IntervalHandle>, id: string, body: Json, i: nat)
    requires NormalizedStatus(body) == "FAILED" || NormalizedStatus(body) == "ERROR"
    requires i < |reports| && reports[i].id == id
    ensures var r := TickReports(reports, id, StatusReceived(body))[i];
      && r.status == Error
      && r.data == reports[i].data
      && r.error == Some(if Get(Some(body), "error").Some? && Truthy(Get(Some(body), "error").value)
                         then Get(Some(body), "error").value else JStr("Analysis failed."))
    ensures TickRegistry(polling, id, StatusReceived(body)) == polling - {id}
  {
  }

  /** A thrown status request marks the record "error" with the thrown message and deregisters the id. */
  lemma ExceptionSettlesWithMessage(reports: seq<ReportRecord>, polling: map<string, IntervalHandle>, id: string, thrown: Thrown, i: nat)
    requires i < |reports| && reports[i].id == id
    ensures TickReports(reports, id, PollThrew(thrown))[i].status == Error
    ensures TickReports(reports, id, PollThrew(thrown))[i].error ==
      Some(JStr(if thrown.ErrorInstance? then thrown.message else "Unknown error during analysis."))
    ensures TickRegistry(polling, id, PollThrew(thrown)) == polling - {id}
  {
  }

  /** A tick for one id leaves every other record, the list length and the order untouched. */
  lemma TickIsolatesOtherReports(reports: seq<ReportRecord>, id: string, outcome: PollOutcome)
    ensures |TickReports(reports, id, outcome)| == |reports|
    ensures forall i :: 0 <= i < |reports| && reports[i].id != id ==> TickReports(reports, id, outcome)[i] == reports[i]
  {
  }

  /**
   * In a valid state a tick of a registered id never changes a finished record and never
   * returns any record to "processing".
   */
  lemma TickNeverReopens(reports: seq<ReportRecord>, id: string, outcome: PollOutcome)
    requires UniqueIds(reports) && HasProcessing(reports, id)
    ensures forall i :: 0 <= i < |reports| && reports[i].status != Processing ==>
      TickReports(reports, id, outcome)[i] == reports[i]
    ensures forall i :: 0 <= i < |reports| && TickReports(reports, id, outcome)[i].status == Processing ==>
      reports[i].status == Processing
  {
    var k :| 0 <= k < |reports| && reports[k].id == id && reports[k].status == Processing;
    forall i | 0 <= i < |reports| && reports[i].status != Processing
      ensures TickReports(reports, id, outcome)[i] == reports[i]
    {
      assert i != k;
      assert reports[i].id != id;
    }
  }

  /** A failed upload leaves an "error" record with the thrown message, and registers nothing. */
  lemma FailedUploadNeverPolls(s: Submission)
    requires s.outcome.UploadFailed?
    ensures SettledRecord(s).status == Error
    ensures SettledRecord(s).error == Some(JStr(MessageOr(s.outcome.thrown, "Failed to upload file.")))
    ensures SettledRecord(s).data == JNull
    ensures Registered([s]) == map[]
  {
  }

  /** Every id a batch registers belongs to a submission of the batch whose upload succeeded. */
  lemma {:induction false} RegisteredOnlySucceeded(subs: seq<Submission>, id: string)
    requires id in Registered(subs)
    ensures exists i :: 0 <= i < |subs| && subs[i].id == id && subs[i].outcome.Uploaded?
  {
    var last := subs[|subs| - 1];
    if !(last.outcome.Uploaded? && last.id == id) {
      RegisteredOnlySucceeded(subs[..|subs| - 1], id);
      var i :| 0 <= i < |subs| - 1 && subs[..|subs| - 1][i].id == id && subs[..|subs| - 1][i].outcome.Uploaded?;
      assert subs[i] == subs[..|subs| - 1][i];
    }
  }
}

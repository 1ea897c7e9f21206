/**
 * The KenPom bulk-upload panel: the year a file name carries, the `.csv`
 * queue, and the per-year status records that an upload moves through
 * uploading, success and error, with the priority-ordered status display.
 *
 * Network calls are not performed: every `fetch` of the panel is replaced
 * by its outcome, passed in as a parameter.
 */
module BulkUpload {
  import opened Wrappers
  import opened Text

  /** The seasons the panel lists, in display order. */
  const Years: seq<int> := [2015, 2016, 2017, 2018, 2019, 2020, 2021, 2022, 2023, 2024, 2025]

  datatype YearStatus = YearStatus(year: int, hasData: bool, teamCount: nat, uploading: bool,
                                   error: Option<string>, success: bool)

  // ---------------------------------------------------------------------
  // `extractYearFromFilename`: the first run of four decimal digits.

  predicate FourDigitsAt(s: string, p: nat) {
    p + 4 <= |s| && AllDigits(s[p..p + 4])
  }

  /** The leftmost position at or after `from` where four digits start, as `/(\d{4})/` finds it. */
  function FirstRun(s: string, from: nat): (r: Option<nat>)
    ensures r.Some? ==> from <= r.value && FourDigitsAt(s, r.value)
    ensures r.Some? ==> forall q :: from <= q < r.value ==> !FourDigitsAt(s, q)
    ensures r.None? ==> forall q :: from <= q ==> !FourDigitsAt(s, q)
    decreases |s| - from
  {
    if from + 4 > |s| then None
    else if FourDigitsAt(s, from) then Some(from)
    else FirstRun(s, from + 1)
  }

  function ExtractYearFromFilename(name: string): (year: Option<int>)
    ensures year.Some? <==> exists p :: FourDigitsAt(name, p)
    ensures year.Some? ==> 0 <= year.value <= 9999
  {
    match FirstRun(name, 0)
    case None => None
    case Some(p) => FourDigitBound(name[p..p + 4]); Some(DigitsValue(name[p..p + 4]))
  }

  lemma FourDigitBound(d: string)
    requires |d| == 4 && AllDigits(d)
    ensures DigitsValue(d) <= 9999
  {
    var d1, d2, d3 := d[..1], d[..2], d[..3];
    assert d1[..0] == [] && d2[..1] == d1 && d3[..2] == d2;
    assert DigitsValue(d1) <= 9;
    assert DigitsValue(d2) <= 99;
    assert DigitsValue(d3) <= 999;
  }

  /** A four-digit year after a digit-free prefix is the year read back, whatever follows it. */
  lemma {:induction false} YearRoundTrip(prefix: string, y: int, suffix: string)
    requires 1000 <= y <= 9999
    requires forall k :: 0 <= k < |prefix| ==> !IsDigit(prefix[k])
    ensures ExtractYearFromFilename(prefix + NatToString(y) + suffix) == Some(y)
  {
    var s := prefix + NatToString(y) + suffix;
    FourDigitLength(y);
    var p := |prefix|;
    assert s[p..p + 4] == NatToString(y);
    assert FourDigitsAt(s, p);
    forall q | 0 <= q < p ensures !FourDigitsAt(s, q) {
      assert s[q] == prefix[q];
      if q + 4 <= |s| {
        assert s[q..q + 4][0] == s[q];
      }
    }
    FirstRunFinds(s, 0, p);
  }

  lemma {:induction false} FirstRunFinds(s: string, from: nat, p: nat)
    requires from <= p && FourDigitsAt(s, p)
    requires forall q :: from <= q < p ==> !FourDigitsAt(s, q)
    ensures FirstRun(s, from) == Some(p)
    decreases p - from
  {
    if from < p {
      FirstRunFinds(s, from + 1, p);
    }
  }

  lemma FourDigitLength(y: int)
    requires 1000 <= y <= 9999
    ensures |NatToString(y)| == 4
  {
    assert |NatToString(y / 10 / 10 / 10)| == 1;
    assert |NatToString(y / 10 / 10)| == 2;
    assert |NatToString(y / 10)| == 3;
  }

  /** Five digits in a row give the first four of them. */
  lemma FiveDigitsGiveFirstFour()
    ensures ExtractYearFromFilename("12345") == Some(1234)
  {
    var s := "12345";
    assert FourDigitsAt(s, 0);
    assert s[0..4] == "1234";
    assert "1234"[..3] == "123" && "123"[..2] == "12" && "12"[..1] == "1" && "1"[..0] == [];
  }

  /** A file name without four digits in a row has no year. */
  lemma NoRunNoYear(name: string)
    requires forall p :: !FourDigitsAt(name, p)
    ensures ExtractYearFromFilename(name) == None
  {
  }

  // ---------------------------------------------------------------------
  // The `.csv` queue filter of `handleDrop` and `handleFileInput`.

  const CsvSuffix: string := ".csv"

  function CsvOnly(files: seq<string>): (r: seq<string>)
    ensures forall k :: 0 <= k < |r| ==> EndsWith(r[k], CsvSuffix)
    ensures forall x :: x in r <==> x in files && EndsWith(x, CsvSuffix)
    ensures |r| <= |files|
  {
    if files == [] then []
    else
      assert files == [files[0]] + files[1..];
      (if EndsWith(files[0], CsvSuffix) then [files[0]] else []) + CsvOnly(files[1..])
  }

  /** Filtering keeps the relative order: filtering a concatenation concatenates the filtered parts. */
  lemma {:induction false} CsvOnlyAppend(a: seq<string>, b: seq<string>)
    ensures CsvOnly(a + b) == CsvOnly(a) + CsvOnly(b)
    decreases |a|
  {
    if a != [] {
      var head := if EndsWith(a[0], CsvSuffix) then [a[0]] else [];
      assert (a + b)[0] == a[0] && (a + b)[1..] == a[1..] + b;
      CsvOnlyAppend(a[1..], b);
      calc {
        CsvOnly(a + b);
        head + CsvOnly(a[1..] + b);
        head + (CsvOnly(a[1..]) + CsvOnly(b));
        { AppendAssoc(head, CsvOnly(a[1..]), CsvOnly(b)); }
        head + CsvOnly(a[1..]) + CsvOnly(b);
        CsvOnly(a) + CsvOnly(b);
      }
    } else {
      assert a + b == b;
    }
  }

  // ---------------------------------------------------------------------
  // The per-year status updates of `uploadFile`.

  /** The outcome of the POST: the `entries` list length the server returned (if any), or a failure. */
  datatype UploadOutcome = Accepted(entries: Option<nat>) | Rejected

  /** One `prev.map(...)` step applied to the status of the uploaded year. */
  datatype Step = Begin | Uploaded(count: nat) | Failed

  const UploadFailed: string := "Upload failed"

  function Apply(step: Step, s: YearStatus): (t: YearStatus)
    ensures t.year == s.year
  {
    match step
    case Begin => s.(uploading := true, error := None)
    case Uploaded(n) => s.(hasData := true, teamCount := n, uploading := false, success := true)
    case Failed => s.(uploading := false, error := Some(UploadFailed))
  }

  /** `prev.map(s => s.year === year ? step(s) : s)`. */
  function UpdateYear(statuses: seq<YearStatus>, year: int, step: Step): (r: seq<YearStatus>)
    ensures |r| == |statuses|
    ensures forall k :: 0 <= k < |r| ==> r[k].year == statuses[k].year
    ensures forall k :: 0 <= k < |r| && statuses[k].year != year ==> r[k] == statuses[k]
  {
    seq(|statuses|, k requires 0 <= k < |statuses| =>
      if statuses[k].year == year then Apply(step, statuses[k]) else statuses[k])
  }

  function Finish(outcome: UploadOutcome): Step {
    match outcome
    case Accepted(entries) => Uploaded(entries.GetOr(0))
    case Rejected => Failed
  }

  /** The statuses after `uploadFile(file)` has run to its end; a missing or zero year changes nothing. */
  function AfterUpload(statuses: seq<YearStatus>, name: string, outcome: UploadOutcome): seq<YearStatus> {
    var year := ExtractYearFromFilename(name);
    if year.None? || year.value == 0 then statuses
    else UpdateYear(UpdateYear(statuses, year.value, Begin), year.value, Finish(outcome))
  }

  /**
   * An upload touches exactly the statuses of its year: they end not
   * uploading, with data and the returned team count and marked successful
   * after an accepted file, with the error message after a rejected one.
   */
  lemma UploadEffect(statuses: seq<YearStatus>, name: string, outcome: UploadOutcome, k: nat)
    requires k < |statuses|
    ensures var r := AfterUpload(statuses, name, outcome);
      var year := ExtractYearFromFilename(name);
      var s := statuses[k];
      |r| == |statuses|
      && (year.None? || year.value == 0 || s.year != year.value ==> r[k] == s)
      && (year.Some? && year.value != 0 && s.year == year.value ==>
            !r[k].uploading && r[k].year == s.year
            && (outcome.Accepted? ==> r[k].hasData && r[k].success && r[k].error.None?
                                      && r[k].teamCount == outcome.entries.GetOr(0))
            && (outcome.Rejected? ==> r[k].error == Some(UploadFailed) && r[k].hasData == s.hasData
                                      && r[k].success == s.success && r[k].teamCount == s.teamCount))
  {
  }

  /** A year no status carries leaves the statuses as they were. */
  lemma UnknownYearUnchanged(statuses: seq<YearStatus>, year: int, step: Step)
    requires forall k :: 0 <= k < |statuses| ==> statuses[k].year != year
    ensures UpdateYear(statuses, year, step) == statuses
  {
  }

  /** The statuses after uploading the files in order; `outcomes[i]` is the server's answer to `files[i]`. */
  function UploadEach(statuses: seq<YearStatus>, files: seq<string>, outcomes: seq<UploadOutcome>): seq<YearStatus>
    requires |outcomes| == |files|
    decreases |files|
  {
    if files == [] then statuses
    else
      var n := |files| - 1;
      AfterUpload(UploadEach(statuses, files[..n], outcomes[..n]), files[n], outcomes[n])
  }

  /** A status whose year no queued file names comes through the whole queue unchanged. */
  lemma {:induction false} UploadEachOthers(statuses: seq<YearStatus>, files: seq<string>, outcomes: seq<UploadOutcome>, k: nat)
    requires |outcomes| == |files| && k < |statuses|
    requires forall i :: 0 <= i < |files| ==> ExtractYearFromFilename(files[i]) != Some(statuses[k].year)
    ensures |UploadEach(statuses, files, outcomes)| == |statuses|
    ensures UploadEach(statuses, files, outcomes)[k] == statuses[k]
    decreases |files|
  {
    if files != [] {
      var n := |files| - 1;
      UploadEachOthers(statuses, files[..n], outcomes[..n], k);
      UploadEffect(UploadEach(statuses, files[..n], outcomes[..n]), files[n], outcomes[n], k);
    }
  }

  // ---------------------------------------------------------------------
  // `checkExistingData`: one status per season from the KenPom endpoint.

  /** What the GET answered: the `year` of each returned row, or a failure caught by `catch`. */
  datatype Fetch = Fetched(rowYears: seq<Option<int>>) | FetchFailed

  function StatusFor(year: int, response: Fetch): YearStatus {
    match response
    case Fetched(rows) => YearStatus(year, |rows| > 0 && rows[0] == Some(year), |rows|, false, None, false)
    case FetchFailed => YearStatus(year, false, 0, false, None, false)
  }

  function CheckedStatuses(responses: seq<Fetch>): (r: seq<YearStatus>)
    requires |responses| == |Years|
    ensures |r| == |Years|
    ensures forall k :: 0 <= k < |r| ==> r[k].year == 2015 + k && !r[k].uploading && !r[k].success
    ensures forall k :: 0 <= k < |r| ==>
      (r[k].hasData <==> responses[k].Fetched? && |responses[k].rowYears| > 0 && responses[k].rowYears[0] == Some(2015 + k))
    ensures forall k :: 0 <= k < |r| ==>
      r[k].error.None? && r[k].teamCount == (if responses[k].Fetched? then |responses[k].rowYears| else 0)
  {
    seq(|Years|, k requires 0 <= k < |Years| => StatusFor(Years[k], responses[k]))
  }

  /**
   * Every season asks the same endpoint, so when the answers agree at most
   * one season can be marked as having data: the one the first row names.
   */
  lemma SameAnswerOneSeason(responses: seq<Fetch>, i: nat, j: nat)
    requires |responses| == |Years| && i < j < |Years|
    requires responses[i] == responses[j]
    ensures !(CheckedStatuses(responses)[i].hasData && CheckedStatuses(responses)[j].hasData)
  {
  }

  // ---------------------------------------------------------------------
  // `getStatusColor` and `getStatusText`.

  const Blue: string := "#3b82f6"
  const Green: string := "#10b981"
  const Red: string := "#ef4444"
  const Grey: string := "#9ca3af"

  /** JavaScript truthiness of the optional error message. */
  predicate HasError(s: YearStatus) {
    s.error.Some? && s.error.value != ""
  }

  function StatusColor(s: YearStatus): string {
    if s.uploading then Blue
    else if s.success then Green
    else if HasError(s) then Red
    else if s.hasData then Green
    else Grey
  }

  function StatusText(s: YearStatus): string {
    if s.uploading then "Uploading..."
    else if s.success then "✓ Uploaded!"
    else if HasError(s) then "✗ Error"
    else if s.hasData then "✓ " + IntToString(s.teamCount) + " teams"
    else "○ No data"
  }

  /** The colour and the text agree: green exactly when the text starts with a check mark. */
  lemma ColorMatchesText(s: YearStatus)
    ensures StatusColor(s) == Green <==> StatusText(s)[0] == '✓'
    ensures StatusColor(s) == Blue <==> StatusText(s) == "Uploading..."
    ensures StatusColor(s) == Red <==> StatusText(s) == "✗ Error"
  {
  }

  /**
   * The display through an upload: "Uploading..." once it starts, then
   * "✓ Uploaded!" after an accepted file, and "✗ Error" after a rejected one
   * unless an earlier success is still showing.
   */
  lemma DisplayThroughUpload(s: YearStatus, outcome: UploadOutcome)
    ensures StatusText(Apply(Begin, s)) == "Uploading..."
    ensures var t := Apply(Finish(outcome), Apply(Begin, s));
      (outcome.Accepted? ==> StatusText(t) == "✓ Uploaded!")
      && (outcome.Rejected? ==> StatusText(t) == (if s.success then "✓ Uploaded!" else "✗ Error"))
  {
  }

  // ---------------------------------------------------------------------
  // The panel's state.

  class UploadPanel {
    var yearStatuses: seq<YearStatus>
    var uploadQueue: seq<string>

    constructor ()
      ensures yearStatuses == [] && uploadQueue == []
    {
      yearStatuses := [];
      uploadQueue := [];
    }

    /** `handleDrop` / `handleFileInput`: a non-empty selection replaces the queue with its `.csv` files. */
    method SelectFiles(files: seq<string>)
      modifies this
      ensures |files| > 0 ==> uploadQueue == CsvOnly(files)
      ensures |files| == 0 ==> uploadQueue == old(uploadQueue)
      ensures yearStatuses == old(yearStatuses)
    {
      if |files| > 0 {
        uploadQueue := CsvOnly(files);
      }
    }

    /** `uploadFile`: mark the file's year uploading, then record the server's answer. */
    method UploadFile(name: string, outcome: UploadOutcome)
      modifies this
      ensures yearStatuses == AfterUpload(old(yearStatuses), name, outcome)
      ensures uploadQueue == old(uploadQueue)
    {
      var year := ExtractYearFromFilename(name);
      if year.None? || year.value == 0 {
        return;
      }
      yearStatuses := UpdateYear(yearStatuses, year.value, Begin);
      match outcome {
        case Accepted(entries) =>
          yearStatuses := UpdateYear(yearStatuses, year.value, Uploaded(entries.GetOr(0)));
        case Rejected =>
          yearStatuses := UpdateYear(yearStatuses, year.value, Failed);
      }
    }

    /** `uploadAll`: upload the queued files one after another, then empty the queue. */
    method UploadAll(outcomes: seq<UploadOutcome>)
      requires |outcomes| == |uploadQueue|
      modifies this
      ensures yearStatuses == UploadEach(old(yearStatuses), old(uploadQueue), outcomes)
      ensures uploadQueue == []
    {
      var queue := uploadQueue;
      ghost var start := yearStatuses;
      for i := 0 to |queue|
        invariant uploadQueue == queue
        invariant yearStatuses == UploadEach(start, queue[..i], outcomes[..i])
      {
        assert queue[..i + 1][..i] == queue[..i] && outcomes[..i + 1][..i] == outcomes[..i];
        UploadFile(queue[i], outcomes[i]);
      }
      assert queue[..|queue|] == queue && outcomes[..|queue|] == outcomes;
      uploadQueue := [];
    }

    /** `checkExistingData`: one status per listed season, built in order; `responses[k]` answers season k. */
    method CheckExistingData(responses: seq<Fetch>)
      requires |responses| == |Years|
      modifies this
      ensures yearStatuses == CheckedStatuses(responses)
      ensures uploadQueue == old(uploadQueue)
    {
      var statuses: seq<YearStatus> := [];
      for i := 0 to |Years|
        invariant statuses == CheckedStatuses(responses)[..i]
      {
        statuses := statuses + [StatusFor(Years[i], responses[i])];
      }
      yearStatuses := statuses;
    }
  }
}

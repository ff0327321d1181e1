/** The capture worker (internal/operation/worker.go): marks the operation
    running, runs the capture, uploads the HAR and then each screenshot, and
    ends the operation complete or failed. The capture's outcome and the
    uploader are inputs; the uploader is the storage backend's Upload. */
module Worker {
  import opened Results
  import opened Operations
  import HarTypes
  import Capture

  // ---------------------------------------------------------------------
  // Object names

  /** The digit character of `d`. */
  function Digit(d: nat): char
    requires d < 10
  {
    ('0' as int + d) as char
  }

  /** The decimal digits of `n`, as `%d` prints them. */
  function Decimal(n: nat): string
  {
    if n < 10 then [Digit(n)] else Decimal(n / 10) + [Digit(n % 10)]
  }

  predicate IsDigits(s: string)
  {
    forall i :: 0 <= i < |s| ==> '0' <= s[i] <= '9'
  }

  /** The number a string of decimal digits denotes. */
  function ParseDecimal(s: string): nat
    requires IsDigits(s)
  {
    if s == [] then 0
    else 10 * ParseDecimal(s[..|s| - 1]) + (s[|s| - 1] as int - '0' as int)
  }

  /** Printing a number gives at least one digit and no other character,
      one digit below ten and two below a hundred; reading it back gives
      the number. */
  lemma {:induction false} DecimalRoundTrip(n: nat)
    ensures IsDigits(Decimal(n)) && |Decimal(n)| >= 1
    ensures n < 10 ==> |Decimal(n)| == 1
    ensures 10 <= n < 100 ==> |Decimal(n)| == 2
    ensures ParseDecimal(Decimal(n)) == n
  {
    if n >= 10 {
      DecimalRoundTrip(n / 10);
      var d := Decimal(n);
      assert d[..|d| - 1] == Decimal(n / 10);
    }
  }

  /** `n` as `%02d` prints it: zero-padded to at least two digits. */
  function TwoDigits(n: nat): string
  {
    if n < 10 then "0" + Decimal(n) else Decimal(n)
  }

  /** Two-digit numbering reads back as the number and, below a hundred, is
      exactly two characters wide. */
  lemma TwoDigitsRoundTrip(n: nat)
    ensures IsDigits(TwoDigits(n)) && ParseDecimal(TwoDigits(n)) == n
    ensures n < 100 ==> |TwoDigits(n)| == 2
  {
    DecimalRoundTrip(n);
    var r := TwoDigits(n);
    if n < 10 {
      assert r[..|r| - 1] == "0";
    }
  }

  /** "operations/<date>/<operationID>/<filename>"; `date` is the UTC date
      as yyyy/mm/dd. */
  function ObjectPath(date: string, operationID: string, filename: string): string
  {
    "operations/" + date + "/" + operationID + "/" + filename
  }

  const HarFilename: string := "capture.har"

  /** The file name of the i-th screenshot (counting from zero). */
  function ScreenshotFilename(i: nat, stage: Capture.LifecycleStage): string
  {
    "screenshot_" + TwoDigits(i + 1) + "_" + Capture.StageName(stage) + ".png"
  }

  /** The artefact name of a screenshot. */
  function ScreenshotArtefactName(stage: Capture.LifecycleStage): string
  {
    "screenshot_" + Capture.StageName(stage)
  }

  /** Object names keep the operation and file apart: the operation's
      directory is a prefix of the name and the file name ends it. */
  lemma ObjectPathLayout(date: string, operationID: string, filename: string)
    ensures var p := ObjectPath(date, operationID, filename);
      var dir := "operations/" + date + "/" + operationID + "/";
      && p[..|dir|] == dir && p[|dir|..] == filename
  {
  }

  // ---------------------------------------------------------------------
  // Uploads

  /** What is uploaded: the HAR (serialised to JSON by the source) or a
      screenshot's PNG bytes. */
  datatype Payload = HarJson(har: HarTypes.Har) | PngBytes(png: seq<bv8>)

  datatype UploadRequest = UploadRequest(objectName: string, content: Payload, contentType: string)

  datatype UploadResult = UploadResult(objectName: string, signedURL: string, expiresAt: Time)

  /** The storage backend's Upload, which may fail. */
  type Uploader = UploadRequest -> Result<UploadResult>

  function HarRequest(date: string, operationID: string, har: HarTypes.Har): UploadRequest
  {
    UploadRequest(ObjectPath(date, operationID, HarFilename), HarJson(har), "application/json")
  }

  function ShotRequest(date: string, operationID: string, i: nat, shot: Capture.Screenshot): UploadRequest
  {
    UploadRequest(ObjectPath(date, operationID, ScreenshotFilename(i, shot.stage)), PngBytes(shot.png), "image/png")
  }

  /** The artefact recording a successful upload under `name`. */
  function ArtefactOf(name: string, up: UploadResult): Artefact
  {
    Artefact(name, up.signedURL, up.expiresAt)
  }

  /** The screenshot upload requests, in screenshot order. */
  function ShotRequests(date: string, operationID: string, shots: seq<Capture.Screenshot>): (rs: seq<UploadRequest>)
    ensures |rs| == |shots|
  {
    seq(|shots|, k requires 0 <= k < |shots| => ShotRequest(date, operationID, k, shots[k]))
  }

  /** The screenshot artefact names, in screenshot order. */
  function ShotNames(shots: seq<Capture.Screenshot>): (names: seq<string>)
    ensures |names| == |shots|
  {
    seq(|shots|, k requires 0 <= k < |shots| => ScreenshotArtefactName(shots[k].stage))
  }

  /** How the screenshot uploads end: every one uploaded, or the first
      failure, with its index (counting from zero) and error. */
  datatype ShotUploads = AllUploaded(artefacts: seq<Artefact>) | ShotFailed(index: nat, message: string)

  /** Issues `requests[i..]` in order and names each uploaded object after
      `names`, stopping at the first failure. */
  function UploadShots(requests: seq<UploadRequest>, names: seq<string>, i: nat, uploader: Uploader): ShotUploads
    requires |names| == |requests| && i <= |requests|
    decreases |requests| - i
  {
    if i == |requests| then AllUploaded([])
    else
      match uploader(requests[i])
      case Err(m) => ShotFailed(i, m)
      case Ok(up) =>
        match UploadShots(requests, names, i + 1, uploader)
        case ShotFailed(j, m) => ShotFailed(j, m)
        case AllUploaded(rest) => AllUploaded([ArtefactOf(names[i], up)] + rest)
  }

  /** The error for the failed upload of the i-th screenshot (counting
      from zero); the message numbers screenshots from one. */
  function ScreenshotError(i: nat, message: string): string
  {
    "screenshot " + Decimal(i + 1) + ": " + message
  }

  /** What uploadArtefacts returns: the HAR's artefact followed by every
      screenshot's, or the first upload error. */
  function UploadOutcome(date: string, operationID: string, result: Capture.CaptureResult,
                         uploader: Uploader): Result<seq<Artefact>>
  {
    match uploader(HarRequest(date, operationID, result.har))
    case Err(m) => Err(m)
    case Ok(up) =>
      match UploadShots(ShotRequests(date, operationID, result.screenshots), ShotNames(result.screenshots), 0, uploader)
      case ShotFailed(j, m) => Err(ScreenshotError(j, m))
      case AllUploaded(rest) => Ok([ArtefactOf("har", up)] + rest)
  }

  /** The uploads all succeed exactly when every single request does. */
  lemma {:induction false} UploadShotsOk(requests: seq<UploadRequest>, names: seq<string>, i: nat, uploader: Uploader)
    requires |names| == |requests| && i <= |requests|
    ensures UploadShots(requests, names, i, uploader).AllUploaded? <==>
      forall k :: i <= k < |requests| ==> uploader(requests[k]).Ok?
    decreases |requests| - i
  {
    if i < |requests| {
      UploadShotsOk(requests, names, i + 1, uploader);
    }
  }

  /** Successful uploads give one artefact per request, in order, named
      after `names` and carrying its upload's signed URL and expiry. */
  lemma {:induction false} UploadShotsShape(requests: seq<UploadRequest>, names: seq<string>, i: nat, uploader: Uploader)
    requires |names| == |requests| && i <= |requests|
    requires UploadShots(requests, names, i, uploader).AllUploaded?
    ensures forall k :: i <= k < |requests| ==> uploader(requests[k]).Ok?
    ensures var arts := UploadShots(requests, names, i, uploader).artefacts;
      && |arts| == |requests| - i
      && forall k :: i <= k < |requests| ==> arts[k - i] == ArtefactOf(names[k], uploader(requests[k]).value)
    decreases |requests| - i
  {
    if i < |requests| {
      UploadShotsShape(requests, names, i + 1, uploader);
      var rest := UploadShots(requests, names, i + 1, uploader).artefacts;
      var arts := UploadShots(requests, names, i, uploader).artefacts;
      assert arts == [ArtefactOf(names[i], uploader(requests[i]).value)] + rest;
      forall k | i < k < |requests|
        ensures arts[k - i] == ArtefactOf(names[k], uploader(requests[k]).value)
      {
        assert arts[k - i] == rest[k - (i + 1)];
      }
    }
  }

  /** A failure names the first failing request: every earlier one
      succeeded and the named one returned that error. */
  lemma {:induction false} UploadShotsFailure(requests: seq<UploadRequest>, names: seq<string>, i: nat, uploader: Uploader)
    requires |names| == |requests| && i <= |requests|
    requires UploadShots(requests, names, i, uploader).ShotFailed?
    ensures var f := UploadShots(requests, names, i, uploader);
      && i <= f.index < |requests|
      && (forall k :: i <= k < f.index ==> uploader(requests[k]).Ok?)
      && uploader(requests[f.index]) == Err(f.message)
    decreases |requests| - i
  {
    if i < |requests| && uploader(requests[i]).Ok? {
      UploadShotsFailure(requests, names, i + 1, uploader);
    }
  }

  /** On success there is one artefact for the HAR, named "har", followed by
      one per screenshot in order, named after its stage; a failed HAR
      upload is reported as is, and a failed screenshot upload names the
      first failing screenshot, counting from one. */
  lemma UploadOutcomeShape(date: string, operationID: string, result: Capture.CaptureResult, uploader: Uploader)
    ensures var r := UploadOutcome(date, operationID, result, uploader);
      var requests := ShotRequests(date, operationID, result.screenshots);
      var names := ShotNames(result.screenshots);
      var har := uploader(HarRequest(date, operationID, result.har));
      && (r.Ok? <==> har.Ok? && forall k :: 0 <= k < |requests| ==> uploader(requests[k]).Ok?)
      && (har.Err? ==> r == Err(har.message))
      && (r.Ok? ==>
            && |r.value| == 1 + |requests|
            && r.value[0] == ArtefactOf("har", har.value)
            && forall k :: 0 <= k < |requests| ==> r.value[k + 1] == ArtefactOf(names[k], uploader(requests[k]).value))
      && (har.Ok? && r.Err? ==>
            exists j :: 0 <= j < |requests|
              && (forall k :: 0 <= k < j ==> uploader(requests[k]).Ok?)
              && uploader(requests[j]).Err?
              && r == Err(ScreenshotError(j, uploader(requests[j]).message)))
  {
    var requests := ShotRequests(date, operationID, result.screenshots);
    var names := ShotNames(result.screenshots);
    UploadShotsOk(requests, names, 0, uploader);
    var u := UploadShots(requests, names, 0, uploader);
    if u.AllUploaded? {
      UploadShotsShape(requests, names, 0, uploader);
      var har := uploader(HarRequest(date, operationID, result.har));
      if har.Ok? {
        var r := UploadOutcome(date, operationID, result, uploader);
        assert r.value == [ArtefactOf("har", har.value)] + u.artefacts;
      }
    } else {
      UploadShotsFailure(requests, names, 0, uploader);
    }
  }

  /** `u` with `done` put in front of its artefacts; a failure is kept. */
  function After(done: seq<Artefact>, u: ShotUploads): ShotUploads
  {
    match u
    case ShotFailed(j, m) => ShotFailed(j, m)
    case AllUploaded(rest) => AllUploaded(done + rest)
  }

  /** One more successful upload moves its artefact from the uploads still
      to come to those already done. */
  lemma UploadShotsStep(requests: seq<UploadRequest>, names: seq<string>, i: nat, uploader: Uploader,
                        done: seq<Artefact>, up: UploadResult)
    requires |names| == |requests| && i < |requests|
    requires uploader(requests[i]) == Ok(up)
    ensures After(done, UploadShots(requests, names, i, uploader)) ==
      After(done + [ArtefactOf(names[i], up)], UploadShots(requests, names, i + 1, uploader))
  {
    assert forall rest :: done + ([ArtefactOf(names[i], up)] + rest) == done + [ArtefactOf(names[i], up)] + rest;
  }

  /** Uploads each screenshot in order, stopping at the first failure (the
      loop of uploadArtefacts). `issued` records the upload requests made. */
  method UploadScreenshots(date: string, operationID: string, shots: seq<Capture.Screenshot>, uploader: Uploader)
    returns (u: ShotUploads, ghost issued: seq<UploadRequest>)
    ensures u == UploadShots(ShotRequests(date, operationID, shots), ShotNames(shots), 0, uploader)
    ensures u.AllUploaded? ==> issued == ShotRequests(date, operationID, shots)
    ensures u.ShotFailed? ==> u.index < |shots| && issued == ShotRequests(date, operationID, shots)[..u.index + 1]
  {
    ghost var requests := ShotRequests(date, operationID, shots);
    ghost var names := ShotNames(shots);
    var artefacts: seq<Artefact> := [];
    issued := [];
    assert After([], UploadShots(requests, names, 0, uploader)) == UploadShots(requests, names, 0, uploader);
    for i := 0 to |shots|
      invariant issued == requests[..i]
      invariant UploadShots(requests, names, 0, uploader) == After(artefacts, UploadShots(requests, names, i, uploader))
    {
      var request := ShotRequest(date, operationID, i, shots[i]);
      assert request == requests[i];
      issued := requests[..i + 1];
      var uploaded := uploader(request);
      if uploaded.Err? {
        return ShotFailed(i, uploaded.message), issued;
      }
      var artefact := ArtefactOf(ScreenshotArtefactName(shots[i].stage), uploaded.value);
      assert artefact == ArtefactOf(names[i], uploaded.value);
      UploadShotsStep(requests, names, i, uploader, artefacts, uploaded.value);
      artefacts := artefacts + [artefact];
    }
    assert artefacts + [] == artefacts;
    assert requests[..|shots|] == requests;
    return AllUploaded(artefacts), issued;
  }

  /** The upload requests uploadArtefacts issues, in order: the HAR's, then
      the screenshots' up to and including the first that fails. */
  ghost function Issued(date: string, operationID: string, result: Capture.CaptureResult,
                        uploader: Uploader): seq<UploadRequest>
  {
    var har := HarRequest(date, operationID, result.har);
    var requests := ShotRequests(date, operationID, result.screenshots);
    var names := ShotNames(result.screenshots);
    if uploader(har).Err? then [har]
    else
      match UploadShots(requests, names, 0, uploader)
      case AllUploaded(_) => [har] + requests
      case ShotFailed(j, _) =>
        UploadShotsFailure(requests, names, 0, uploader);
        [har] + requests[..j + 1]
  }

  /** Uploads the HAR, then each screenshot in order, stopping at the first
      failure. `issued` records the upload requests made, in order: the
      HAR's, then a prefix of the screenshots', of which only the last may
      have failed. */
  method UploadArtefacts(date: string, operationID: string, result: Capture.CaptureResult, uploader: Uploader)
    returns (r: Result<seq<Artefact>>, ghost issued: seq<UploadRequest>)
    ensures r == UploadOutcome(date, operationID, result, uploader)
    ensures |issued| >= 1 && issued[0] == HarRequest(date, operationID, result.har)
    ensures |issued| <= 1 + |result.screenshots|
    ensures issued[1..] == ShotRequests(date, operationID, result.screenshots)[..|issued| - 1]
    ensures forall k :: 0 <= k < |issued| - 1 ==> uploader(issued[k]).Ok?
    ensures r.Ok? ==> |issued| == 1 + |result.screenshots| && uploader(issued[|issued| - 1]).Ok?
    ensures r.Err? ==> uploader(issued[|issued| - 1]).Err?
    ensures issued == Issued(date, operationID, result, uploader)
  {
    var harRequest := HarRequest(date, operationID, result.har);
    issued := [harRequest];
    var uploaded := uploader(harRequest);
    if uploaded.Err? {
      return Err(uploaded.message), issued;
    }
    var harArtefact := ArtefactOf("har", uploaded.value);

    ghost var requests := ShotRequests(date, operationID, result.screenshots);
    ghost var names := ShotNames(result.screenshots);
    var shotsUploaded, shotsIssued := UploadScreenshots(date, operationID, result.screenshots, uploader);
    issued := issued + shotsIssued;
    assert issued[1..] == shotsIssued;
    match shotsUploaded {
      case ShotFailed(i, m) =>
        UploadShotsFailure(requests, names, 0, uploader);
        return Err(ScreenshotError(i, m)), issued;
      case AllUploaded(artefacts) =>
        UploadShotsShape(requests, names, 0, uploader);
        return Ok([harArtefact] + artefacts), issued;
    }
  }

  // ---------------------------------------------------------------------
  // The job

  /** The terminal change a run asks for, given the capture's outcome. */
  function Verdict(date: string, operationID: string, captured: Result<Capture.CaptureResult>,
                   uploader: Uploader): (c: Change)
    ensures c.ToFailed? || c.ToComplete?
    ensures captured.Err? ==> c == ToFailed("capture: " + captured.message)
    ensures captured.Ok? && UploadOutcome(date, operationID, captured.value, uploader).Err? ==>
      c == ToFailed("upload: " + UploadOutcome(date, operationID, captured.value, uploader).message)
    ensures c.ToComplete? ==>
      && captured.Ok?
      && c.ttfb == captured.value.ttfb && c.timedOut == captured.value.timedOut
      && UploadOutcome(date, operationID, captured.value, uploader) == Ok(c.artefacts)
  {
    match captured
    case Err(m) => ToFailed("capture: " + m)
    case Ok(result) =>
      match UploadOutcome(date, operationID, result, uploader)
      case Err(m) => ToFailed("upload: " + m)
      case Ok(artefacts) => ToComplete(result.ttfb, result.timedOut, artefacts)
  }

  /** Runs one job: mark running (giving up silently if the id is unknown),
      then end the operation with exactly one terminal mark. `captured` is
      the capture's outcome; `startedAt` and `finishedAt` are the clock at
      the two store updates. `calls` lists the changes requested from the
      store, in order, `captureRan` whether the capture was run, and
      `uploads` the upload requests issued, in order. */
  method Run(store: MemoryStore, operationID: string, date: string,
             captured: Result<Capture.CaptureResult>, uploader: Uploader,
             startedAt: Time, finishedAt: Time)
    returns (ghost calls: seq<Change>, ghost captureRan: bool, ghost uploads: seq<UploadRequest>)
    modifies store
    ensures |calls| >= 1 && calls[0] == ToRunning
    ensures captureRan <==> operationID in old(store.ops)
    ensures operationID !in old(store.ops) || captured.Err? ==> uploads == []
    ensures operationID in old(store.ops) && captured.Ok? ==>
      uploads == Issued(date, operationID, captured.value, uploader)
    ensures operationID !in old(store.ops) ==> calls == [ToRunning] && store.ops == old(store.ops)
    ensures operationID in old(store.ops) ==>
      && calls == [ToRunning, Verdict(date, operationID, captured, uploader)]
      && store.ops == Updated(Updated(old(store.ops), operationID, ToRunning, startedAt),
                              operationID, calls[1], finishedAt)
  {
    calls, captureRan, uploads := [ToRunning], false, [];
    var err := store.MarkRunning(operationID, startedAt);
    if err.Fail? {
      return;
    }
    captureRan := true;

    if captured.Err? {
      calls := calls + [ToFailed("capture: " + captured.message)];
      err := store.MarkFailed(operationID, "capture: " + captured.message, finishedAt);
      return;
    }
    var result := captured.value;

    var artefacts, issued := UploadArtefacts(date, operationID, result, uploader);
    uploads := issued;
    if artefacts.Err? {
      calls := calls + [ToFailed("upload: " + artefacts.message)];
      err := store.MarkFailed(operationID, "upload: " + artefacts.message, finishedAt);
      return;
    }

    calls := calls + [ToComplete(result.ttfb, result.timedOut, artefacts.value)];
    err := store.MarkComplete(operationID, result.ttfb, result.timedOut, artefacts.value, finishedAt);
  }

  /** Seen through the worker, a pending operation only moves forward: to
      running, then to complete or failed, and nothing else changes. */
  lemma RunAdvancesPending(ops: map<string, Operation>, operationID: string, date: string,
                           captured: Result<Capture.CaptureResult>, uploader: Uploader,
                           startedAt: Time, finishedAt: Time)
    requires operationID in ops && ops[operationID].status == Pending
    ensures var running := Updated(ops, operationID, ToRunning, startedAt);
      var finished := Updated(running, operationID, Verdict(date, operationID, captured, uploader), finishedAt);
      && Advances(ops[operationID].status, running[operationID].status)
      && Advances(running[operationID].status, finished[operationID].status)
      && (finished[operationID].status == Complete <==>
            captured.Ok? && UploadOutcome(date, operationID, captured.value, uploader).Ok?)
      && (forall other :: other in ops && other != operationID ==> finished[other] == ops[other])
  {
  }
}

/** The value types of the verification result (audioscribe/core/models.py):
    the tri-state status, the optional metrics and the result record. */
module Models {
  import opened Wrappers

  /** High-level verification outcome: the file passed all checks, is usable
      with quality issues, or is invalid. */
  datatype Status = Ok | Warning | Failed {
    /** The string value the enumeration carries. */
    function Value(): string {
      match this
      case Ok => "ok"
      case Warning => "warning"
      case Failed => "failed"
    }
  }

  /** Lookup of a status by its string value, as `VerificationStatus(v)`
      does; `None` where Python raises `ValueError`. */
  function ParseStatus(v: string): (s: Option<Status>)
    ensures s.Some? ==> s.value.Value() == v
  {
    if v == "ok" then Some(Ok)
    else if v == "warning" then Some(Warning)
    else if v == "failed" then Some(Failed)
    else None
  }

  /** Every status is found again from its value, and only from it: the
      three values are distinct and nothing else names a status. */
  lemma StatusValueRoundTrip(s: Status, v: string)
    ensures ParseStatus(s.Value()) == Some(s)
    ensures ParseStatus(v).Some? <==> v in {"ok", "warning", "failed"}
  {
    assert "ok" != "warning" && "ok" != "failed" && "warning" != "failed";
  }

  /** Technical properties of an audio file; every field is optional because
      the probe may omit any of them. */
  datatype Metrics = Metrics(
    durationS: Option<real>,
    fileSizeBytes: Option<int>,
    bitrateKbps: Option<int>,
    sampleRateHz: Option<int>,
    channels: Option<int>,
    codec: Option<string>)
  {
    predicate IsEmpty() {
      && durationS.None? && fileSizeBytes.None? && bitrateKbps.None?
      && sampleRateHz.None? && channels.None? && codec.None?
    }
  }

  /** The metrics a default-constructed `VerificationMetrics` holds. */
  function DefaultMetrics(): (m: Metrics)
    ensures m.IsEmpty()
  {
    Metrics(None, None, None, None, None, None)
  }

  /** The reasons a verification reports. The source formats each as a
      string; the model keeps the data the string is built from. */
  datatype Message =
    | FileNotFound(path: string)            // "File not found: <path>"
    | ProbeLaunchFailed(exception: string)  // "ffprobe execution failed: <repr>"
    | ProbeStderr(text: string)             // stripped standard error of the probe
    | ProbeReturnedError                    // "ffprobe returned error"
    | InvalidJson                           // "Invalid JSON returned from ffprobe"
    | InvalidOrZeroDuration                 // "Invalid or zero duration"
    | DurationTooShort(durationS: real)     // "Duration too short: <d>s < 5.00s"
    | LowBitrate(bitrateKbps: int)          // "Low bitrate: <b> kbps < 96 kbps"

  /** The result record: status, the metrics it was computed from, non-fatal
      warnings and fatal errors, in the order they were found. */
  datatype VerificationResult = VerificationResult(
    status: Status,
    metrics: Metrics,
    warnings: seq<Message>,
    errors: seq<Message>)
  {
    /** The `ok` convenience flag. */
    predicate IsOk() {
      status == Ok
    }
  }

  /** A result built from a status alone: the dataclass defaults give empty
      metrics and empty warning and error lists. */
  function WithStatus(status: Status, errors: seq<Message>): (r: VerificationResult)
    ensures r.status == status && r.errors == errors
    ensures r.metrics.IsEmpty() && r.warnings == []
  {
    VerificationResult(status, DefaultMetrics(), [], errors)
  }
}

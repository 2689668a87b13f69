/** The audio verification classifier (audioscribe/core/verify_audio.py):
    from what the probe reported about a file, extract the metrics, apply
    the duration rule (fatal) and the bitrate rule (non-fatal), and derive
    the status from the two lists. Every failure is a returned value. */
module VerifyAudio {
  import opened Wrappers
  import opened Text
  import opened Models

  /** Durations below this many seconds are too short (rule A1). */
  const MinDurationS: real := 5.0
  /** Bitrates below this many kbps earn a warning (rule A2). */
  const MinBitrateKbps: int := 96

  /** One entry of the probe's `streams` list. A numeric field is `Some`
      when the probe gave a truthy value for it, already converted to a
      number; the codec type and codec name are neither tested for
      truthiness nor converted, so they are `Some` exactly when the key is
      present and not null (an empty name stays `Some("")`). */
  datatype StreamInfo = StreamInfo(
    codecType: Option<string>,
    sampleRate: Option<int>,
    channels: Option<int>,
    codecName: Option<string>)

  /** The probe's `format` object, with the numeric convention; a missing
      `format` object has every field `None`. */
  datatype FormatInfo = FormatInfo(
    duration: Option<real>,
    bitRate: Option<int>,
    size: Option<int>)

  /** The decoded probe output; a missing `streams` list is empty. */
  datatype ProbeData = ProbeData(format: FormatInfo, streams: seq<StreamInfo>)

  /** What decoding the probe's standard output as JSON gave. */
  datatype ProbeOutput = NotJson | Json(data: ProbeData)

  /** What running the probe gave: the launch raised (the text is the
      exception's representation), or the process completed. */
  datatype ProbeRun =
    | LaunchRaised(exception: string)
    | Completed(returnCode: int, stderr: string, stdout: ProbeOutput)

  predicate IsAudio(s: StreamInfo) {
    s.codecType == Some("audio")
  }

  /** Position of the first audio stream, or `|streams|` when there is none. */
  function FirstAudioIndex(streams: seq<StreamInfo>): (i: nat)
    ensures i <= |streams|
    ensures forall k :: 0 <= k < i ==> !IsAudio(streams[k])
    ensures i < |streams| ==> IsAudio(streams[i])
  {
    if streams == [] || IsAudio(streams[0]) then 0 else 1 + FirstAudioIndex(streams[1..])
  }

  /** The stream the metrics are read from: the first audio stream, or an
      empty one (the `{}` default) when there is none. */
  function AudioStream(streams: seq<StreamInfo>): StreamInfo {
    var i := FirstAudioIndex(streams);
    if i < |streams| then streams[i] else StreamInfo(None, None, None, None)
  }

  /** Metric extraction. Duration and size are taken as given; the bitrate
      is converted from bits to kilobits per second by floor division;
      sample rate, channels and codec come from the first audio stream and
      are all absent when there is none. */
  function Extract(data: ProbeData): (m: Metrics)
    ensures m.durationS == data.format.duration
    ensures m.fileSizeBytes == data.format.size
    ensures m.bitrateKbps.Some? <==> data.format.bitRate.Some?
    ensures m.bitrateKbps.Some? ==>
              m.bitrateKbps.value * 1000 <= data.format.bitRate.value < (m.bitrateKbps.value + 1) * 1000
    ensures (forall s :: s in data.streams ==> !IsAudio(s)) ==>
              m.sampleRateHz.None? && m.channels.None? && m.codec.None?
    ensures forall i :: 0 <= i < |data.streams| && IsAudio(data.streams[i])
                        && (forall k :: 0 <= k < i ==> !IsAudio(data.streams[k])) ==>
              && m.sampleRateHz == data.streams[i].sampleRate
              && m.channels == data.streams[i].channels
              && m.codec == data.streams[i].codecName
  {
    var audio := AudioStream(data.streams);
    var bitrate := match data.format.bitRate
      case None => None
      case Some(b) => Some(b / 1000);
    var m := Metrics(data.format.duration, data.format.size, bitrate,
                     audio.sampleRate, audio.channels, audio.codecName);
    assert (forall s :: s in data.streams ==> !IsAudio(s)) ==> FirstAudioIndex(data.streams) == |data.streams| by {
      var i := FirstAudioIndex(data.streams);
      if i < |data.streams| { assert data.streams[i] in data.streams; }
    }
    m
  }

  /** Rule A1: a missing or non-positive duration is an error, and so is a
      positive one below the minimum; at most one of the two fires. */
  function DurationRule(duration: Option<real>): (errors: seq<Message>)
    ensures |errors| <= 1
    ensures errors == [] <==> duration.Some? && duration.value >= MinDurationS
    ensures errors == [InvalidOrZeroDuration] <==> duration.None? || duration.value <= 0.0
    ensures duration.Some? && 0.0 < duration.value < MinDurationS ==> errors == [DurationTooShort(duration.value)]
  {
    if duration.None? || duration.value <= 0.0 then [InvalidOrZeroDuration]
    else if duration.value < MinDurationS then [DurationTooShort(duration.value)]
    else []
  }

  /** Rule A2: a known bitrate below the minimum is a warning, never an error. */
  function BitrateRule(bitrate: Option<int>): (warnings: seq<Message>)
    ensures warnings == [] <==> bitrate.None? || bitrate.value >= MinBitrateKbps
    ensures bitrate.Some? && bitrate.value < MinBitrateKbps ==> warnings == [LowBitrate(bitrate.value)]
  {
    if bitrate.Some? && bitrate.value < MinBitrateKbps then [LowBitrate(bitrate.value)] else []
  }

  /** The status is decided by the emptiness of the two lists alone: any
      error fails, otherwise any warning warns, otherwise all is well. */
  function DeriveStatus(errors: seq<Message>, warnings: seq<Message>): (s: Status)
    ensures s == Failed <==> errors != []
    ensures s == Warning <==> errors == [] && warnings != []
    ensures s == Ok <==> errors == [] && warnings == []
  {
    if errors != [] then Failed
    else if warnings != [] then Warning
    else Ok
  }

  /** Both rules are applied to the metrics, whatever the other one finds. */
  function Classify(m: Metrics): (r: VerificationResult)
    ensures r.metrics == m
    ensures r.errors == DurationRule(m.durationS) && r.warnings == BitrateRule(m.bitrateKbps)
    ensures r.status == DeriveStatus(r.errors, r.warnings)
  {
    var errors := DurationRule(m.durationS);
    var warnings := BitrateRule(m.bitrateKbps);
    VerificationResult(DeriveStatus(errors, warnings), m, warnings, errors)
  }

  /** The message for a probe that exited non-zero: its stripped standard
      error, or a fixed text when that is empty. */
  function NonZeroExitMessage(stderr: string): (msg: Message)
    ensures msg == ProbeReturnedError <==> AllSpace(stderr)
    ensures !AllSpace(stderr) ==> msg == ProbeStderr(Strip(stderr))
    ensures msg.ProbeStderr? ==> msg.text == Strip(stderr) && msg.text != []
  {
    StripSpec(stderr);
    if Strip(stderr) != [] then ProbeStderr(Strip(stderr)) else ProbeReturnedError
  }

  /** Verification of the file at `path`. `fileExists` is what the file
      system answers for the path, and `run` is what running the probe on it
      gave. A missing file and each probe failure give a failed result with
      exactly one error, no warnings and empty metrics; otherwise the metrics
      are extracted and classified. On every path the status is the one the
      error and warning lists determine. */
  function Verify(path: string, fileExists: bool, run: ProbeRun): (r: VerificationResult)
    ensures r.status == DeriveStatus(r.errors, r.warnings)
    ensures !fileExists ==>
              r.status == Failed && r.errors == [FileNotFound(path)] && r.warnings == [] && r.metrics.IsEmpty()
    ensures fileExists && run.LaunchRaised? ==>
              r.status == Failed && r.errors == [ProbeLaunchFailed(run.exception)]
              && r.warnings == [] && r.metrics.IsEmpty()
    ensures fileExists && run.Completed? && run.returnCode != 0 ==>
              r.status == Failed && r.errors == [NonZeroExitMessage(run.stderr)]
              && r.warnings == [] && r.metrics.IsEmpty()
    ensures fileExists && run.Completed? && run.returnCode == 0 && run.stdout.NotJson? ==>
              r.status == Failed && r.errors == [InvalidJson] && r.warnings == [] && r.metrics.IsEmpty()
    ensures fileExists && run.Completed? && run.returnCode == 0 && run.stdout.Json? ==>
              r == Classify(Extract(run.stdout.data))
  {
    if !fileExists then WithStatus(Failed, [FileNotFound(path)])
    else match run
      case LaunchRaised(e) => WithStatus(Failed, [ProbeLaunchFailed(e)])
      case Completed(code, stderr, stdout) =>
        if code != 0 then WithStatus(Failed, [NonZeroExitMessage(stderr)])
        else match stdout
          case NotJson => WithStatus(Failed, [InvalidJson])
          case Json(data) => Classify(Extract(data))
  }

  /** Whatever the input, a verification reports at most one error, and
      every warning is a low-bitrate warning. */
  lemma AtMostOneError(path: string, fileExists: bool, run: ProbeRun)
    ensures |Verify(path, fileExists, run).errors| <= 1
    ensures forall w :: w in Verify(path, fileExists, run).warnings ==> w.LowBitrate?
  {
  }

  /** The `ok` flag of a verification holds exactly when it found neither
      an error nor a warning. */
  lemma IsOkIffClean(path: string, fileExists: bool, run: ProbeRun)
    ensures Verify(path, fileExists, run).IsOk() <==>
              Verify(path, fileExists, run).errors == [] && Verify(path, fileExists, run).warnings == []
  {
  }

  /** A long enough file with no low bitrate passes cleanly. */
  lemma LongAndGoodBitrateIsOk(m: Metrics)
    requires m.durationS.Some? && m.durationS.value >= MinDurationS
    requires m.bitrateKbps.None? || m.bitrateKbps.value >= MinBitrateKbps
    ensures Classify(m).status == Ok && Classify(m).errors == [] && Classify(m).warnings == []
  {
  }

  /** A long enough file with a low bitrate is usable with one warning. */
  lemma LongButLowBitrateWarns(m: Metrics)
    requires m.durationS.Some? && m.durationS.value >= MinDurationS
    requires m.bitrateKbps.Some? && m.bitrateKbps.value < MinBitrateKbps
    ensures Classify(m).status == Warning && Classify(m).errors == []
    ensures Classify(m).warnings == [LowBitrate(m.bitrateKbps.value)]
  {
  }

  /** The bitrate rule is applied even when the duration rule has failed the
      file: a zero duration with a low bitrate reports both. */
  lemma BothRulesReport(m: Metrics)
    requires m.durationS == Some(0.0) && m.bitrateKbps == Some(64)
    ensures Classify(m).status == Failed
    ensures Classify(m).errors == [InvalidOrZeroDuration] && Classify(m).warnings == [LowBitrate(64)]
  {
  }
}

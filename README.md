# audioscribe core, modelled in Dafny

This project models the core of *audioscribe*, an early command-line tool that
downloads audio from URLs and checks its technical quality:

- **the audio verification classifier** (`audioscribe/core/verify_audio.py`
  with the value types of `audioscribe/core/models.py`): from the metadata a
  media probe (ffprobe) reports for a file, it extracts optional metrics
  (duration, bitrate in kbps, sample rate, channels, codec, size), applies a
  fatal duration rule and a non-fatal low-bitrate rule, and derives a
  tri-state status (`ok` / `warning` / `failed`) from whether the error and
  warning lists are empty. A missing file and every probe failure are
  returned as a failed result, never raised;
- **the prototype job store** (`audioscribe_core_fake.py`): `create_job`
  validates and strips a list of URLs and stores a job whose progress map
  has every URL queued; `process_job` takes the job through running to done
  and marks every URL done; `get_job_summary` counts the done entries;
- **the in-memory job store** (`audioscribe/core/jobs.py`): `create_job`
  keeps the non-blank URLs, `get_job_status` reports whether a job exists,
  and `process_job` refuses unknown and empty jobs, hands the first URL to
  the downloader (yt-dlp) and reports the last line of its output as the
  downloaded path.

Files: `wrappers.dfy` (Option, Result, Outcome), `text.dfy` (Python's
`str.strip()`, `str.splitlines()` and `s[-n:]`), `models.dfy`,
`verify_audio.dfy`, `fake_core.dfy`, `jobs.dfy`.

Modelling choices:

- External effects are inputs. Whether the file exists, what running the
  probe gave (the launch raised; or the exit code, standard error and the
  decoded JSON, or "not JSON"), what running the downloader gave, whether
  the reported path exists, job ids (`uuid4`) and timestamps
  (`datetime.now`) are parameters.
- The probe record is already decoded. A numeric field (duration, bit rate,
  size, sample rate, channels) is `Some(v)` when the source's truthiness
  test on the raw field passes, `v` being the converted number. The codec
  type and codec name are neither tested for truthiness nor converted, so
  they are `Some` exactly when the key is present and not null; an empty
  codec name stays `Some("")`.
- Python's `//` by 1000 is Dafny's `/`: for a positive divisor both round
  towards minus infinity.
- Messages are a datatype (`FileNotFound(path)`, `DurationTooShort(d)`,
  `LowBitrate(b)`, …) holding the data each message string is built from.
- The fake store's jobs are objects (`class Job`) whose `status` and
  `progress` fields `process_job` updates in place; the store object holds
  the module-level dictionary as a `map<string, Job>`. Its invariant: every
  job is stored under its own id, its progress map is keyed by exactly its
  URLs, and no job object sits under two ids. The `jobs.py` job is a frozen
  dataclass, so it is a datatype value.
- The code tests the raw field's truthiness, not the converted number: a
  raw `"0.0"` is a truthy string, so it gives `Some(0.0)`, which the
  invalid-or-zero-duration branch catches. A truthy non-numeric field makes
  the code raise instead of returning a result. The model follows the code.

## Model

| member | source | states |
|---|---|---|
| Models.StatusValueRoundTrip | audioscribe/core/models.py:7-17 | the three status values are distinct, each status is found again from its value, and only "ok", "warning", "failed" name a status |
| Models.ParseStatus | audioscribe/core/models.py:15-17 | a value lookup that succeeds returns the status carrying that value |
| Models.DefaultMetrics | audioscribe/core/models.py:20-31 | default metrics have every field absent |
| Models.WithStatus | audioscribe/core/models.py:45-47 | a result built from a status (and errors) has empty metrics and no warnings |
| VerifyAudio.IsOkIffClean | audioscribe/core/models.py:49-54 | the `ok` flag of any verification holds exactly when it found no error and no warning |
| VerifyAudio.FirstAudioIndex | audioscribe/core/verify_audio.py:63-66 | the index found is that of the first stream whose codec type is "audio": all earlier streams are not audio; it is the length when no stream is audio |
| VerifyAudio.Extract | audioscribe/core/verify_audio.py:60-81 | duration and size are taken as given; bitrate is present iff the raw bit rate is, and is its floor division by 1000; sample rate, channels and codec are those of the first audio stream, all absent when there is none |
| VerifyAudio.DurationRule | audioscribe/core/verify_audio.py:88-91 | at most one error; exactly "invalid or zero duration" iff the duration is absent or not positive; "too short" carrying the duration iff it lies in (0, 5); none iff it is at least 5 |
| VerifyAudio.BitrateRule | audioscribe/core/verify_audio.py:93-95 | one low-bitrate warning carrying the bitrate iff the bitrate is present and below 96, otherwise none |
| VerifyAudio.DeriveStatus | audioscribe/core/verify_audio.py:97-103 | failed iff errors are non-empty; warning iff errors are empty and warnings are not; ok iff both are empty |
| VerifyAudio.Classify | audioscribe/core/verify_audio.py:83-110 | both rules are applied to the metrics independently, errors come only from the duration rule and warnings only from the bitrate rule, and the status is derived from the two lists |
| VerifyAudio.NonZeroExitMessage | audioscribe/core/verify_audio.py:46-50 | the message is exactly the stripped standard error when that is not blank, and the fixed "returned error" message exactly when it is |
| VerifyAudio.Verify | audioscribe/core/verify_audio.py:14-110 | on every path the status is the one derived from the error and warning lists; a missing file, a launch that raised, a non-zero exit and non-JSON output each give failed with exactly that one error, no warnings and empty metrics; decoded output is extracted and classified |
| VerifyAudio.AtMostOneError | audioscribe/core/verify_audio.py:87-95 | no verification reports more than one error, and every warning is a low-bitrate warning |
| VerifyAudio.LongAndGoodBitrateIsOk | audioscribe/core/verify_audio.py:88-103 | duration at least 5 with bitrate absent or at least 96 gives ok with no errors and no warnings |
| VerifyAudio.LongButLowBitrateWarns | audioscribe/core/verify_audio.py:88-103 | duration at least 5 with bitrate below 96 gives warning, no errors and exactly the low-bitrate warning |
| VerifyAudio.BothRulesReport | audioscribe/core/verify_audio.py:87-95 | duration 0 with bitrate 64 gives failed with the duration error and the bitrate warning both reported |
| FakeCore.Job.constructor | audioscribe_core_fake.py:20-26 | a new job holds the given id, URLs, timestamp and progress, with status created |
| FakeCore.FakeStore.constructor | audioscribe_core_fake.py:30 | the store starts empty and valid |
| FakeCore.CleanUrls | audioscribe_core_fake.py:38-45 | the not-a-non-empty-list error iff the argument is not a list or is empty; the blank-or-non-string error iff it is a non-empty list with an element that is not a string or is blank; on success the cleaned URLs are the stripped elements, same length and order |
| FakeCore.FakeStore.CreateJob | audioscribe_core_fake.py:33-58 | fails exactly on the two `ValueError` conditions, with the not-a-non-empty-list error exactly when the argument is not a list or is empty, and then stores nothing; on success returns the given id, the store gains exactly that id, other jobs are untouched, and the fresh job is created with the cleaned URLs all queued |
| FakeCore.MarkDoneSpec | audioscribe_core_fake.py:72-86 | marking URLs done keeps the old keys plus the URLs, sets every URL to done and leaves every other entry unchanged |
| FakeCore.FakeStore.ProcessJob | audioscribe_core_fake.py:61-87 | an unknown id gives `KeyError` and changes nothing; when `time.sleep` refuses the step delay and the job has URLs, the call fails with the job left running and only its first URL set processing; otherwise the job ends done with its progress the old progress with every URL marked done; in all cases the store map and all other jobs are unchanged, and the store stays valid |
| FakeCore.DoneCount | audioscribe_core_fake.py:98 | the done count never exceeds the number of progress entries |
| FakeCore.DistinctCount | audioscribe_core_fake.py:98-104 | a URL list has at most as many distinct URLs as entries, and exactly as many iff no URL repeats |
| FakeCore.FakeStore.GetJobSummary | audioscribe_core_fake.py:90-106 | an unknown id gives `KeyError`; otherwise the summary copies id, timestamp, status and progress, total is the number of URLs, done counts the progress entries that are done, and in a valid store done never exceeds total |
| FakeCore.DoneAfterProcessing | audioscribe_core_fake.py:72-104 | after processing, the done count equals the number of distinct URLs, and equals the total exactly when no URL repeats |
| Text.StripSpec | audioscribe/core/jobs.py:25 | `strip()` keeps the contiguous piece of the string between its leading and trailing whitespace, which neither starts nor ends with whitespace, and is empty exactly for an all-whitespace string |
| Text.StripIdempotent | audioscribe/core/jobs.py:25 | stripping a stripped string changes nothing |
| Jobs.KeepNonBlank | audioscribe/core/jobs.py:25 | the filter never keeps more URLs than it was given |
| Jobs.KeepNonBlankAppend | audioscribe/core/jobs.py:25 | filtering a concatenation concatenates the filtered parts, so kept URLs stay in input order |
| Jobs.KeepNonBlankMembers | audioscribe/core/jobs.py:25 | a string is kept iff it is non-empty and the stripped form of some input URL; every kept URL is already stripped |
| Jobs.JobStore.constructor | audioscribe/core/jobs.py:17 | the store starts empty |
| Jobs.JobStore.CreateJob | audioscribe/core/jobs.py:20-35 | the job with the kept URLs is stored under the given id, the answer carries that id and the number of kept URLs, and the job then exists |
| Jobs.JobStore.GetJobStatus | audioscribe/core/jobs.py:100-111 | the answer names the id and says it exists exactly when a job is stored under it |
| Text.Tail | audioscribe/core/jobs.py:83 | `s[-n:]` is the last n characters of s, or all of s when it is shorter or n is 0 (n is 800 for the downloader's standard error) |
| Text.LastLineIsFinalSegment | audioscribe/core/jobs.py:87 | for a string not ending on a line boundary, the last line `splitlines()` gives is the non-empty suffix after its last boundary: it holds no boundary and is the whole string or follows a boundary |
| Jobs.Mp3PathSpec | audioscribe/core/jobs.py:87 | the reported path is empty exactly for blank output; otherwise it is the final line segment of the stripped output and does not end with whitespace |
| Jobs.JobStore.ProcessJob | audioscribe/core/jobs.py:38-97 | "job not found" exactly for an unknown id, "no urls in job" exactly for a job without URLs; otherwise only the first URL is downloaded, a missing or failing downloader is reported as a value (with the standard-error tail), and a completed one reports the path taken from its output, said to exist only when it is non-empty and present on disk; the reply is `ok` exactly when the job has URLs and the download completed |

## Left out

- The `ffprobe` and `yt-dlp` subprocess calls and `Path.exists`: external effects, modelled only through their outcomes, which are parameters. `Path.exists` re-raises errors other than "no such file" (a permission error on a parent directory, say), so `verify_audio` can raise at its first check; a boolean answer cannot express that. The downloader's command line and output template are not modelled.
- Jobs.JobStore.ProcessJob: assumes that creating the `outputs` directory (`mkdir`, jobs.py:53-54) succeeds and that launching the downloader fails, if at all, only with `FileNotFoundError`; any other exception from either (a permission error, say) propagates out of the source's `process_job`, and `Download` cannot express it.
- VerifyAudio.Extract: durations are reals, so a probe duration that Python converts to NaN or infinity is not modelled. For NaN both `duration <= 0` and `duration < 5.0` are false, so the source reports no duration error and can return `ok`; the model cannot express that input.
- JSON decoding and the conversion of probe fields to numbers. A truthy field that is not a number (or a JSON document or stream entry that is not an object) makes the source raise instead of returning a result; the decoded probe record of the model cannot express such input, so "every failure is a value" is proved only for decodable probe output.
- The text of messages: `.2f` formatting of the duration, `repr` of the exception, and the string form of a `Path` (which normalises the path). Messages carry the raw data instead.
- `uuid4`, `datetime.now` and `print`: ids and timestamps are parameters; printing has no observable effect on the stores.
- FakeCore.FakeStore.ProcessJob: the value of `step_delay_seconds` and the waiting itself are not modelled; only whether `time.sleep` accepts the delay is an input (`sleepAccepts`). A refused delay leaves the job running with its first URL processing, which the contract states.
- The "not implemented" functions at the end of `audioscribe_core_fake.py` (lines 122-161) only echo their arguments, and `audioscribe/cli.py` is command wiring without logic; neither is part of this model.
- `jobs.py` accepts any iterable and tests `str(u)` for blankness; the model takes a list of strings, for which the test and the stored value agree.
- `jobs.py` guards against a `None` standard output or error (`or ""`); with captured text output they are always strings, and the model takes strings.
- Concurrency: the module-level dictionaries are shared process-wide state without locking; the model is single-threaded.

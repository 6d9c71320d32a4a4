# Festerize run model

A Dafny model of the `festerize` command (`festerize.py`), the client that
uploads CSV batch files to the Fester IIIF manifest service and saves the CSV
the service sends back. The model covers the command's run control: the
check that some source path was given, the single availability probe of
`<server>/fester/status`, and the one in-order pass over the source paths, in
which each path is found missing, found not to be a CSV file, uploaded to
`<server>/collections` and then saved, saved with zero bytes, or refused by the
service. In strict mode the first of these errors ends the run with its own
exit code (the `FesterizeError` codes 1 to 6); otherwise the error is
reported and the pass goes on.

The network, the file system, the terminal and the log are seen only through
what they answer and what is done to them:

- the probe is a parameter: `Healthy`, or `Unavailable(reason)` carrying the
  text of the raised request error;
- each source path comes with a `PathObservation`: the path text, whether it
  exists, the file's bytes, and the status, body and parsed error page of the
  response its upload receives;
- a run yields a `RunTrace`: the outcome of each processed path, the ordered
  list of effects (lines echoed to standard output and standard error, lines
  logged at level ERROR, the probe GET, each upload POST with its URL, headers,
  file part and form fields, each result file written with its bytes, the
  success banner), and how the run ended (`Completed`, `Exited(code)`, or
  `Crashed` for an uncaught exception).

Modules:

- `Common` (common.dfy): `Option` and `byte`.
- `Text` (text.dfy): the decimal rendering of the HTTP status.
- `Paths` (paths.dfy): `pathlib`'s `name` and `suffix` on POSIX paths, the CSV
  test, and `os.path.join`.
- `Requests` (requests.dfy): the two endpoint URLs, the `User-Agent` header,
  the upload's form fields, the cause taken from an HTML error page, and the
  failure message.
- `Command` (command.dfy): the run as a specification function `Run`, whose
  pass `Pass` takes the per-path steps (outcome and effects) in order up to the
  first that ends the run; the method `ProcessPath`, the body of the loop over
  the paths, proved to compute one step; and the method `Festerize`, that loop
  with its returns at the exits, proved to compute `Run`. Where `festerize.py`
  calls `sys.exit` at the end of each failing branch, `Festerize` takes the
  exit right after `ProcessPath` returns the failing outcome; nothing happens
  in between, so the effects and the exit code are the same.
- `RunProperties` (properties.dfy): what a run guarantees, proved about `Run`.

Three behaviours of `festerize.py` that the model keeps as they are:

- No rule stops the pass because of what the service replies about the
  client: only the per-path errors below and a crash end it early.
- `festerize.py` opens (creating or truncating) and writes `<out>/<name>` on
  every 201 response, and reports a zero-byte write only afterwards, so the
  model's `Write` effect happens on every 201, whatever the body.
- When an error page has neither an error-message element nor a `<title>`,
  the fallback that builds the cause reads `.string` of the missing title and
  raises `AttributeError` out of the `except` block, so the run ends with an
  uncaught exception. The model records this as the outcome
  `UnreadableErrorPage` and the ending `Crashed` (exit status 1), in strict
  and non-strict mode alike.

## Model

| member | source | states |
|---|---|---|
| `Command.FesterizeError.Code` | festerize.py:125-134 | The exit codes are 1 to 6; 1 is exactly "no files specified" and 4 exactly "Fester unavailable". |
| `Command.Classify` | festerize.py:189-277 | A missing path is `Nonexistent` whatever its name (existence is tested first); an existing path is `NotCsv` exactly when its name fails the CSV test; a result is saved exactly for an existing CSV path answered with 201, with zero bytes exactly when the body is empty; a non-201 answer with a readable page fails with the response's status and the extracted cause. |
| `Command.Fault` | festerize.py:185-277 | Each per-path error has its own code: missing 2, not a CSV 3, non-201 response 5, zero-byte write 6; a saved result is no error. |
| `Command.ProcessPath` | festerize.py:186-277 | The processing of one path inside the loop (existence check, extension check, upload, write or failure report) yields exactly the outcome `Classify` gives and the effects `StepEffects` lists. |
| `Command.Festerize` | festerize.py:138-279 | The imperative run (empty-argument check, one probe, the loop over the paths with early exits in strict mode) produces exactly the trace `Run` specifies. |
| `RunProperties.FirstHalt` | festerize.py:185-277 | The position of the first path that ends the run: every earlier path lets the pass go on, and the path at it ends the run. |
| `RunProperties.ProcessPathsClosedForm` | festerize.py:185-277 | The pass processes the paths in the order given, each exactly once, up to and including the first that ends the run, and ends as that path dictates, or normally if none does. |
| `RunProperties.EmptySourceList` | festerize.py:138-140 | With no source path the run exits with code 1 and does nothing but print the error: no probe, upload or write. |
| `RunProperties.UnavailableService` | festerize.py:176-183 | When the probe fails the run exits with code 4 after the probe and the error report; no path is examined. |
| `RunProperties.NonStrictVisitsEveryPath` | festerize.py:185-277 | Without strict mode and without an unreadable error page, every path gets exactly one outcome, in order, and the run ends with status 0. |
| `RunProperties.UnreadablePageCrashes` | festerize.py:253-261 | An error page with neither an error-message element nor a title crashes the run at that path in either mode; no later path is processed. |
| `RunProperties.NonStrictExitStatus` | festerize.py:189-277 | Without strict mode the exit status is always 0, 1 or 4: never a per-path code 2, 3, 5 or 6. |
| `RunProperties.StrictHalts` | festerize.py:189-277 | In strict mode a path ends the run exactly when it does not end with a saved, non-empty result. |
| `RunProperties.StrictStopsAtFirstError` | festerize.py:189-277 | In strict mode, when the first failing path is at position k, the run processes paths 0..k only and exits with that path's own code (2, 3, 5 or 6). |
| `RunProperties.StrictAllSaved` | festerize.py:185-279 | In strict mode a run in which every path is saved processes all of them and exits with 0. |
| `RunProperties.StepRequestsAndWrites` | festerize.py:198-233 | Processing one path issues no probe, one POST exactly when the path exists and is a CSV file, and one write of the response body, verbatim, to `<out>/<name>` exactly when the response is 201. |
| `RunProperties.StepsRequestsAndWrites` | festerize.py:185-233 | Over a sequence of paths the POSTs and writes are, in order, exactly the reference lists `ExpectedUploads` and `ExpectedWrites`. |
| `RunProperties.RunRequestsAndWrites` | festerize.py:176-233 | A run probes the service once exactly when some path is given, and its POSTs and writes are exactly those of the processed paths; nothing is uploaded or written when no path is given or the probe fails. |
| `RunProperties.WrittenFileKeepsName` | festerize.py:232-233 | The result of an uploaded path is written to the output directory followed by the path's own file name, with one `/` between them exactly when the directory does not already end in one, so the written file has that name. |
| `RunProperties.FaultIsReported` | festerize.py:189-274 | Every per-path error (missing file, not a CSV, refused upload, zero-byte write) ends its path's effects with its message echoed to standard error and then logged; a path saved with data ends with the banner. |
| `RunProperties.FailureIsReported` | festerize.py:252-267 | A refused upload is echoed to standard error and logged as "Failed to upload <name>: <cause> (HTTP <status>)", from which the cause and the status read back. |
| `Requests.StatusUrl` | festerize.py:169 | The probe URL is the server text, unchanged (no slash normalisation), followed by `/fester/status`. |
| `Requests.CollectionsUrl` | festerize.py:170 | The upload URL is the server text, unchanged, followed by `/collections`. |
| `Requests.UserAgent` | festerize.py:173 | The `User-Agent` value is `Festerize/` followed by the client version. |
| `Requests.VersionField` | festerize.py:210 | The `iiif-version` value is `v2` or `v3`, `v2` exactly for version 2. |
| `Requests.PayloadFields` | festerize.py:210-214 | The form fields start with `iiif-version`; `iiif-host` follows exactly when a host is given (an empty host included), `metadata-update` = True comes last exactly when the flag is set; no key repeats. |
| `Requests.ErrorCause` | festerize.py:253-261 | The cause is the error-message element's text when there is one; only otherwise the title's string (or `None`) followed by ` - nginx`. |
| `Requests.FailureMessageParts` | festerize.py:263-265 | The failure message is the prefix and file name, the cause verbatim, then ` (HTTP `, three digits that read back as the status, and `)`. |
| `Text.Decimal` | festerize.py:263-265 | The status is printed as decimal digits without a leading zero. |
| `Text.DecimalRoundTrip` | festerize.py:263-265 | Reading the printed status back gives the status. |
| `Text.ThreeDigits` | festerize.py:263-265 | An HTTP status prints as exactly three digits. |
| `Paths.Name` | festerize.py:186-187 | The file name of a path is empty or a proper component: non-empty, not `.`, without `/`. |
| `Paths.NameIsLastComponent` | festerize.py:186-187 | The file name is the last of the path's components (the pieces between slashes other than empty ones and `.`), or empty when there is none. |
| `Paths.NameAfterSlash` | festerize.py:186-187 | A file name placed after a directory ending in `/` is the name of the resulting path. |
| `Paths.Suffix` | festerize.py:198 | The suffix is the name's final `.`-extension when the last dot is neither the first nor the last character of the name, and empty otherwise. |
| `Paths.IsCsvExactly` | festerize.py:198 | A name passes the CSV test exactly when it ends in `.csv`, case-sensitively, with something before it. |
| `Paths.IsCsvExamples` | festerize.py:198 | `a.csv` passes; `a.CSV`, `.csv`, `report.txt` and `a.csv.bak` do not. |
| `Paths.CsvNameIsComponent` | festerize.py:186-198 | The name of a path that passes the CSV test is a proper path component. |
| `Paths.JoinPath` | festerize.py:232 | Joining an absolute name gives the name; otherwise the directory, then one `/` exactly when the directory is non-empty and does not end in `/`, then the name. |
| `Paths.NameOfJoin` | festerize.py:232 | Joining the output directory with a file name yields a path with that same name. |

## Left out

- `ProcessPath`, `Classify`: the upload POST (festerize.py:215-217) is not guarded by any `try`, so a connection error or a timeout there ends the run with an uncaught exception (exit status 1, later paths unprocessed, in either mode); every observation carries a response, so this crash is not captured.
- The HTTP requests themselves (`requests.get`, `requests.post`, `raise_for_status`): only their results are modelled, as the probe parameter and the per-path status, body and parsed page.
- HTML parsing by BeautifulSoup: the page is given already parsed, as the error-message element's text (if any) and the `<title>` with its `.string`.
- The echo of the response's `Content-Length` header (festerize.py:224-229); a response without that header would raise `KeyError`, which the model does not capture.
- Command-line parsing, help and version text (festerize.py:17-67): the options arrive as a `Config`; the API version is the two-valued `ApiVersion`.
- The output directory creation and confirmation prompt (festerize.py:142-151).
- Logging setup, the timestamped log file name and the STARTING/DONE info lines (festerize.py:153-166, 279); only the ERROR lines are in the trace.
- The installed version lookup (festerize.py:136): the version text is `Config.clientVersion`.
- The random border character of the success banner (festerize.py:164, 243-251): the banner is the single effect `Celebrate`.
- File handles left open (festerize.py:205), and I/O exceptions raised by opening, reading or writing files (a path that exists but is a directory or unreadable, a failing write): the observation supplies the file's bytes, and a write stores the body or, when it is empty, zero bytes.
- `Classify`: the zero-byte test `num_bytes_written is 0` is modelled as an empty body, which is what CPython's small-integer identity makes it.

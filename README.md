# ct-gather-web-data, modelled in Dafny

The script `ct-gather-web-data` collects diagnostic data from a list of
machines through a set of gatherer plugins. It builds one JSON document from
the results, `{"machines": [...], "gatherer": {"timestamp": t}}`. It then
prints the document (debug mode) or writes it to `latest.json` and to a
timestamped archival file.

This project models the collection loop and the publish step as imperative
Dafny and proves what they compute:

- `external.dfy` (module `External`): the interfaces of the collaborators
  the script calls. A JSON value type. The plugin dispatcher as an oracle
  from `(plugin, system)` to `Gathered(value)` or `Raised`. One call of the
  logging sink as a value.
- `collection.dfy` (module `Collection`): the nested system × plugin loop
  of `main`. `CollectMachineData` keeps the source's local lists
  (`machine_data`, `failures`) as `seq` variables. It updates the newest
  record in place by sequence update. Loop invariants tie each step to a
  specification: `RecordAfter`, `Machines`, `Pairs` (the order of the calls)
  and `Failed` (the calls that raised). Lemmas state what records and the
  failure list mean.
- `publish.dfy` (module `Publish`): `dump_web_data`. A write loop over
  `[latest.json, <stamp>.json]` that stops at the first failing write. It is
  proved equal to the specification `Dump`, whose contract spells out each
  outcome.
- `gather_web_data.dfy` (module `GatherWebData`): `main` itself. It runs the
  loop, logs the summary line only when something failed, assembles the
  document and chooses between printing and publishing. It also holds the
  two-system example run (`alpha`, `beta`, with `net` failing for `beta`) as
  lemmas.

Modelling choices:

- `gather` is a deterministic oracle. A call's outcome depends only on
  `(plugin, system)`.
- The plugin list is one fixed sequence. It is read afresh for each system
  in the source, and is assumed stable within a run.
- Each call of the logging sink is recorded by its positional arguments
  and by its `level` keyword when one is given. The signature of
  `ct_logger.log` is not part of this model. So the summary call at line 45
  is kept as it is written: two positional arguments, the heading and the
  joined failures.
- The archival file name and the document's timestamp are opaque inputs.
  So is the outcome of each file write (`write(filename, data)`), and so is
  whether `os.makedirs` succeeded (`dirCreated`).
- The source announces `wrote <file>` on standard output *before* it tries
  each write. The model therefore lists the failing file among the
  announced files but not among the written ones.
- The source differs from a design in which the two snapshot writes are
  independent. A failing `latest.json` skips the archival file, because
  both writes sit in one `try` around the loop. The model follows the code.
- A failure of `os.makedirs` is outside the `try`. It propagates out of
  `dump_web_data` and out of `main`; the model reports it as `raised`.
- The handler's `filename` is always bound when the handler runs, because
  only the loop body can raise inside the `try`. The model logs the
  filename of the write that failed.

## Model

| member | source | states |
|---|---|---|
| `Collection.CollectMachineData` | samples/ct-gather-web-data.py:29-43 | The loop returns one record per system, in input order (`Machines`). It makes the calls in order `Pairs(systems, plugins)`. The failure list holds one `"plugin:system"` per failed call, in call order. The log holds one level-0 diagnostic per failed call. Invariants: records already finished stay unchanged, and only the newest record changes. |
| `Collection.NewRecord` | samples/ct-gather-web-data.py:34 | A system's record starts with exactly one key, `name`, holding the system's name. |
| `Collection.RecordKeys` | samples/ct-gather-web-data.py:34-43 | A record's keys are exactly `name` plus the plugins whose call succeeded for that system. A failed call adds no key. |
| `Collection.RecordValues` | samples/ct-gather-web-data.py:35-43 | Each key holds its plugin's gathered value. A key for which no call succeeded holds the system's name: a failed call leaves an earlier value in place. |
| `Collection.NameSurvives` | samples/ct-gather-web-data.py:34-37 | Every record has `name`. It equals the system unless a plugin called `name` succeeded for that system. |
| `Collection.PairsLength` | samples/ct-gather-web-data.py:33-37 | The loop makes exactly `|systems| * |plugins|` gather calls. A failure never stops the iteration. |
| `Collection.PairsAt` | samples/ct-gather-web-data.py:33-37 | Call number `i * |plugins| + j` is plugin `j` for system `i`. |
| `Collection.PairsIndex` | samples/ct-gather-web-data.py:33-37 | Every (system, plugin) position is attempted once, system by system and then plugin by plugin. |
| `Collection.PairsMembers` | samples/ct-gather-web-data.py:33-35 | A call is made exactly when its system is in `systems` and its plugin is in `plugins`. |
| `Collection.FailedMembers` | samples/ct-gather-web-data.py:38-43 | A call is recorded as failed exactly when it was made and it raised. |
| `Collection.FailedCount` | samples/ct-gather-web-data.py:38-43 | The failure list is as long as the number of positions in the call trace whose call raised. |
| `Collection.ExtendTrace` | samples/ct-gather-web-data.py:36-43 | One more call extends the failure list and the log by exactly one entry when the call raises, and leaves them unchanged otherwise. |
| `Collection.MissingKeyIffFailed` | samples/ct-gather-web-data.py:35-43 | For a plugin other than `name`, a system's record lacks the plugin's key exactly when that call is among the failed calls. That holds exactly when the call raised and its `"plugin:system"` is in the failure list. |
| `GatherWebData.Document` | samples/ct-gather-web-data.py:48-53 | The document has exactly two top-level keys, `machines` and `gatherer`. `machines` is the array of the records in order. `gatherer` holds only `timestamp`. |
| `GatherWebData.RunGather` | samples/ct-gather-web-data.py:28-58 | `main` makes the calls in loop order and records their failures. The log holds the per-call diagnostics, then the summary (joined with `", "`) only when a call failed, then the publisher's log. In debug mode the document is printed and nothing is published. Otherwise the document goes to the publisher. |
| `GatherWebData.DocumentMachines` | samples/ct-gather-web-data.py:33-49 | The document's `machines` array has one object per input system, in order. Each object has a `name` naming its system unless a plugin called `name` succeeded. |
| `GatherWebData.AlphaBetaRecords` | samples/ct-gather-web-data.py:33-37 | Systems `alpha` and `beta`, plugins `disk` and `net`, with `net` failing for `beta`. `alpha`'s record has `name`, `disk` and `net`. `beta`'s record has only `name` and `disk`. |
| `GatherWebData.AlphaBetaFailures` | samples/ct-gather-web-data.py:38-43 | In the same run, the failure list is exactly `["net:beta"]`. |
| `Publish.FirstFailure` | samples/ct-gather-web-data.py:65-70 | The loop stops at the first target whose write fails. Every target before it was written. |
| `Publish.Dump` | samples/ct-gather-web-data.py:61-75 | If `os.makedirs` fails, the exception escapes and nothing is written. Otherwise `latest.json` is tried first. If it fails, the archival file is skipped and `latest.json` is the file logged. If only the archival write fails, `latest.json` stays written and the archival name is logged. If both succeed, nothing is logged. No write exception escapes. |
| `Publish.DumpWebData` | samples/ct-gather-web-data.py:61-75 | The write loop announces each file before writing it, stops at the first failure and logs that file's name. Its outcome equals `Dump`. |

## Left out

- Argument parsing, the default inventory `/usr/etc/machines.json` and the
  verbosity switch (`get_flags`, `get_systems`, lines 78-101) are command-line
  and file I/O. The model takes the parsed systems list and debug flag as a
  `Flags` value.
- The run lock `ct_lock.Lock` (line 108) is cross-process mutual exclusion.
  Its implementation is not part of this model.
- Clock readings and timestamp formatting (lines 51, 64) read the wall clock
  and use floating point. The timestamp and the archival stamp are opaque
  inputs.
- JSON serialisation (`json.dump`, `json.dumps` with sorted keys and
  indentation) and the actual file writes (lines 55, 68-69) are library I/O.
  Each write is an abstract success or failure, and the printed document is
  the `Json` value itself. A write that fails part way may leave a partial
  file; the model does not capture that.
- The internals of `ct_gatherer.gather`, `ct_gatherer.get_plugins` and
  `ct_logger` are not part of this model. `gather` is a deterministic
  oracle, so the model cannot show a plugin answering differently for the
  same (plugin, system) pair within one run. Repeated names in `systems` or
  `plugins` are allowed and handled by the model.
- The `wrote <file>` lines on standard output are modelled only as the list
  of announced file names.

# cityscope-jupyterhub-base, modelled in Dafny

This project models the logic at the core of the CityScope JupyterHub
deployment and proves properties of it. The core has six parts:

- **Local data-API spawner** (`LocalSpawner`, `Escalation`, `HostOs`). It runs
  one loopback process per user. Its state handle saves, restores and clears
  the pid and token. `poll` judges liveness from the Popen handle or from a
  signal-0 probe. The spawner keeps a polling timer and a list of death
  callbacks. `stop` escalates through SIGINT, SIGTERM and SIGKILL, each signal
  followed by a bounded `wait_for_death`.
  - The operating system is the class `HostOs.Host`. It records every exec,
    wait, kill and sleep, and answers each through an oracle function of the
    calls made so far.
  - The spawner keeps a ghost trace of what its polls saw, which signals it
    sent and each sleep. `Escalation.Escalates` is the grammar of the traces
    a stop can leave.
- **Container spawner's `start`** (`ContainerSpawner`). It reuses the user's
  container or creates it. Creation merges the keyword arguments and host
  config by successive dictionary updates, then creates one `convoy` volume
  per bind, then the container. In both cases it starts the container and
  records its address. The Docker daemon is the class `Docker`: a map from
  container name to id, plus the list of requests it was sent.
- **Upload form handler** (`Uploader`, `UploadNames`). `stringFormat`
  sanitises file names. `save_file`, `check_file_size`, `validate_file`,
  `remove_file`, `set_messages_classes` and `post` run over the handler's
  message lists and flags. File writes, sizes, reads, removals and the CSV
  sniffer's verdict are inputs.
- **Loopback API guard** (`AccessGuard`). This is `admin_or_self` and the
  status each wrapped HTTP method sets.
- **Browser REST client's option merging** (`Jhapi`). `update` merges one
  JavaScript object into another in place. `ajax_defaults` builds a fresh
  settings object. Every endpoint forces its own verb, `dataType` and `data`
  over the caller's options.
- **Browser-side upload check** (`DataUpload`). This is the submit handler
  of the upload form: which error items it shows and whether it blocks the
  submission.

Behaviour kept as the code writes it:

- Local `start` does not check for a process that is already running.
- `stop` clears neither the pid nor the token, and does not stop polling,
  when the process survives all three signals. It only logs "never died".
- `get_args` appends to the configured `args` list itself, so every call
  makes the list longer.
- The character class of `stringFormat`'s regular expression contains
  `+-.`. That is the range from `+` to `.`, so `,` and `-` survive along
  with letters, digits, `_`, `+` and `.`. The comment beside it claims only
  alphanumerics and underscores.
- `save_file` reports a non-CSV extension but still writes the file, and
  does not mark it for deletion.
- `validate_file` raises when `open` itself failed: it then closes a file
  that was never bound. `remove_file` raises on its failure path: its message
  formats a name that is undefined there. Both are the `Uploader.Crash`
  results.
- The browser limits an upload to 50000000 bytes; the server limits it to
  50 MiB (52428800 bytes).
- `shutdown_hub` forces only the verb and keeps the caller's `dataType`.
  `edit_user` uses PATCH.

## Model

| member | source | states |
|---|---|---|
| Escalation.Bounds | jupyterhub/data_api_spawner.py:294-302 | one wait bound per signal of the ladder: INTERRUPT_TIMEOUT, TERM_TIMEOUT and KILL_TIMEOUT, with the first dropped when `now` |
| Escalation.EscalationSignalsArePrefix | jupyterhub/data_api_spawner.py:406-433 | every stop trace sends a prefix of its ladder, in order |
| Escalation.EscalationNeverDied | jupyterhub/data_api_spawner.py:427-438 | a stop trace whose last poll sees the process alive has sent the whole ladder |
| Escalation.EscalationSignalAfterAlivePoll | jupyterhub/data_api_spawner.py:410-432 | every signal of a stop trace comes right after a poll that reported the process running |
| Escalation.EscalationNoSignalAfterDeath | jupyterhub/data_api_spawner.py:410-433 | once any poll of a stop trace reports an exit status, no signal follows |
| Escalation.WaitDeathIsLast | jupyterhub/data_api_spawner.py:242-247 | in a wait trace, a poll reporting an exit status is the last step |
| Escalation.WaitPollCount | jupyterhub/data_api_spawner.py:242-247 | a wait trace with bound `n` holds at most `n` polls, and every poll that saw the process running is followed by a sleep |
| Escalation.WaitSendsNothing | jupyterhub/data_api_spawner.py:239-247 | a wait sends no signal |
| Escalation.StagesSignals | jupyterhub/data_api_spawner.py:410-433 | the completed stages of a stop have sent exactly the first signals of the ladder, one per stage |
| Escalation.StagesEscalation | jupyterhub/data_api_spawner.py:410-438 | completed stages followed by a final poll form a stop trace of the ladder |
| LocalSpawner.RunningWereStarted | jupyterhub/data_api_spawner.py:192-218 | every running timer was started by an event of the timer log |
| LocalSpawner.RunningAfter | jupyterhub/data_api_spawner.py:192-218 | starting a timer adds it to the running set; stopping one removes it |
| LocalSpawner.StateOf | jupyterhub/data_api_spawner.py:123-136 | the saved state has the key 'pid' exactly when the pid is non-zero, holds that pid, and holds nothing else |
| LocalSpawner.StateRoundTrip | jupyterhub/data_api_spawner.py:310-321 | loading a saved state into a fresh spawner restores its pid |
| LocalSpawner.SignalLog | jupyterhub/data_api_spawner.py:414-431 | one debug line per sent signal, in order, naming the signal and the pid |
| LocalSpawner.SignalLogAppend | jupyterhub/data_api_spawner.py:414-431 | the debug lines of two runs of signals are the lines of each run, concatenated |
| LocalSpawner.OutcomeBeforeSignal | jupyterhub/data_api_spawner.py:406-433 | a stop that an OS error ends before the next signal has sent exactly the completed stages' signals, and keeps pid and token unless the process is gone |
| LocalSpawner.OutcomeAfterSignal | jupyterhub/data_api_spawner.py:406-433 | a stop that an OS error ends after a signal has sent the ladder up to that signal |
| LocalSpawner.OutcomeAtPoll | jupyterhub/data_api_spawner.py:406-438 | a stop that ends with a poll is a full stop trace; if that poll sees the process alive, the whole ladder was sent and "never died" is logged |
| LocalSpawner.EnvDefault | jupyterhub/data_api_spawner.py:77-83 | the environment holds exactly the whitelisted variables the hub has set, with the hub's values, plus JPY_API_TOKEN |
| LocalSpawner.UserEnv | jupyterhub/data_api_spawner.py:328-338 | fails exactly for a user unknown to the password database; otherwise adds USER, and HOME and SHELL when non-empty, keeping every other variable |
| LocalSpawner.SpawnEnvironment | jupyterhub/data_api_spawner.py:77-83 | the spawned process gets the API token and its user name, and otherwise only whitelisted variables of the hub (with the hub's values), HOME and SHELL |
| LocalSpawner.Spawner.constructor | jupyterhub/data_api_spawner.py:103-121 | a new spawner has no process, no timer and no callbacks, and takes its pid from the user's saved state |
| LocalSpawner.Spawner.LoadState | jupyterhub/data_api_spawner.py:310-314 | the pid comes from the state when it has one, and is otherwise unchanged |
| LocalSpawner.Spawner.GetState | jupyterhub/data_api_spawner.py:316-321 | the saved state is StateOf(pid): empty from the base spawner, plus the pid when there is one |
| LocalSpawner.Spawner.ClearState | jupyterhub/data_api_spawner.py:323-326 | the token becomes empty and the pid 0; nothing else changes |
| LocalSpawner.Spawner.GetArgs | jupyterhub/data_api_spawner.py:155-162 | the configured `args` list itself grows by the base-URL argument (and `--debug`), and is returned |
| LocalSpawner.Spawner.GetEnv | jupyterhub/data_api_spawner.py:340-344 | `env` is computed once, as the whitelisted variables of the hub plus the token; the result is `env` with USER, HOME and SHELL added as UserEnv adds them, and fails exactly for an unknown user |
| LocalSpawner.Spawner.Start | jupyterhub/data_api_spawner.py:346-363 | an unknown user fails before anything is run; otherwise the args grow, the command is logged and executed once in `env` plus the user's variables, and on success the new process's pid is recorded; the token is unchanged; no reuse check |
| LocalSpawner.Spawner.Launch | jupyterhub/data_api_spawner.py:352-363 | argv is cmd + get_args(), logged and executed once; the pid comes from the new process |
| LocalSpawner.Spawner.Signal | jupyterhub/data_api_spawner.py:393-403 | true when the signal is delivered, false exactly on ESRCH, any other OS error raised |
| LocalSpawner.Spawner.Poll | jupyterhub/data_api_spawner.py:365-391 | with a handle, the handle's poll result (one waitpid while it has not yet seen an exit, none after); without one, 0 for pid 0 or a probe answered by ESRCH, None when the signal-0 probe is delivered, any other errno raised; every exit status clears pid and token; a dead process stays dead |
| LocalSpawner.Spawner.WaitForDeath | jupyterhub/data_api_spawner.py:238-247 | at most `int(timeout / 0.1)` polls, each alive poll followed by a sleep, stopping at the first exit status; no signal is sent |
| LocalSpawner.Spawner.StopStage | jupyterhub/data_api_spawner.py:410-433 | one stage of `stop`: a poll, and only if it reports running, a logged signal and a bounded wait |
| LocalSpawner.Spawner.Escalate | jupyterhub/data_api_spawner.py:406-433 | the stages run in ladder order, SIGINT skipped when `now`, each with its own timeout |
| LocalSpawner.Spawner.Stop | jupyterhub/data_api_spawner.py:405-438 | the trace of `stop` satisfies StopOutcome: signals a prefix of the ladder, each after an alive poll and followed by its wait; none after a death; a survivor keeps pid and token and gets "never died"; the poller and callbacks are untouched |
| LocalSpawner.Spawner.AddPollCallback | jupyterhub/data_api_spawner.py:182-190 | the callback is appended, with its extra arguments bound when there are any |
| LocalSpawner.Spawner.StopPolling | jupyterhub/data_api_spawner.py:192-196 | afterwards no timer runs and the handle is None; with no timer nothing changes, so a second call does nothing |
| LocalSpawner.Spawner.StartPolling | jupyterhub/data_api_spawner.py:198-218 | a non-positive interval starts nothing; otherwise any old timer is stopped first and exactly one new timer runs, every `1000 * poll_interval` ms |
| LocalSpawner.Spawner.PollAndNotify | jupyterhub/data_api_spawner.py:220-234 | polls once, with Poll's outcome, exit status and host calls; callbacks are scheduled exactly when the process is gone: then polling stops and every callback is scheduled once, in registration order; while it runs nothing else changes |
| ContainerSpawner.ImageOf | jupyterhub/cityscope_spawner.py:19-20 | the image argument when it is non-empty, otherwise the configured image |
| ContainerSpawner.CreateKwargsPrecedence | jupyterhub/cityscope_spawner.py:15-30 | create arguments: per-call extras override global extras, which override the base image, environment, volumes and name |
| ContainerSpawner.HostConfigPrecedence | jupyterhub/cityscope_spawner.py:33-41 | the host config has binds and links; port bindings exactly when the internal IP is not used or an extra supplies them; per-call extras override global ones |
| ContainerSpawner.WithHostConfigKeeps | jupyterhub/cityscope_spawner.py:48-49 | the formatted host config is merged into any host config already in the create arguments, its keys win, and the other create arguments are kept |
| ContainerSpawner.VolumeCalls | jupyterhub/cityscope_spawner.py:45-46 | one `convoy` volume creation per bind, in order |
| ContainerSpawner.VolumeCallsCreateEachBind | jupyterhub/cityscope_spawner.py:45-46 | each bind's volume is created exactly once, and no other volume is created |
| ContainerSpawner.VolumesBeforeContainer | jupyterhub/cityscope_spawner.py:45-52 | in a start that creates, every volume creation comes before the one container creation |
| ContainerSpawner.Docker.GetContainer | jupyterhub/cityscope_spawner.py:18 | finds the container of that name, if the daemon has one |
| ContainerSpawner.Docker.CreateContainerCall | jupyterhub/cityscope_spawner.py:52-53 | the new id is the response's, registered under the container's name |
| ContainerSpawner.Spawner.CreateVolumes | jupyterhub/cityscope_spawner.py:45-46 | the requests grow by exactly VolumeCalls of the binds |
| ContainerSpawner.Spawner.BuildCreateKwargs | jupyterhub/cityscope_spawner.py:20-30 | the successive updates build CreateKwargs |
| ContainerSpawner.Spawner.BuildHostConfig | jupyterhub/cityscope_spawner.py:33-41 | the successive updates build HostConfig |
| ContainerSpawner.Spawner.CreateNew | jupyterhub/cityscope_spawner.py:19-56 | volumes, then one container created from the merged arguments; its id is recorded |
| ContainerSpawner.Spawner.Start | jupyterhub/cityscope_spawner.py:7-82 | an existing container is started with no volume or container created; otherwise creation comes first; the start arguments are global extras overridden by per-call ones; the returned address is the one stored on the server |
| UploadNames.LowerChar | jupyterhub/handlers/uploader.py:241 | lower-casing leaves no upper-case letter and changes nothing else |
| UploadNames.DropCombining | jupyterhub/handlers/uploader.py:241 | the result holds no combining character and only characters of the input |
| UploadNames.DropCombiningKeeps | jupyterhub/handlers/uploader.py:241 | every non-combining character of the input is in the result |
| UploadNames.DropCombiningAppend | jupyterhub/handlers/uploader.py:241 | marks are dropped character by character: the result for a concatenation is the concatenation of the results |
| UploadNames.DropCombiningChar | jupyterhub/handlers/uploader.py:241 | one character is dropped exactly when it is combining |
| UploadNames.Lower | jupyterhub/handlers/uploader.py:242 | same length, each character lower-cased |
| UploadNames.KeepAllowed | jupyterhub/handlers/uploader.py:242 | the result holds only characters of the input that are in the regular expression's class |
| UploadNames.KeepAllowedKeeps | jupyterhub/handlers/uploader.py:242 | every character of the input in the class is in the result |
| UploadNames.KeepAllowedAppend | jupyterhub/handlers/uploader.py:242 | characters are removed one by one in order: the result for a concatenation is the concatenation of the results |
| UploadNames.KeepAllowedChar | jupyterhub/handlers/uploader.py:242 | one character is kept exactly when it is in the class |
| UploadNames.LeadingEdges | jupyterhub/handlers/uploader.py:243 | the length of the run of '-' and '_' that starts the string |
| UploadNames.TrailingEdges | jupyterhub/handlers/uploader.py:243 | the length of the run of '-' and '_' that ends the string |
| UploadNames.StringFormatSafe | jupyterhub/handlers/uploader.py:239-243 | the output holds only lower-case letters, digits and `_ + , - .` |
| UploadNames.StringFormatEdges | jupyterhub/handlers/uploader.py:243 | the output neither starts nor ends with '-' or '_' |
| UploadNames.StringFormatIdempotent | jupyterhub/handlers/uploader.py:239-243 | formatting the output again changes nothing |
| UploadNames.StringFormatKeepsCleanNames | jupyterhub/handlers/uploader.py:239-243 | a name of lower-case letters, digits and `_ + , - .` with no '-' or '_' at either end comes out unchanged |
| UploadNames.RFind | jupyterhub/handlers/uploader.py:131 | the index of the last occurrence, or -1 |
| UploadNames.SplitExt | jupyterhub/handlers/uploader.py:131 | root + extension is the path; the extension is empty or one dot with no dot or '/' after it |
| UploadNames.SplitExtMeaning | jupyterhub/handlers/uploader.py:131 | there is an extension exactly when the last path component has a dot after a non-dot character, and it then runs from the last dot to the end |
| UploadNames.SplitExtExamples | jupyterhub/handlers/uploader.py:131 | `data.csv` and `a.b.CSV` split at their last dot; `.csv` and `dir.d/notes` have no extension |
| UploadNames.SplitExtNoDot | jupyterhub/handlers/uploader.py:131 | a name without a dot has an empty extension |
| Uploader.CsvAnyCase | jupyterhub/handlers/uploader.py:132 | the extension test accepts `.csv` in any mix of cases, and nothing else |
| Uploader.NewName | jupyterhub/handlers/uploader.py:136-140 | the sanitised root, or the user's name when nothing is left of it |
| Uploader.RenameMessages | jupyterhub/handlers/uploader.py:141-145 | a rename notice exactly when the new name differs from the original root |
| Uploader.SavedNameShape | jupyterhub/handlers/uploader.py:136-140 | the saved base name is the user's name, or a non-empty name of safe characters with no '-' or '_' at either end |
| Uploader.DataImportHandler.constructor | jupyterhub/handlers/uploader.py:22-28 | empty message lists and cleared flags |
| Uploader.DataImportHandler.Initialize | jupyterhub/handlers/uploader.py:22-28 | empty message lists and cleared flags |
| Uploader.DataImportHandler.SaveFile | jupyterhub/handlers/uploader.py:129-157 | a wrong extension is reported but the file is still written, at uploads dir + new name + extension; a failed write is reported and clears the messages |
| Uploader.DataImportHandler.NameUpload | jupyterhub/handlers/uploader.py:131-145 | the case-insensitive extension check, the new name, and the rename notice |
| Uploader.DataImportHandler.CheckFileSize | jupyterhub/handlers/uploader.py:88-94 | only for an uploaded file above 50 MiB: an error, marked for deletion, messages emptied; exactly 50 MiB passes |
| Uploader.DataImportHandler.ValidateFile | jupyterhub/handlers/uploader.py:61-85 | an empty, unreadable or headerless uploaded file is reported and marked for deletion; a failed open raises |
| Uploader.DataImportHandler.RemoveFile | jupyterhub/handlers/uploader.py:97-101 | the removal is recorded; a failed removal raises |
| Uploader.DataImportHandler.SetMessagesClasses | jupyterhub/handlers/uploader.py:104-113 | any error gives failure, danger and error classes; otherwise success with the form class unchanged |
| Uploader.DataImportHandler.Handle | jupyterhub/handlers/uploader.py:44-52 | save, check, validate; the file is removed exactly when a check marked it, and only after an error |
| Uploader.DataImportHandler.Post | jupyterhub/handlers/uploader.py:39-55 | no files always ends in failure with "forgot to select"; the page succeeds exactly when there is no error; the file is removed exactly when marked |
| AccessGuard.Handle | jupyterhub/apihandlers/cityscope.py:26-45 | each of post, delete, put and get sets 201 |
| AccessGuard.Respond | jupyterhub/apihandlers/cityscope.py:11-24 | 403 exactly without a user or for a user who is neither the target nor an admin; 404 exactly for an authorised request naming an unknown user; 201 otherwise |
| AccessGuard.AnonymousForbidden | jupyterhub/apihandlers/cityscope.py:14-16 | no signed-in user gives 403 |
| AccessGuard.AuthorisationBeforeExistence | jupyterhub/apihandlers/cityscope.py:14-22 | a non-admin naming another user gets 403 whether or not that user exists |
| AccessGuard.SameForEveryVerb | jupyterhub/apihandlers/cityscope.py:11-45 | the status does not depend on the HTTP method |
| AccessGuard.AdminOnlyNotFound | jupyterhub/apihandlers/cityscope.py:17-23 | an administrator gets 404 for an unknown name and 201 otherwise |
| Jhapi.Restrict | share/jupyter/hub/static/js/jhapi.js:21-26 | not an operation of the source: it names the entries copied so far, which Update's loop invariant is stated with; its contract says the restriction holds exactly the given keys that the object has, with their values |
| Jhapi.Update | share/jupyter/hub/static/js/jhapi.js:21-26 | every key of d2 is written into d1 in place, overwriting; d1 itself is returned |
| Jhapi.UpdateMeaning | share/jupyter/hub/static/js/jhapi.js:21-26 | after a merge the second object's keys win and the first object's other keys are unchanged |
| Jhapi.AjaxDefaults | share/jupyter/hub/static/js/jhapi.js:11-33 | a fresh object: the defaults overridden by the options |
| Jhapi.OrEmpty | share/jupyter/hub/static/js/jhapi.js:36-37 | a missing options argument is a fresh `{}` |
| Jhapi.Path | share/jupyter/hub/static/js/jhapi.js:46-258 | the path starts with `users/<user>` and ends with the endpoint's service |
| Jhapi.ForcedVerb | share/jupyter/hub/static/js/jhapi.js:46-258 | every endpoint's own verb wins over the caller's `type`, and `dataType` is null |
| Jhapi.ForcedData | share/jupyter/hub/static/js/jhapi.js:150-203 | setup_loopback sends its apiInfo and the credential getters send `credential=get`, whatever the caller's data; the rest send the caller's data |
| Jhapi.CallerOptionsKept | share/jupyter/hub/static/js/jhapi.js:28-51 | the caller's other options are sent as given, the defaults fill the rest |
| Jhapi.Api.ApiRequest | share/jupyter/hub/static/js/jhapi.js:35-44 | one request, with the defaults overridden by the options; the caller's object is unchanged |
| Jhapi.Api.Call | share/jupyter/hub/static/js/jhapi.js:46-258 | the caller's options object is overwritten in place with the endpoint's overrides, and sent to the endpoint's path |
| Jhapi.Api.ListUsers | share/jupyter/hub/static/js/jhapi.js:64-66 | the options pass through to `users` unchanged |
| Jhapi.Api.GetUser | share/jupyter/hub/static/js/jhapi.js:68-73 | the options pass through to `users/<user>` unchanged |
| Jhapi.Api.AddUsers | share/jupyter/hub/static/js/jhapi.js:75-85 | the user names are written into `userinfo` in place, and its JSON is POSTed as `data` |
| Jhapi.Api.EditUser | share/jupyter/hub/static/js/jhapi.js:87-99 | PATCH with the JSON of `userinfo` as `data` |
| Jhapi.Api.ShutdownHub | share/jupyter/hub/static/js/jhapi.js:123-130 | POST, keeping the caller's `dataType`; the JSON of `data` is sent when given |
| DataUpload.FileTypeShape | share/jupyter/hub/static/js/dataupload.js:10 | the file type has no dot, and a name without a dot is its own file type, lower-cased |
| DataUpload.UpperCaseExtension | share/jupyter/hub/static/js/dataupload.js:10-11 | a name ending in `.CSV` has the file type `csv` |
| DataUpload.RenderLength | share/jupyter/hub/static/js/dataupload.js:21 | the error string is empty without errors and longer than one character with any |
| DataUpload.ValidateUpload | share/jupyter/hub/static/js/dataupload.js:3-27 | the error items shown are the rendering of Errors, and the submission is blocked exactly when there is one |
| DataUpload.CheckSelected | share/jupyter/hub/static/js/dataupload.js:8-17 | a selected file gets the csv error, then the size error |
| DataUpload.NoReaderNoErrors | share/jupyter/hub/static/js/dataupload.js:7-26 | without FileReader nothing is checked and nothing blocked |
| DataUpload.ErrorsOrdered | share/jupyter/hub/static/js/dataupload.js:11-20 | the errors come in the order csv, size, selection, each at most once |
| DataUpload.NotCsvExactly | share/jupyter/hub/static/js/dataupload.js:10-13 | the csv error exactly for a selected file whose type is not `csv` |
| DataUpload.TooLargeExactly | share/jupyter/hub/static/js/dataupload.js:14-16 | the size error exactly above 50000000 bytes |
| DataUpload.NoFileExactly | share/jupyter/hub/static/js/dataupload.js:18-20 | the selection error exactly for no file, a zero size or an empty type |
| DataUpload.MissingFileOnlySelection | share/jupyter/hub/static/js/dataupload.js:8-20 | with no file the selection error is the only one |
| DataUpload.AcceptedUpload | share/jupyter/hub/static/js/dataupload.js:11-25 | a non-empty csv file within the limit passes |

## Left out

- Process I/O: `Popen`, `os.kill` and `waitpid` are oracles of `HostOs.Host`. The hub's `os.environ` and the password database that `pwd.getpwnam` reads are inputs: the constant maps `environ` and `passwd` of `LocalSpawner.Spawner`. `_try_setcwd` and the commented-out setuid code are not modelled.
- Concurrency: tornado coroutines, `IOLoop.add_callback`, `PeriodicCallback` and `gen.sleep` are not modelled. The timer is a handle plus a log of start and stop events, scheduled callbacks are a queue, and a sleep is one step of the trace.
- Escalation.DeathPolls: `death_interval` is the float 0.1, and the bound is taken as `10 * timeout` for the whole-second timeouts the spawner uses. Float rounding is not modelled.
- Log messages: their texts and levels are not modelled; each log line is a datatype constructor carrying the pid or argv it reports.
- The base spawner's `start`, `stop` and `poll` only raise NotImplementedError; they are subsumed by the local spawner's.
- Docker: `get_container`, `docker(...)`, `client.create_host_config` and `get_ip_and_port` belong to the DockerSpawner base class. They are the `ContainerSpawner.Docker` class, with the new container id, the address and the host-config formatting as oracle functions. Log lines and the unused unpause are not modelled.
- ContainerSpawner.Spawner.CreateNew: no Docker request fails in the model. In the source an exception from `create_volume`, `create_container`, `start` or `get_ip_and_port` propagates out of `start`, so a failed volume creation ends it before the container is created; the model's `Start` always issues every request.
- ContainerSpawner.Spawner.CreateNew: the configuration is immutable in the model. In the source `create_kwargs` is a shallow copy, so when the configured or per-call `extra_create_kwargs` holds a `host_config` dictionary, the `setdefault(...).update(...)` merges the built host config into that shared dictionary, and later starts send those keys again. The model starts each time from the configured value.
- ContainerSpawner.WellFormed: a dictionary's keys are given as a duplicate-free list in iteration order.
- Unicode: NFKD normalisation and the `combining` property are inputs of `stringFormat`. `str.lower` and `toLowerCase` are modelled on ASCII letters only.
- Uploader: the CSV sniffer, the file write, `os.path.getsize`, reading the first two lines and `os.remove` are inputs. `render_page`, `get`, `list_datasets` and `HelloHandler` (HTML and directory listing) are not modelled. Message texts are datatype constructors.
- Jhapi: `utils.url_path_join`, `encode_uri_components` and `$.ajax` are not modelled; a request records its path segments and settings. `JSON.stringify` is a function argument.
- Jhapi.Update: the order in which `$.map` visits the keys is left unspecified; only the resulting object is stated.
- Jhapi.Api.Call: `default_options` is shared and never written by the client, so each request uses a fresh copy of its value.
- DataUpload: writing the error list into the page and adding the error class are not modelled. The `.modalPopUp` click handler (share/jupyter/hub/static/js/dataupload.js:29-32), which loads the link's target into a modal panel and cancels the navigation, is not modelled: it is page presentation with no state the upload check reads. The browser's file object and the file input's text are inputs.
- The UI scripts `cityscope.js` and `cityscope-importer.js` are not part of this model. Neither are the handler registration lists of `apihandlers/__init__.py` and `handlers/__init__.py`, which only concatenate routes.

# thanos-rule-syncer, modelled in Dafny

thanos-rule-syncer is a sidecar for Thanos Ruler. It periodically fetches the
rules of a tenant, either from a rules storage backend or through the
Observatorium API. It writes them to a file that Thanos Ruler reads and then
asks Thanos Ruler to reload. On the API side, the Observatorium rules facade
serves those rules per tenant. It stamps every rule it reads or writes with
an ownership label whose value is the tenant's ID.

The project has four modules:

- `Wrappers` (`wrappers.dfy`): the `Option` type.
- `Http` (`http.dfy`): the request methods and response statuses both sides use.
- `RulesApi` (`rules_api.dfy`) models the facade's three handlers: list, get, and write (POST/PUT).
  - The label-stamping loops of the get and write handlers run in place over a rule array, and the list handler's outer loop rewrites a group array in place, as Go rewrites its slices in place. The list handler's inner loop builds each group's stamped rule sequence and stores it back into the group array.
  - The loops are proved against the functions `StampRules` and `StampGroups`.
  - The repository is given as function-valued parameters. Each handler returns the HTTP response it writes and the trace of repository calls it made.
  - The authenticated tenant name and ID are inputs, as is the URL's `name`.
  - A YAML encoding failure is a boolean input.
  - The request body arrives as read-failed, malformed, or a parsed group.
- `Syncer` (`syncer.dfy`) models the sidecar's `main.go`:
  - the flag defaults and the choice of fetcher;
  - the reload request, with Go's truncating `status/100 == 2` test;
  - the ticker period, with the int64 wrap-around of `time.Duration(interval) * time.Second`;
  - the sync cycle and the loop around it, as methods of a `Sidecar` class. Its fields are the rules file on disk, open file handles, open fetched streams, reload requests sent, the error log and the number of cycles.
  - The loop's methods are specified by `StepAll`, which applies one cycle after another to those fields. The folds `DiskAfterAll`, `LeakedOf`, `ReloadsOf` and `Failures` state each field's value separately.

  Each I/O step of a cycle is an input: fetch, create, copy, close, and the reload's transport or status. The loop consumes a sequence of events, each either a tick carrying the next cycle's outcomes or the context's cancellation.

## Model

| member | source | states |
|---|---|---|
| RulesApi.StampRuleEffect | vendor/github.com/observatorium/api/api/metrics/v1/rules.go:126-131 | A stamped rule carries `labelKey = id`. Its label keys are the old ones plus `labelKey`, and every other label keeps its value. A nil label map becomes exactly `{labelKey: id}`. Nothing but the labels changes. |
| RulesApi.StampRules | vendor/github.com/observatorium/api/api/metrics/v1/rules.go:126-131 | Stamping a rule slice keeps its length and stamps each rule at its own position. |
| RulesApi.StampGroups | vendor/github.com/observatorium/api/api/metrics/v1/rules.go:69-76 | Stamping the groups keeps their number and order, and stamps each group's rules. |
| RulesApi.StampRulesOwned | vendor/github.com/observatorium/api/api/metrics/v1/rules.go:252-257 | After stamping, every rule is owned by the tenant's ID. |
| RulesApi.StampedGroupsKeepShape | vendor/github.com/observatorium/api/api/metrics/v1/rules.go:69-76 | After the list stamping, every rule of every group is owned by `id`. Group count, names, intervals and rule counts are unchanged. Every other label and every other rule field is unchanged. |
| RulesApi.RestampOverwrites | vendor/github.com/observatorium/api/api/metrics/v1/rules.go:252-257 | A caller cannot forge ownership. Whatever value a written rule carries under the label, stamping replaces it with the tenant's ID. |
| RulesApi.StampRulesIdempotent | vendor/github.com/observatorium/api/api/metrics/v1/rules.go:126-131 | Stamping twice with the same ID equals stamping once. |
| RulesApi.StampGroupsIdempotent | vendor/github.com/observatorium/api/api/metrics/v1/rules.go:69-76 | Stamping all groups twice equals stamping them once. |
| RulesApi.WriteThenRead | vendor/github.com/observatorium/api/api/metrics/v1/rules.go:252-257 | A group forwarded by the write handler and later read back by the same tenant is left unchanged by the get handler's stamping. |
| RulesApi.ReadsNeverShowOtherTenant | vendor/github.com/observatorium/api/api/metrics/v1/rules.go:126-131 | No rule a tenant reads carries another tenant's ID under the ownership label. |
| RulesApi.WriteThenGet | vendor/github.com/observatorium/api/api/metrics/v1/rules.go:214-284 | A successful POST followed by a GET of the same name by the same tenant returns 200 with the written rules, under the URL's name and the body's interval, stamped once with the caller's ID. The repository keeps what the create call received. |
| RulesApi.StampRulesInPlace | vendor/github.com/observatorium/api/api/metrics/v1/rules.go:126-131 | The in-place loop over a rule array leaves the array equal to `StampRules` of its old contents. A nil label map is created before it is written. |
| RulesApi.StampGroupRules | vendor/github.com/observatorium/api/api/metrics/v1/rules.go:70-75 | The inner loop over one group's rules yields that group stamped. |
| RulesApi.StampGroupsInPlace | vendor/github.com/observatorium/api/api/metrics/v1/rules.go:69-76 | The nested loop leaves the group array equal to `StampGroups` of its old contents. |
| RulesApi.ListRules | vendor/github.com/observatorium/api/api/metrics/v1/rules.go:45-88 | The outcome is one of the following, and a 200 response carries only groups whose every rule is owned by the caller's ID:<br>• Missing tenant: 500 "failed to get tenant", with no repository call.<br>• Missing ID: 500 "error finding tenant ID", with no repository call.<br>• Otherwise exactly one list call for the tenant's name.<br>• The list call fails: 500 "failed to list rules".<br>• Encoding fails: 500 "failed to marshal rules".<br>• Success: 200 with the listed groups stamped. |
| RulesApi.GetRule | vendor/github.com/observatorium/api/api/metrics/v1/rules.go:94-143 | • The same tenant and ID errors as list.<br>• Otherwise exactly one get call for the tenant and the URL name.<br>• The sentinel "not found" error: 404 "rule not found". The response is 404 if and only if the repository returned that sentinel.<br>• Any other repository error: 500 "failed to get rules".<br>• Encoding fails: 500 "failed to marshal rules".<br>• Success: 200 with the group stamped. |
| RulesApi.WriteRule | vendor/github.com/observatorium/api/api/metrics/v1/rules.go:214-284 | • The same tenant and ID errors as list.<br>• A body that cannot be read: 500 "failed to read rules from request body".<br>• A malformed body, or a failure to encode the stamped rules: 500 "failed to unmarshal YAML to rule group".<br>• POST: one create call, and 500 "failed to create rules" if it fails.<br>• PUT: one update call, and 500 "failed to update rules" if it fails.<br>• Any other method: no call and an empty 200.<br>Each call carries the body's interval and its rules stamped with the caller's ID. Every call is for the authenticated tenant and the URL name, and carries only rules the caller owns. |
| Syncer.DefaultConfiguration | main.go:45-69 | With no flags, the file is `rules.yaml`, the interval is 60 seconds, the internal listener is `:8083`, and the Observatorium API fetcher is chosen. |
| Syncer.SelectFetcher | main.go:134-146 | The rules-backend fetcher is chosen if and only if its URL is non-empty, with that URL. Otherwise the API fetcher is chosen, with the API URL and the tenant. |
| Syncer.BackendUrlTakesPriority | main.go:134-139 | A non-empty `-rules-backend-url` selects the backend fetcher whatever else is set. |
| Syncer.StatusClassIs2xx | main.go:230 | Go's truncating `status/100 == 2` holds exactly for statuses 200 to 299, negative statuses included. |
| Syncer.ReloadThanosRule | main.go:219-235 | A request is sent exactly when it could be built. It is a POST to the URL with `/-/reload` appended. The result is success exactly when a 2xx status comes back. Any other status is reported as an unexpected-status error carrying that status. |
| Syncer.PeriodOfValidInterval | main.go:177 | An interval of 1 to 9223372036 seconds gives a positive ticker period of that many seconds. |
| Syncer.PeriodOfInvalidInterval | main.go:177 | An interval of 0, or of 9223372037 seconds, gives a period of zero or less because of the int64 wrap-around, which `time.NewTicker` rejects. |
| Syncer.HugeIntervalWrapsToShortPeriod | main.go:177 | Intervals past 9223372036 seconds are not all rejected. An interval of 18446744074 seconds wraps to a period of 290448384 ns, about 0.29 s, which the ticker accepts. |
| Syncer.CycleErrorCases | main.go:152-173 | A cycle reports a fetch error exactly when the fetch fails. It succeeds exactly when the file is written and the reload answers 2xx. It reports a reload error exactly when it fails after the file is written. |
| Syncer.FetchFailureTouchesNothing | main.go:153-156 | A failed fetch returns its error and leaves the file, the handles and the reloads untouched. |
| Syncer.FileFailureSkipsReload | main.go:158-168 | A failed create, copy or close returns an error naming the file, and no reload is sent. |
| Syncer.ReloadFailureKeepsFile | main.go:162-171 | When only the reload fails, the file already holds the fetched rules and the cycle reports a reload error. |
| Syncer.OneCyclePerTick | main.go:178-187 | The loop runs exactly one cycle per tick before the first cancellation, each with that tick's outcomes. |
| Syncer.QuietLogIffAllSucceeded | main.go:174-183 | The log stays empty if and only if every cycle succeeded. |
| Syncer.Sidecar.WriteAndReload | main.go:157-172 | Create, copy, close and reload, on an open stream. It returns the cycle's error. The file becomes the fetched bytes, or the bytes written before a copy error. One handle leaks on a copy error. A reload request is recorded only once the file is closed. |
| Syncer.Sidecar.RunCycle | main.go:152-173 | A whole cycle. It returns the cycle's error and leaves the file, handles and reloads as above. The fetched stream is closed on every way out. The cycle count grows by one. |
| Syncer.Sidecar.CycleAndLog | main.go:174-176 | One cycle, as in `RunCycle`, followed by appending its error to the log when it failed. The new state is `Step` of the old one. |
| Syncer.DiskAfterAllAppend | main.go:158-168 | Running one more cycle applies that cycle's file effect to the file the earlier cycles left. |
| Syncer.LastCompleteCopyWins | main.go:158-165 | Whatever earlier cycles did, once a cycle fetches, creates the file and copies the whole stream, the file holds exactly that stream. |
| Syncer.ReloadsAllTargetRuler | main.go:169 | Every reload request a run of cycles sends is a POST to the reload endpoint of the configured Thanos Ruler URL, and there is at most one per cycle. There are none exactly when no cycle both wrote the file and built the request. |
| Syncer.NoLeakWithoutCopyError | main.go:163-165 | A run of cycles leaves no file handle open exactly when no copy into a created file failed. |
| Syncer.StepAllEffects | main.go:174-187 | After a run of cycles:<br>• the file is the result of each cycle's writes in turn;<br>• the handles leaked and reloads sent by every cycle are added;<br>• every failing cycle's error is logged, in order;<br>• one cycle is counted per element. |
| Syncer.Sidecar.ServeTicks | main.go:178-187 | The `for`/`select` loop, over the sequence of events:<br>• It runs one cycle per tick before the first cancellation, and its state ends as `StepAll` of those ticks' outcomes.<br>• So the file, leaked handles, reloads sent, log and cycle count are the folds over those ticks.<br>• It returns `Cancelled` exactly when a cancellation arrives, and otherwise returns `Waiting`.<br>• It leaves no stream open. |
| Syncer.Sidecar.Run | main.go:174-187 | One cycle runs straight away and its error is logged. Then:<br>• If the ticker rejects the period, the run stops with `TickerPanic`, with exactly that first cycle's effects.<br>• Otherwise it continues as in `ServeTicks`.<br>The file, handles, reloads, log and cycle count are the folds over the first cycle followed by every ticked cycle. No stream stays open. |

## Left out

- YAML marshalling and unmarshalling: the payloads are the structures themselves, and an encoding failure is an input. As a result, `rulefmt.Rule` validation and the `model.Duration` format are not modelled.
- The repository receives the stamped rules as a sequence, not as their encoded bytes.
- `editRuleHandler` and its HTML template: the edit form is a page for browsers and is not part of this model.
- `authentication.GetTenant`, `authentication.GetTenantID` and `chi.URLParam` are inputs.
- Log levels and log messages of the facade are not modelled. The `ResponseWriter` mechanics are reduced to the status code and the payload.
- RulesApi.GetRule: Go compares the error with the sentinel by identity, so a wrapped "not found" error yields 500. The model's `NotFound` outcome stands for the unwrapped sentinel only.
- RulesApi.WriteRule: for a method other than POST or PUT, Go writes nothing and the server sends an implicit empty 200. The model returns that response explicitly.
- Go's map aliasing is not modelled. Stamping mutates the rule's label map, which the repository's copy may share; the model treats labels as values.
- The sidecar's flag parsing errors, and parsing the text of `-interval`, are not modelled: the parsed `uint` is an input.
- The OIDC client credentials, the TLS CA file, the Prometheus registry and metrics, the internal HTTP server and the signal handler are left out. None of them affects what a cycle writes or sends.
- `newRulesBackendFetcher` and `newObservatoriumAPIFetcher`, and `getRules` of either fetcher, are not part of this model. A constructor failure exits the process; a fetch is an input outcome.
- The byte-level transfer of `bufio.Writer.ReadFrom` is not modelled. With an empty buffer it delegates to the file, so the file holds what was copied without an explicit `Flush`; a copy error leaves a prefix of the stream, of input length.
- Syncer.Sidecar.Run: a rejected ticker period makes `time.NewTicker` panic and the process stop. The model returns `TickerPanic` instead.
- Syncer.Sidecar.Run: `select` picks at random when a tick and the cancellation are both ready. The model fixes that choice by the order of the events.
- Syncer.ReloadThanosRule: the reload response body is not modelled. The source never closes it.
- The text of each error and the `log.Print` output are not modelled: a logged error is the step that failed and the file path it names.
- `run.Group` and its interrupt function, which cancels the context, are not modelled; cancellation is an event in the sequence.

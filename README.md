# NMS console: job execution and telemetry logic, modelled in Dafny

This project models the decision logic of an operator console for a network
discovery and monitoring backend. The view code is React. The logic modelled
here is everything that decides something about values the console has
already fetched:

- **Service layer** (`src/services/api.ts`):
  - `request` chooses the message of a failed response and rewrites
    unreachable-backend errors.
  - `checkHealth` turns every failure into one fixed message.
  - `runDiscovery` reads the body of a discovery run. The body is a list of
    `data: <json>` lines in the style of server-sent events. The method
    reduces it to one outcome: the last final event if it is truthy, else
    the last "accepted" event, else an error.
- **Data hooks** (`src/hooks/useApi.ts`): how `fetchData` and `mutate` turn
  an envelope `{success, data?, message?}`, or a thrown error, into
  `(data, loading, error)` state and into the value `mutate` resolves with.
- **Discovery page** (`src/components/pages/DiscoveryPage.tsx`):
  - the set of running job ids, updated around each run;
  - the shared precedence of the status text, icon and badge;
  - the table sorted by id.
- **Provisioned-devices page**
  (`src/components/pages/ProvisionedDevicesPage.tsx`):
  - the latest snapshot;
  - the five chart series, rebuilt from the last 20 snapshots unless the
    newest snapshot carries an error;
  - the device search.
- **Connection indicator** (`src/components/ConnectionStatus.tsx`): the
  unknown / connected / disconnected state that each completed health probe
  sets.

Files: `wrappers.dfy` (Option, Result), `js.dfy` (JSON values, JavaScript
truthiness, property reads, thrown exceptions), `text.dfy` (`startsWith`,
`includes`, `split`/`join`, decimal rendering, ASCII lower-casing),
`api.dfy`, `use_api.dfy`, `discovery_page.dfy`, `provisioned_devices.dfy`,
`connection_status.dfy`.

Inputs the model takes as parameters:

- `fetch` becomes an `Exchange`: a rejection, or a response with its status,
  status text and full body text.
- `JSON.parse` is a parameter `decode`. It returns a parsed value or a
  syntax error.
- JavaScript's `String(v)` for a non-string error message is a parameter
  `show`.
- The timestamp formatting of the chart labels is a parameter `formatTime`.
- The probe's local time of day is a parameter `now`.
- A delayed callback is a separate event: `Page.RemovalFired`, or `Fired` in
  the event trace.

In these places the code behaves in ways a reader might not expect; the
model follows the code:

- Only the newest snapshot's `error` is checked. An error snapshot earlier in
  the window still gives a chart point, 0 where its readings are missing
  (`EarlierErrorGivesZeroPoint`).
- The chart history is not reset when another device is selected.
- `checkHealth` never checks `response.ok`. A non-2xx response with a JSON
  body counts as healthy (`NonOkWithJsonIsHealthy`).
- A final event wins over an accepted one only when its payload is truthy
  (`FalsyFinalLosesExample`).
- A job shows `Failed` only when `lastdiscoverytime` is truthy, so an empty
  string counts as never run.
- `runDiscovery` does not rewrite a `Failed to fetch` error the way `request`
  does. The fetch error passes through unchanged.

## Model

| member | source | states |
|---|---|---|
| Text.Contains | src/services/api.ts:321 | `s.includes(t)` holds exactly when some position of `s` starts an occurrence of `t` |
| Text.Split | src/services/api.ts:399 | `text.split('\n')` gives at least one piece, and no piece contains the separator |
| Text.JoinSplit | src/services/api.ts:399 | joining the pieces of a split with the separator gives back the original text |
| Text.SplitJoin | src/services/api.ts:399 | splitting the join of separator-free pieces gives back exactly those pieces |
| Text.NatToDecimal | src/services/api.ts:395 | the status in `HTTP error! status: N` is rendered as a non-empty string of decimal digits, with no leading zero unless it is 0 |
| Text.DecimalRoundTrip | src/services/api.ts:303 | reading the rendered digits back gives the status code |
| Text.DecimalInjective | src/services/api.ts:303 | different status codes give different error texts |
| Text.LowerIdempotent | src/components/pages/ProvisionedDevicesPage.tsx:107-108 | lower-casing an already lower-cased string changes nothing |
| Api.Request | src/services/api.ts:284-327 | transport `TypeError` with `Failed to fetch` becomes the fixed unreachable message and other errors pass unchanged; a non-OK response fails with the body's truthy `message`, else the status text when the body is not JSON or is `null`, else `HTTP error! status: N`; an OK response yields its parsed body or the parse error |
| Api.ReadDetail | src/services/api.ts:303-309 | the body of a non-OK response is of no use exactly when it does not parse or is `null` (reading `.message` throws); it supplies a message exactly when it is an object whose `message` is truthy, and then that value |
| Api.CheckHealth | src/services/api.ts:330-337 | every failure is `Backend server is not accessible`; the probe succeeds exactly when a response arrives and its body parses, and then resolves with the parsed body |
| Api.NonOkWithJsonIsHealthy | src/services/api.ts:332-333 | a non-2xx response whose body parses still counts as healthy |
| Api.Classify | src/services/api.ts:404-415 | a line is ignored exactly when it does not start with `data: `; skipped exactly when its payload fails to parse or is `null`; accepted exactly when the payload is an object whose `status` is `"accepted"`; otherwise final; an accepted or final line carries its parsed, non-null payload |
| Api.Settle | src/services/api.ts:423-432 | `finalData` when truthy, else `acceptanceData` when truthy, each as `{success: true, statusCode: 200}`; else `No valid data received from server` |
| Api.RunOutcome | src/services/api.ts:385-437 | a transport error rejects unchanged; a success needs an OK response and is `{success: true, statusCode: 200}` with truthy data; any other failure of a response is `HTTP error! status: N` or `No valid data received from server` |
| Api.RunDiscovery | src/services/api.ts:385-437 | the loop over the split body leaves the two slots equal to the scan of the lines; the result is the run outcome, and any success is `{success: true, statusCode: 200}` with truthy data |
| Api.NotOkIgnoresBody | src/services/api.ts:394-396 | a non-OK run fails with `HTTP error! status: N` whatever the body holds |
| Api.AcceptanceIsLastAccepted | src/services/api.ts:403-411 | the acceptance slot holds the payload of the last line whose status is `accepted`, and is empty when no line has one |
| Api.FinalIsLastFinal | src/services/api.ts:403-415 | the final slot holds the payload of the last decoded non-`accepted` line, and is empty when there is none |
| Api.InertLine | src/services/api.ts:404-418 | a line that is not a `data: ` line, or whose payload fails to parse or is `null`, can be removed without changing the slots, so one bad line never fails the run |
| Api.AcceptedAndFinalCommute | src/services/api.ts:410-415 | swapping an adjacent accepted line and final line leaves the slots unchanged, so the order of the two kinds does not matter |
| Api.AcceptanceIsTruthy | src/services/api.ts:410-411 | a filled acceptance slot always holds a truthy payload (an object) |
| Api.OutcomeOfOkRun | src/services/api.ts:422-432 | an OK run answers with the final payload when it is truthy, else with the acceptance payload, else fails with `No valid data received from server` |
| Api.NoEventsFails | src/services/api.ts:424-426 | a body in which every line is ignored or skipped fails with `No valid data received from server` |
| Api.AcceptedThenFinalExample | src/services/api.ts:398-432 | an accepted event then a final event, newline-terminated, yield the final payload |
| Api.MalformedLineExample | src/services/api.ts:405-418 | a malformed `data: ` line before a final event is skipped and the final payload is the outcome |
| Api.FalsyFinalLosesExample | src/services/api.ts:423 | a final payload `0` loses to an earlier acceptance payload |
| UseApi.FailureText | src/hooks/useApi.ts:20 | the failure text is the envelope's message when it is non-empty, otherwise `API call failed`, and is never empty |
| UseApi.OutcomeError | src/hooks/useApi.ts:17-23 | a settled call leaves no error exactly when the envelope says success; a failure envelope leaves its failure text; a throw leaves the `Error`'s message, or `Unknown error occurred` for anything else thrown; the text is empty only when a thrown `Error` had an empty message |
| UseApi.MutationResult | src/hooks/useApi.ts:47-55 | `mutate` resolves with non-null data only after a success envelope, and that data is truthy; it resolves with `null` on every failure |
| UseApi.ApiData.constructor | src/hooks/useApi.ts:8-10 | the hook starts with no data, loading, and no error |
| UseApi.ApiData.BeginFetch | src/hooks/useApi.ts:14-15 | before the await, loading is set and the error is cleared; data is kept |
| UseApi.ApiData.CompleteFetch | src/hooks/useApi.ts:17-26 | after the call settles, loading is false; success replaces data with `data \|\| null`; failure or a throw sets the error and keeps data |
| UseApi.ApiData.FetchData | src/hooks/useApi.ts:12-27 | a whole fetch ends not loading, with data replaced only on success and the error equal to the outcome's (none after a success) |
| UseApi.Mutation.constructor | src/hooks/useApi.ts:39-40 | the mutation starts idle with no error |
| UseApi.Mutation.BeginMutate | src/hooks/useApi.ts:44-45 | before the await, loading is set and the error cleared |
| UseApi.Mutation.CompleteMutate | src/hooks/useApi.ts:46-58 | after the call settles, loading is false, the result is `data \|\| null` or `null`, and the error is set on failure only |
| UseApi.Mutation.Mutate | src/hooks/useApi.ts:42-59 | a whole `mutate` ends not loading, with the outcome's error and result |
| DiscoveryPage.WithRunning | src/components/pages/DiscoveryPage.tsx:27 | adding puts the id in the set and leaves every other id's membership unchanged |
| DiscoveryPage.WithoutRunning | src/components/pages/DiscoveryPage.tsx:32-35 | deleting removes only the finishing id; every other running id stays |
| DiscoveryPage.StartIsIdempotent | src/components/pages/DiscoveryPage.tsx:27 | adding an id that is already running changes nothing |
| DiscoveryPage.Page.constructor | src/components/pages/DiscoveryPage.tsx:10 | the page starts with no running job and no pending removal |
| DiscoveryPage.Page.StartRun | src/components/pages/DiscoveryPage.tsx:27 | before the request, the id is added to the running set, which is the `Started` step |
| DiscoveryPage.Page.RunSettled | src/components/pages/DiscoveryPage.tsx:28-49 | a truthy result schedules the id's removal; any other result removes the id at once; the running set follows the `Settled` step |
| DiscoveryPage.Page.RemovalFired | src/components/pages/DiscoveryPage.tsx:31-36 | the delayed callback removes its id and nothing else, which is the `Fired` step |
| DiscoveryPage.Page.HandleRunDiscovery | src/components/pages/DiscoveryPage.tsx:26-50 | on both paths the id ends up absent, every other id keeps its membership, and the mutation ends not loading |
| DiscoveryPage.Page.RunDisabled | src/components/pages/DiscoveryPage.tsx:192 | the Run button is disabled for every running job and while any run mutation loads, and enabled otherwise |
| DiscoveryPage.RunButtonFollowsEvents | src/components/pages/DiscoveryPage.tsx:192 | when the page's running set is the replay of its events and no run mutation loads, a job's Run button is enabled exactly when every start of that job was followed by an event that removed it |
| DiscoveryPage.Step | src/components/pages/DiscoveryPage.tsx:26-50 | each page event changes only its own id's membership: a start adds it, a fired removal drops it, a settled run drops it unless the result is truthy, in which case nothing changes |
| DiscoveryPage.Replay | src/components/pages/DiscoveryPage.tsx:26-50 | every id in the running set after a sequence of events was started by one of them |
| DiscoveryPage.RunningIffStartedNotRemoved | src/components/pages/DiscoveryPage.tsx:26-50 | after any sequence of page events, an id is running exactly when it was started and no later event for that id removed it; other ids' events play no part |
| DiscoveryPage.TwoRunsExample | src/components/pages/DiscoveryPage.tsx:26-50 | with jobs `a` then `b` started, completing `a` leaves `{b}` and completing `b` leaves the empty set |
| DiscoveryPage.StatusOf | src/components/pages/DiscoveryPage.tsx:89-94 | precedence: Running if the id is running, else Reachable if `status`, else Failed if `lastdiscoverytime` is truthy, else Pending |
| DiscoveryPage.StatusText | src/components/pages/DiscoveryPage.tsx:89-94 | the status text is the text of that precedence |
| DiscoveryPage.StatusIcon | src/components/pages/DiscoveryPage.tsx:59-71 | the icon follows the same precedence as the text |
| DiscoveryPage.StatusBadge | src/components/pages/DiscoveryPage.tsx:73-87 | the badge classes follow the same precedence as the text |
| DiscoveryPage.InsertById | src/components/pages/DiscoveryPage.tsx:97 | inserting into a sorted list keeps it sorted and adds exactly that job |
| DiscoveryPage.SortById | src/components/pages/DiscoveryPage.tsx:97 | the displayed list is sorted ascending by id and is a permutation of the input |
| DiscoveryPage.InsertKeepsSameIdOrder | src/components/pages/DiscoveryPage.tsx:97 | an inserted job goes ahead of the jobs that share its id and changes no other id's jobs |
| DiscoveryPage.SortIsStable | src/components/pages/DiscoveryPage.tsx:97 | jobs sharing an id keep their original relative order |
| ProvisionedDevices.Latest | src/components/pages/ProvisionedDevicesPage.tsx:82-83 | `latest` is the last snapshot, absent exactly when the list is empty |
| ProvisionedDevices.Rebuilds | src/components/pages/ProvisionedDevicesPage.tsx:87 | the history is rebuilt exactly when there is a snapshot and the newest one has no truthy `error` |
| ProvisionedDevices.Window | src/components/pages/ProvisionedDevicesPage.tsx:91 | `slice(-20)` keeps the last min(n, 20) snapshots, oldest first |
| ProvisionedDevices.WindowSlides | src/components/pages/ProvisionedDevicesPage.tsx:91 | one more snapshot is appended to the window, and once the window is full the oldest drops out (FIFO) |
| ProvisionedDevices.TwentyFiveExample | src/components/pages/ProvisionedDevicesPage.tsx:91 | of 25 snapshots, the 6th to the 25th remain |
| ProvisionedDevices.BuildHistory | src/components/pages/ProvisionedDevicesPage.tsx:88-97 | all five series have the window's length, at most 20; each point is the snapshot's reading when present and 0 when absent; each timestamp is its snapshot's formatted time |
| ProvisionedDevices.NewestPointIsLatest | src/components/pages/ProvisionedDevicesPage.tsx:82-96 | the newest point of each of the five series (timestamp, CPU, memory, disk, load) comes from `latest` |
| ProvisionedDevices.EarlierErrorGivesZeroPoint | src/components/pages/ProvisionedDevicesPage.tsx:87-93 | only the newest snapshot's error is checked; an earlier error snapshot without readings gives a 0 point |
| ProvisionedDevices.DevicesView.constructor | src/components/pages/ProvisionedDevicesPage.tsx:44-56 | the history starts as five empty series |
| ProvisionedDevices.DevicesView.OnPollingData | src/components/pages/ProvisionedDevicesPage.tsx:86-100 | when the list is non-empty and the newest snapshot has no error, every series is replaced wholesale from the window; otherwise the history is unchanged |
| ProvisionedDevices.FilterDevices | src/components/pages/ProvisionedDevicesPage.tsx:106-109 | a device is kept exactly when its lower-cased name or IP contains the lower-cased term |
| ProvisionedDevices.MatchRules | src/components/pages/ProvisionedDevicesPage.tsx:107-108 | of the search rule `Matches` (lower-cased name or IP includes the lower-cased term): the empty term matches every device; a name or IP equal to the term up to case matches; a match needs a term no longer than the name or the IP |
| ProvisionedDevices.FilterAppend | src/components/pages/ProvisionedDevicesPage.tsx:106 | filtering distributes over concatenation, so kept devices stay in their original order |
| ProvisionedDevices.EmptyTermKeepsAll | src/components/pages/ProvisionedDevicesPage.tsx:106-109 | an empty search term keeps every device |
| ProvisionedDevices.SearchIgnoresCase | src/components/pages/ProvisionedDevicesPage.tsx:107-108 | searching for a term or its lower-cased form selects the same devices |
| ConnectionStatus.ConnectionMonitor.constructor | src/components/ConnectionStatus.tsx:10-12 | the state starts unknown, with empty error text and check time, and no notification; the indicator shows "checking" |
| ConnectionStatus.ConnectionMonitor.CheckConnection | src/components/ConnectionStatus.tsx:14-27 | success sets connected and clears the error; failure sets disconnected with the exception's message or `Connection failed`; every probe records the check time and notifies the stored value; afterwards the indicator shows connected, or disconnected with that error text |
| ConnectionStatus.ConnectionMonitor.Probe | src/components/ConnectionStatus.tsx:14-27 | a probe through `checkHealth` connects exactly when the health check succeeds and then clears the error to `''`; otherwise it shows `Backend server is not accessible`; it records the check time and notifies the new state; the indicator then shows connected or disconnected with `Backend server is not accessible` |
| ConnectionStatus.ConnectionMonitor.Shown | src/components/ConnectionStatus.tsx:39-75 | the indicator says "checking" exactly while the state is unknown, "connected" exactly when it is `true`, and when it is `false` shows disconnected with the stored error text |

## Left out

- Network I/O. `fetch` is an input (`Exchange`). A failure while the body
  is read is not modelled, whether it happens in `response.text()` in
  `runDiscovery` or in `response.json()` in `request` (`api.ts:305`, `314`)
  and `checkHealth` (`api.ts:333`): `decode` only parses or reports a syntax
  error.
- JSON decoding. `JSON.parse` and `response.json()` are the parameter
  `decode`. JSON numbers are `real`; the model only tests them against 0.
- `Api.Request`: the `String(v)` conversion of a non-string `message` is the
  parameter `show`, not JavaScript's own rules.
- The hooks take the typed envelope `ApiResponse<T>`. Checking that a
  decoded body has that shape is not modelled. So is the error a `null` body
  would cause when `response.success` is read.
- Timers. `setInterval` in `ConnectionStatus.tsx:34-36` is not modelled; a
  completed probe is one `CheckConnection` call. The `setTimeout` delays in
  `DiscoveryPage.tsx:31-38` and `46-48` are separate events. The `refetch`
  those callbacks start is not modelled, beyond `UseApi.ApiData.FetchData`
  itself. Time is not modelled.
- `DiscoveryPage.Page.HandleRunDiscovery`: it lets the delayed removal fire
  inside the same call. Other jobs' events that interleave with a run are
  covered by `DiscoveryPage.RunningIffStartedNotRemoved` instead.
- React rendering, effect scheduling and all JSX. This includes the charts,
  the form components, `Sidebar`, `Header`, `Dashboard`, `App`,
  `Notification` and `DeviceStatusTable`.
- Date formatting (`safeFormatDate`, `toLocaleTimeString`) is the parameters
  `formatTime` and `now`. `toFixed` display formatting is not modelled.
- `toLowerCase` is modelled on ASCII letters only. Unicode case mapping is
  not modelled.
- `pollingData?.entity || []`, `devicesData?.entities || []` and
  `discoveriesData?.entities || []` (`DiscoveryPage.tsx:24`): the model takes
  the snapshot list, the device list and the discovery list as given.
- Logging (`console.log`, `console.error`, `console.warn`, for example at
  `api.ts:289`, `299`, `315`, `318`, `417`, `434` and `DiscoveryPage.tsx:30`,
  `40`) is not modelled; no result depends on it.
- `ConnectionStatus.ConnectionMonitor.CheckConnection`: the model assumes
  the `onConnectionChange` callback returns normally. The source calls it
  inside the `try` (`ConnectionStatus.tsx:20`), so a callback that threw
  would send the probe down the failure branch. No caller in the repository
  passes the callback.
- `handleProvision`, `handleStatusToggle` and the credential pages are
  outside this core.
- Mock data (`mockNetworkData.ts`), `newrelic.js`, `vite.config.ts`,
  `main.tsx`, and the commented-out code at the top of `api.ts` are not
  modelled.
- The sort uses JavaScript's `a.id - b.id`. Ids are modelled as unbounded
  integers, so floating-point rounding of very large ids is not modelled.

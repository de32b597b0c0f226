# sales-dashboard core, modelled in Dafny

A model of the three pieces of logic in the sales dashboard front end that carry policy:

- **The API client** (`src/lib/api.ts`, module `Api` in `api.dfy`). `fetchApiData` routes an
  endpoint name to a request: `login` is a POST of the caller's data, anything else a
  body-less GET of `/api/v1/<name>`. The retry policy configured through axios-retry is
  modelled as it is written: a budget of 3 retries, a linear delay of `retryCount * 1000` ms
  (1 s, 2 s, 3 s, neither exponential nor capped), and a retry condition made of the
  library's own check, the timeout code `ECONNABORTED`, or any received status of 500 or
  more. For the timeout code and a received 5xx the request method plays no part, so a 5xx
  answer to the login POST is retried. The library's own check does depend on the method
  (it retries some failures only for idempotent requests such as GET) and is passed to each
  call as the parameter `lib`. The retry loop that axios-retry runs is written as a recursive
  function (`RetryFrom`) and as a while loop (`SendWithRetries`). Both run over a transport that
  gives the outcome of each send. Both are proved equal to a declarative description of
  the loop (`IsRetryTrace`). `fetchApiData` returns the final response's payload verbatim or
  rethrows the final error unchanged.
- **The session** (`src/context/AuthContext.tsx`, module `Auth` in `auth.dfy`). The state is
  the boolean `user` plus the value of the one persisted key `isAuthenticated`. Storage is an
  `Option<string>`. `Init` reads the key. `SignIn` checks the fixed credential pair
  locally and only then makes the login call. The result of that awaited call is an input.
  State is written only when the call succeeds, and every failure becomes
  "Invalid credentials". `SignOut` clears both the flag and the key. `Replay` runs a sequence
  of actions and characterises the resulting session.
- **The dashboard's data load** (`src/pages/Dashboard.tsx`, the `fetchData` effect, module
  `Dashboard` in `dashboard.dfy`). The effect keeps every tenth record, adds a `date` field to
  each kept record, and sets `loading`, `error` and `tweetActivity` around one
  `fetchApiData` call. The awaited result and the locale-dependent time formatting are
  inputs. The formatting may throw, and then the load takes the error path.

`json.dfy` holds the JSON value type and JavaScript truthiness, and `wrappers.dfy` holds
`Option`, `Result` and `Outcome`.

## Model

| member | source | states |
|---|---|---|
| Api.Route | src/lib/api.ts:38-41 | `login` gives a POST carrying exactly the caller's data; every other name gives a GET of `/api/v1/` + name with no body, the data ignored |
| Api.EndpointOf | src/lib/api.ts:40-41 | a path is inside the API exactly when it starts with `/api/v1/`, and prefix plus recovered name gives the path back |
| Api.RouteRoundTrip | src/lib/api.ts:38-41 | the endpoint name is recovered from every routed path; every routed request is well formed (POST exactly for login, no body on GET); the login body is the caller's data |
| Api.WellFormedIsRouted | src/lib/api.ts:38-41 | conversely, every well-formed request is the one routing produces for its endpoint and body |
| Api.RetryDelay | src/lib/api.ts:25-27 | the wait before retry number k is a whole number of seconds, exactly k of them |
| Api.ShouldRetry | src/lib/api.ts:28-33 | the library's verdict, the timeout code `ECONNABORTED` and any received status >= 500 each make an error retryable; the last two do so whatever the request method |
| Api.Retryable | src/lib/api.ts:28-33 | a success is never retried; a failed send is retried exactly when its error satisfies the retry condition |
| Api.ShouldRetryCases | src/lib/api.ts:28-33 | the timeout code `ECONNABORTED` or any received status >= 500 satisfies the retry condition; an error the library does not flag, with another code and no 5xx response, does not |
| Api.DelayIsLinear | src/lib/api.ts:25-27 | delays are 1000, 2000, 3000 ms for retries 1..3, strictly increasing, with a constant step of 1000 ms |
| Api.Schedule | src/lib/api.ts:25-27 | the n waits before retries 1..n, the i-th being the delay for retry i + 1 |
| Api.ScheduleTotal | src/lib/api.ts:25-27 | waiting before retries 1..n takes 1000 * n * (n + 1) / 2 ms |
| Api.FullBudgetWait | src/lib/api.ts:24-27 | over the 3-retry budget the waits are exactly [1000, 2000, 3000], 6000 ms in all |
| Api.RetryFrom | src/lib/api.ts:23-34 | from any send on, the loop stays within the budget, surfaces the last send's outcome verbatim, waits the configured delay before each retry, and retries only retryable failures, stopping on success, a non-retryable error or a spent budget |
| Api.Retry | src/lib/api.ts:23-34 | the loop makes between 1 and 4 sends and has the shape of a retry trace |
| Api.RetryTraceUnique | src/lib/api.ts:23-34 | a trace has the promised shape if and only if it is the one the loop produces |
| Api.SendWithRetries | src/lib/api.ts:23-34 | the imperative send/wait/resend loop produces exactly the trace of the recursive loop |
| Api.FetchApiData | src/lib/api.ts:36-46 | the call issues the routed request, makes 1..4 sends, returns the final response's payload verbatim or rethrows the final error unchanged; every earlier send failed retryably; fewer than 4 sends means the last was not retryable; the waits are 1 s, 2 s, 3 s in order |
| Api.TransientFailures | src/lib/api.ts:23-24 | with n retryable failures before a success the call succeeds iff n <= 3, after min(n, 3) + 1 sends, with that success's payload; otherwise it fails with the fourth send's error |
| Api.NonRetryableStops | src/lib/api.ts:28-46 | a non-retryable failure ends the call after that send and is surfaced unchanged |
| Api.LoginServerErrorRetried | src/lib/api.ts:28-40 | a 5xx answer to the login POST is retried: the call sends at least twice |
| Api.ExhaustedCallWait | src/lib/api.ts:24-27 | a call that used its whole budget waited 6000 ms between its sends |
| Auth.Init | src/context/AuthContext.tsx:13-15 | the initial `user` is true iff the stored value is exactly `"true"`; storage is not changed |
| Auth.RestartRoundTrip | src/context/AuthContext.tsx:13-15 | re-reading storage gives a state back exactly when flag and storage agree, and always gives such a state |
| Auth.LoginPayload | src/context/AuthContext.tsx:21-27 | the login body is an object with exactly the fields username, email, password, phone_number, input_code |
| Auth.PayloadDependsOnlyOnCredentials | src/context/AuthContext.tsx:21-27 | username and password come from the caller; two payloads agree iff the credentials do; email, phone_number and input_code are the same for every caller |
| Auth.SignIn | src/context/AuthContext.tsx:17-37 | the login call is made iff the pair is ("trial", "assignment123"), with that payload; sign-in succeeds iff the call was made and succeeded, leaving `user` true and `"true"` stored; every failure is "Invalid credentials" with the session unchanged |
| Auth.SignInPostsPayload | src/context/AuthContext.tsx:19-27 | the login call sign-in makes is a POST to `/api/v1/login` carrying the payload |
| Auth.SignInThroughRetries | src/context/AuthContext.tsx:21-35 | through the retrying client, sign-in survives up to 3 retryable login failures; after more it fails with "Invalid credentials" and the session unchanged |
| Auth.SignOut | src/context/AuthContext.tsx:39-42 | afterwards `user` is false and the key is absent, whatever the state before |
| Auth.SignOutIdempotent | src/context/AuthContext.tsx:39-42 | signing out twice equals signing out once, and a restart after it is signed out |
| Auth.RestartAfterSignIn | src/context/AuthContext.tsx:13-29 | a restart after a successful sign-in is signed in |
| Auth.ReplayInvariant | src/context/AuthContext.tsx:12-42 | after any actions from start-up, `user` is true iff the latest deciding action was a successful sign-in, or none decided and storage held `"true"`; flag and storage always agree, so a restart restores the session |
| Dashboard.KeepEveryTenth | src/pages/Dashboard.tsx:65-66 | filtering the first n records by `index % 10 === 0` keeps (n + 9) / 10 of them, the i-th being record 10 * i |
| Dashboard.Downsample | src/pages/Dashboard.tsx:65-66 | the downsampled list has (n + 9) / 10 records, output i being input 10 * i |
| Dashboard.DownsampleKeepsMultiplesOfTen | src/pages/Dashboard.tsx:65-66 | every record at an index divisible by 10 is kept, at position index / 10; every kept record sits in the input at an index divisible by 10 |
| Dashboard.WithDate | src/pages/Dashboard.tsx:67-73 | a stamped record is an object holding every original field other than `date` unchanged, with `date` set to the formatted time, and no other field |
| Dashboard.StampAll | src/pages/Dashboard.tsx:67-73 | stamping fails iff some record is `null` or formatting its `date2` throws; otherwise record i becomes record i stamped with the formatted time of its `date2` |
| Dashboard.StampFailsAtMultipleOfTen | src/pages/Dashboard.tsx:64-73 | stamping the downsampled records fails iff stamping a record at an index divisible by 10 throws (a `null` record or a `date2` that cannot be converted) |
| Dashboard.BeginLoad | src/pages/Dashboard.tsx:60-61 | at the start of a load, `loading` is true, `error` is cleared and the records are untouched |
| Json.Truthy | src/pages/Dashboard.tsx:64 | a payload fails `if (tweetData)` exactly when it is `null`, `false`, `0` or the empty string; arrays and objects always pass |
| Json.Field | src/pages/Dashboard.tsx:69 | `item.date2` is present exactly when the record is an object with a `date2` field, and is then that field's value |
| Dashboard.Throws | src/pages/Dashboard.tsx:64-79 | a rejected call always throws, a falsy payload never does, and an array whose first record cannot be stamped does |
| Dashboard.Process | src/pages/Dashboard.tsx:64-75 | the `try` body throws exactly when `Throws` holds; it leaves the records alone exactly for a falsy payload; otherwise it yields the stamped downsampled records of an array payload |
| Dashboard.FinishLoad | src/pages/Dashboard.tsx:64-82 | `loading` always ends false; a throw sets the fixed message and keeps the records; otherwise the error is untouched, and a falsy payload changes nothing but `loading` |
| Dashboard.LoadDashboard | src/pages/Dashboard.tsx:57-86 | afterwards `loading` is false; `error` is the fixed message iff the load threw (including a throwing date conversion), else empty; on a throw or a falsy payload `tweetActivity` keeps its value; otherwise it holds the stamped records 0, 10, 20, … |
| Dashboard.FormatFailureFailsLoad | src/pages/Dashboard.tsx:67-79 | when the first record's `date2` cannot be converted to a date, the load shows the fixed message and keeps the previous records |
| Dashboard.LoadRequest | src/pages/Dashboard.tsx:63 | the effect reads with a body-less GET of `/api/v1/sample_assignment_api_4` |

## Left out

- Transport configuration (`src/lib/api.ts:4-20`): base URL, basic-auth header, JSON headers, the 10 s timeout mechanism and `withCredentials`. These are network I/O. A timeout reaches the model only as an error with code `ECONNABORTED`.
- `axiosRetry.isNetworkOrIdempotentRequestError` is library code. It is the uninterpreted parameter `lib`. It depends on the request method: some failures (a response-less error the library does not count as a network error, or a 429 in axios-retry 4) are retried for a GET and not for the login POST. The model does not tie `lib` to the routed request.
- How axios settles an HTTP exchange into a response or an error (status validation) is library code. The transport supplies each send's settled outcome.
- axios-retry also shares the 10 s timeout across all sends and the waits between them (its `shouldResetTimeout` default): before each retry it subtracts the last send's duration and the retry's delay from what remains. Depending on the library version, a retry whose share is used up is dropped or sent with a 1 ms timeout. The 1 s, 2 s and 3 s waits alone use 6 s of the 10 s. That needs a clock and is not modelled.
- Api.ShouldRetryCases: a send that timed out has used the whole 10 s share, so in the program its `ECONNABORTED` retry is dropped or times out at once and never succeeds. The model retries it like any other retryable failure.
- Api.TransientFailures: holds for the program only when the transient failures leave time in the shared 10 s timeout, whose remainder also pays for the waits. With n = 3 the fourth send gets time only if the first three sends together take less than about 4 s (10 s minus the 6 s of waits). n timeouts followed by a success never end in success in the program.
- Concurrency: overlapping `signIn` calls racing on the final state; a `signOut` made while `signIn` awaits its login call, which the sign-in's state writes (`src/context/AuthContext.tsx:28-29`) overwrite when the call succeeds; and retry timers that keep running after the caller stops waiting. Auth.ReplayInvariant's "latest deciding action" holds for actions that complete one at a time.
- `console.error` logging in `fetchApiData`, `signIn` and the effect.
- Auth.SignIn: a failure of `localStorage.setItem` after `setUser(true)` is not modelled. Storage writes always succeed here.
- React `useState`/`useEffect`/context and the provider check in `useAuth` (`src/context/AuthContext.tsx:51-57`). State is passed explicitly.
- The date text: `new Date(date2).toLocaleTimeString(…)` depends on the locale and is the opaque `Format` parameter. Its one modelled consequence is whether it throws (None): `new Date(x)` throws when converting `x` to a primitive fails, for example `{"toString": 0}`, and the load then takes the error path.
- Dashboard.WithDate: spreading a kept record that is a non-empty string or an array adds index-numbered fields in JavaScript. The model adds none. Numbers and booleans spread to no fields, as modelled.
- JSON numbers are integers. Fractional numbers and `NaN` (which is falsy) are not represented.
- The rest of `src/pages/Dashboard.tsx`: charts, tables, icons, mock data, the gauge geometry (floating point) and the `supabase` import. This is presentation only.

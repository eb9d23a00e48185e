# ZkConnect in Dafny

A model of `connect.py`, the client that bridges a ZKTeco attendance terminal to an
HTTP ingestion API. The model covers four parts:

- **Configuration check** (`ParseConfig._validate` / `parse`). The `Config` module
  runs the program's seven checks in the program's order and reports the first one
  that fails. Each rule is also stated on its own (`Violates`, ranked by `Rank`), and
  the lemmas show that the validator reports exactly the earliest rule a document breaks.
- **Log file name** (`getLogFileName`). The `LogFile` module builds the name, with
  the day passed in as a parameter. The `Calendar` module renders the date and time
  zero-padded and parses them back. Its round-trip lemmas show that the date stamp in
  a split log name identifies its day, and that the timestamp sent to the API
  identifies the punch's time.
- **Day rollover** (`_shouldStartNewFile`). `Monitor.ShouldStartNewFile` compares the
  start day with the current day.
- **The monitoring client** (`ZkConnect`). This is a class with the connection, the
  start day and the device's gate state (`is_enabled`). Ghost fields record the
  ingestion requests sent, the `_transmit` calls and the `enable_device` calls.
  `Monitor` reads a finite capture of `Tick`s. Each tick carries:
  - the punch, or `None` for an idle tick;
  - what the outside world answers while that element is handled: the device clock,
    the session cookie, the ingestion POST's outcome, the gate state seen by
    `_transmit`'s `finally` block, and the current day.

  Pure functions over the tick sequence specify where the loop stops (`FirstHalt`,
  `Consumed`, `RunOutcome`) and what it sends (`Punches`, `Requests`, `Reenables`).
  `Monitor`'s postcondition ties the client's new state to these functions.

Behaviour of the code worth knowing, which the model follows:

- The code never reconnects. A failing `get_time` in the healthcheck raises out of
  `monitor` (`DeviceFailed`), and `_connect(reconnect=True)` is never called.
- The configured `endpoint` is stored but never used. Requests go to a fixed URL
  (`IngestionUrl`).
- Any null value under `device` is refused, not only `host` and `port`. A document
  or `device` entry that is not a mapping fails with an attribute error.
- The rollover check fires on any change of day, including a clock set back.
- Only statuses 400 to 599 make `raise_for_status` raise. A body that is not JSON
  fails earlier, when the response is printed. A JSON body that is not an object
  fails later, when `message` is read from it. In all three cases `_transmit`
  returns `None`.
- A fresh token is fetched for every transmission. When there is none, no request is made.

## Model

| member | source | states |
|---|---|---|
| `Config.ValidateReportsFirstViolation` | connect.py:173-187 | the validator fails with error `e` exactly when rule `e` is broken and no rule checked before it is |
| `Config.ValidateAcceptsExactly` | connect.py:173-187 | the validator accepts a document exactly when it breaks none of the seven rules |
| `Config.ExtraDeviceKeyChecked` | connect.py:179-180 | the null check covers every key of `device`: adding a null-valued key to an accepted config gets `EmptyDeviceValue`, adding a non-null one keeps it accepted |
| `Config.Parse` | connect.py:197-199 | `parse` returns the loaded document unchanged exactly when it breaks no rule; otherwise it fails with the first rule, in checking order, that the document breaks |
| `LogFile.LogFileName` | connect.py:215-227 | every name ends in `.log`; without a config the name is `transactions.log` |
| `LogFile.SplitNameRecordsDay` | connect.py:225-226 | with a truthy `split`, the name is the rendered `filename`, a dash, a 10-character stamp that parses back to today, and `.log` |
| `LogFile.SplitNamesDifferByDay` | connect.py:225-226 | with a truthy `split`, two different days give two different log names |
| `LogFile.UnsplitNameIgnoresDay` | connect.py:226-227 | without a truthy `split` the name is `filename` + `.log`, whatever the day |
| `Calendar.DigitsRoundTrip` | connect.py:225 | zero-padded rendering to `width` digits reads back as the number, for any number below 10^width |
| `Calendar.NatDecimalRoundTrip` | connect.py:225 | the unpadded decimal rendering of a number reads back as that number |
| `Calendar.IsoDateRoundTrip` | connect.py:225 | `%Y-%m-%d` of a date parses back to the same date |
| `Calendar.IsoDateInjective` | connect.py:225 | different dates render differently |
| `Calendar.TimestampRoundTrip` | connect.py:149 | `str()` of a timestamp parses back to the same timestamp |
| `Monitor.PayloadCarriesPunch` | connect.py:87-98 | the payload sent for a punch carries its user id, punch and status unchanged, the client's machine id, and a timestamp string that parses back to the punch's time |
| `Monitor.ShouldStartNewFile` | connect.py:123-130 | the rollover check raises `--END OF THE DAY--` exactly when today differs from the start day, and never on the start day |
| `Monitor.FirstHalt` | connect.py:139-155 | the index of the first element whose healthcheck or rollover check raises: no earlier element raises, and that element does |
| `Monitor.RequestsComeFromPunches` | connect.py:80-98 | every request sent carries a punch from the capture, the cookie fetched for it, the fixed URL and the machine id |
| `Monitor.RequestsPerPunch` | connect.py:80-82 | there are never more requests than punches, and there is exactly one per punch if and only if every punch obtains a token (idle elements fetch none) |
| `Monitor.StopsAtFirstNewDay` | connect.py:139-155 | if no healthcheck fails first, the run stops with `EndOfDay(k)` at the first element `k` handled on a new day, after consuming exactly `k + 1` elements |
| `Monitor.RunsToEndOnOneDay` | connect.py:139-155 | on an unchanged day with an answering device, the whole capture is consumed |
| `Monitor.ZkConnect.constructor` | connect.py:17-38 | the settings and start day are recorded; the client is connected exactly when the device is reachable, and a failed connect leaves `connection` absent without raising |
| `Monitor.ZkConnect.Connect` | connect.py:40-51 | `connection` is set to the device link on success and left as it was when connecting raises |
| `Monitor.ZkConnect.Healthcheck` | connect.py:114-121 | the healthcheck succeeds exactly when the device answers its clock query |
| `Monitor.ZkConnect.Transmit` | connect.py:70-112 | one attempt per call; a request (fixed URL, the token as cookie, the payload) is logged exactly when a token was obtained; the response is returned exactly when it is delivered; the gate always ends open, with `enable_device` called exactly when it was found closed |
| `Monitor.ZkConnect.HandleElement` | connect.py:140-154 | an idle tick only runs the healthcheck; a punch is transmitted once when transmission is on and not at all when it is off |
| `Monitor.ZkConnect.Monitor` | connect.py:132-155 | without a connection the run raises before reading anything; otherwise it ends as `RunOutcome` says, and the attempts, requests and `enable_device` calls are those of the punches among the consumed elements when transmission is on, and none when it is off; the gate is open after any transmission |
| `Monitor.ThreePunchesThenNewDay` | connect.py:132-155 | three punches and then an element on a new day give exactly three requests and `EndOfDay(3)`; later elements are not read |
| `Monitor.UnreachableDeviceSendsNothing` | connect.py:132-137 | when the device is unreachable at start-up, `monitor` raises "not connected" and nothing is ever sent |
| `Monitor.TransmissionOffSendsNothing` | connect.py:143-154 | with transmission off nothing is sent, and the run still stops where the healthcheck and rollover checks say |

## Left out

- Device protocol: `ZK(...).connect()`, `live_capture`, `get_time`, `is_enabled` and `enable_device` are foreign calls. What they answer arrives as input in each `Tick`, and the live capture is a finite sequence rather than an endless generator (`StreamEnded` stands for a capture that stops).
- `enable_device` is modelled as always succeeding. An exception it raised would escape `monitor`, and the model does not represent that.
- `disconnect` is not modelled: nothing in the program calls it, and it is a single foreign call.
- The device closing its own gate between elements is seen only where `_transmit`'s `finally` block reads `is_enabled` (the tick's `gate`). Idle ticks and punches that are not transmitted do not change `enabled`.
- HTTP: `getToken` and `requests.post` are reduced to the token option and a `PostOutcome`. Credentials, headers other than the cookie, and `response.json()` contents are not modelled.
- Which `except` branch of `_transmit` logs an error is not modelled. The return value, which is the same in every failing branch, is modelled.
- The `reconnect` argument of `_connect` only changes a log message and is never true; it is left out.
- YAML loading, `configLogger`, `logging`, `print`, `open`, `init()` with its hard-coded settings, and `sys.exit` are I/O glue.
- `date.today()` is a parameter (`today` of the constructor, `today` of each tick, and the day given to `LogFileName`).
- YAML values are nulls, booleans, integers, strings and string-keyed mappings. Floats, lists, dates and non-string keys are not represented.
- `LogFile.LogFileName`: a `filename` that is itself a mapping is rendered as the placeholder `{...}`, because Python's rendering depends on insertion order, which a map does not keep.
- `LogFile.LogFileName`: years before 1000 are rendered zero-padded to four digits. With glibc, `strftime("%Y")` does not pad them.
- Timestamps from the device have second resolution and no time zone, so `str()` never adds microseconds or an offset. `user_id` is taken to be a string, as the device library delivers it.

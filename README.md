# Kodi RF Alert, modelled in Dafny

The program `kodi_alert_433.py` runs on a Raspberry Pi. It polls a 433 MHz receiver on a GPIO pin. When the receiver decodes a new code equal to the configured alert code, the program does two things in order:

- it runs an optional local shell command;
- it calls `alert`. If the Kodi host answers on its HTTP port, `alert` posts JSON-RPC 2.0 requests: a `GUI.ShowNotification` when both the title and the text are non-empty, then an `Addons.ExecuteAddon`. The addon call is reached only if the notification call returned. A reply the program cannot read makes `alert` raise, and so do configured credentials (see "## Findings" and "## Left out").

The configuration comes from an INI file. It is loaded once by `read_config`, which either accepts every value or rejects the file.

The model has five modules:

- `Wrappers` (`wrappers.dfy`): the `Option` datatype, standing for Python's `None`-or-value.
- `Validators` (`validators.dfy`): `is_hostname` and `is_int`. It includes `str.split` and `str.join` on one separator character, and `int()` and `str()` on decimal integers.
- `Settings` (`settings.dfy`): `read_config`. This is a method that takes the already-parsed INI file and checks the options in the source's order, with its early returns. It yields a `Config` record or `None`, never part of one.
- `Notifier` (`notifier.dfy`): the request object `kodi_request` posts, and `alert` as a function from host reachability, endpoint, addon id, title and text to the sequence of requests it plans. `AlertAsWritten` adds the host's replies and the credentials, and shows where the program raises part-way. `AlertGuarded` is the corrected version.
- `Listener` (`listener.dfy`): the receive loop. The class `Receiver` holds the stored `timestamp`. Its method `Tick` is one iteration of `while True`. `Listen` runs the loop over a finite sequence of polls. The functions `Respond`, `Step` and `Replay` give the loop's behaviour as values. `Firings` is a separate, stateless definition: the positions whose timestamp differs from the previous poll's and whose code matches. The lemmas tie the two together.

What the model takes as inputs:

- the receiver's `rx_code_timestamp` and `rx_code` at each poll: a sequence of `Reading`s, both fields `None` until the first decode;
- the result of `host_is_up`: a boolean;
- the configuration file: `Missing`, `Unparsable`, or its `(section, option) -> value` map.

Running the local command and calling `alert` are recorded as `Dispatch` values (`RunLocal`, `CallAlert`), in the order the loop performs them.

The loop stores only the timestamp (kodi_alert_433.py:208). It reads the current reading's code (kodi_alert_433.py:209, 211) only on a poll whose timestamp differs from the stored one (kodi_alert_433.py:207), and compares that code with the alert code; the code is never stored.

The two meanings of "alert" are kept apart. `Listener.CallAlert` is the loop's call of `alert`. `Notifier.Alert` is the list of requests that call plans. `Listener.FiringPostsAlertPlan` connects them.

## Model

| member | source | states |
|---|---|---|
| `Validators.Split` | kodi_alert_433.py:32 | `h.split('.')` gives at least one piece, and no piece contains the separator |
| `Validators.JoinSplit` | kodi_alert_433.py:32 | joining the pieces of a split with the separator gives back the string |
| `Validators.SplitJoin` | kodi_alert_433.py:32 | splitting the join of separator-free pieces gives back the same pieces |
| `Validators.SplitCount` | kodi_alert_433.py:32 | a split yields exactly one piece more than the string has separators |
| `Validators.IsHostname` | kodi_alert_433.py:30-36 | `is_hostname(h)` holds exactly when `h` contains at least two dots; empty labels are allowed |
| `Validators.HostnameExamples` | kodi_alert_433.py:30-36 | `"a.."` and `"a.b.c"` are accepted; `"a.b"` and `""` are rejected |
| `Validators.ParseInt` | kodi_alert_433.py:39-45 | `int(n)` yields a value exactly when `is_int(n)` holds (optional sign, then one or more digits) |
| `Validators.IsInt` | kodi_alert_433.py:39-45 | `is_int(n)` holds exactly when `n` is an optional sign followed by one or more digits |
| `Validators.ParseFormat` | kodi_alert_433.py:39-45 | `int(str(n)) == n` for every integer `n` |
| `Validators.IntExamples` | kodi_alert_433.py:39-45 | `"+42"` reads as 42, `"-17"` as -17 and `"007"` as 7; `""`, `"-"` and `"80a"` are not integers |
| `Settings.ReadConfig` | kodi_alert_433.py:65-116 | succeeds exactly when the file exists, parses, holds all nine options, the hostname passes `is_hostname`, and the port, pin and code pass `is_int`; a missing option means failure; on success every field is the file's value, the pin and code as `int()` values and the port as raw text |
| `Settings.LoadRoundTrip` | kodi_alert_433.py:82-108 | a valid configuration, written out with `str()` for its integers, is accepted and loads back to itself |
| `Notifier.Endpoint` | kodi_alert_433.py:120 | the URL is `http://`, then the host, a colon, the port and `/jsonrpc`, and nothing else |
| `Notifier.KodiRequest` | kodi_alert_433.py:119-122 | the request is posted to the host's endpoint. It is a well-formed JSON-RPC 2.0 request object with the given method and params and `id` 1 |
| `Notifier.Alert` | kodi_alert_433.py:148-158 | an unreachable host gets no request. A reachable host gets two requests when both texts are non-empty and one otherwise. The last is `Addons.ExecuteAddon` with `addonid`; the first of two is `GUI.ShowNotification` with title, message and `displaytime` 2000. Every request is well-formed, has `id` 1 and goes to the host's endpoint |
| `Notifier.AlertCounts` | kodi_alert_433.py:148-158 | exactly one addon call when the host is reachable, none otherwise; exactly one notification when the host is reachable and both texts are non-empty |
| `Notifier.PostAsWritten` | kodi_alert_433.py:124-134 | with both credentials set, a call raises and posts nothing. Otherwise it posts exactly the one request, and raises exactly when the reply is not JSON or has no `result`. After a raise nothing more happens |
| `Notifier.AlertAsWritten` | kodi_alert_433.py:148-158 | an unreachable host gets nothing and nothing raises. For a reachable host, what is posted is a prefix of the `Alert` plan: none of it with credentials, only the notification when the notification is due and its reply is unreadable, and all of it otherwise. `alert` raises exactly when credentials are set, the due notification's reply is unreadable, or the addon call's reply is unreadable |
| `Notifier.AsWrittenFollowsPlan` | kodi_alert_433.py:124-158 | with no credentials and readable replies, `alert` posts the whole `Alert` plan and returns |
| `Notifier.UnreadableReplyCancelsAddon` | kodi_alert_433.py:133-134 | when the notification's reply is not JSON or has no `result`, `alert` raises after posting only the notification, and no addon call is posted |
| `Notifier.WholePlanThenRaise` | kodi_alert_433.py:133-158 | with a readable notification reply and an unreadable addon reply, `alert` posts the whole plan and then raises |
| `Notifier.CredentialsPostNothing` | kodi_alert_433.py:124-126 | with both a username and a password, `alert` raises before posting anything to a reachable host |
| `Notifier.PostGuarded` | kodi_alert_433.py:127-131 | with every failure of the call caught, a call posts what the as-written call posts without credentials and never raises, whatever the reply |
| `Notifier.AlertGuarded` | kodi_alert_433.py:128-158 | with every failure of a call caught, `alert` posts the whole `Alert` plan and returns, whatever the host answers |
| `Notifier.GuardedAlertPostsAddon` | kodi_alert_433.py:158 | with every failure of a call caught, a reachable host gets exactly one addon call, whatever it answers |
| `Listener.AlertActions` | kodi_alert_433.py:213-219 | a matching reading sets off the local command, only when it is non-empty, and then the alert |
| `Listener.Next` | kodi_alert_433.py:207-208 | after any poll the stored timestamp equals the reading's timestamp |
| `Listener.Respond` | kodi_alert_433.py:207-219 | an unchanged timestamp or a non-matching code dispatches nothing; a new timestamp with the matching code dispatches the full round |
| `Listener.Step` | kodi_alert_433.py:207-219 | one poll sets the stored timestamp to the reading's. It only appends dispatches, and appends some exactly when the reading fires |
| `Listener.Replay` | kodi_alert_433.py:200-221 | the loop from `timestamp = None` ends on the last poll's timestamp and dispatches at most two actions per poll |
| `Listener.FiringPostsAlertPlan` | kodi_alert_433.py:219 | the requests of a firing poll are those `Notifier.Alert` plans for the configured title and text. With the host reachable, that is exactly one addon call |
| `Listener.Receiver.constructor` | kodi_alert_433.py:200 | the loop starts with no stored timestamp |
| `Listener.Receiver.Tick` | kodi_alert_433.py:207-219 | the stored timestamp becomes the reading's. An unchanged timestamp dispatches nothing. On a new timestamp there is a dispatch if and only if the code matches, and the dispatch is what `Respond` gives |
| `Listener.Listen` | kodi_alert_433.py:200-221 | from `timestamp = None`, the loop dispatches one round (command, then alert) per firing position and nothing else; the number of alerts equals the number of firing positions |
| `Listener.ReplayFirings` | kodi_alert_433.py:200-221 | after any sequence of polls, the stored timestamp is the last poll's. The dispatches are one round per position whose timestamp differs from the previous poll's (or from `None` at the start) and whose code matches |
| `Listener.AlertsMatchFirings` | kodi_alert_433.py:200-221 | the number of `alert` calls equals the number of firing positions |
| `Listener.RepeatedReadingIsQuiet` | kodi_alert_433.py:207 | polling the same reading a second time dispatches nothing more |
| `Listener.NoMatchNoDispatch` | kodi_alert_433.py:211 | when no reading carries the alert code, nothing is dispatched, whatever the timestamps |
| `Listener.AlertCodeScenario` | kodi_alert_433.py:200-221 | with alert code 4321, the polls (T1, 4321), (T1, 4321), (T2, 9999) give one command run and one alert |

## Left out

- `Notifier.Alert`: gives the plan `alert` means to post. The source returns normally after posting all of it only when every reply can be read and the username and password are not both set. Set credentials raise NameError at kodi_alert_433.py:125-126, before anything is posted. An unreadable reply raises at kodi_alert_433.py:133-134: after the notification it cancels the addon call; after the addon call it raises once the whole plan has been posted (`Notifier.AlertAsWritten`, `Notifier.WholePlanThenRaise`, "## Findings").
- `Listener.Listen`: one round per firing position holds only while no call of `alert` raises. A raise reaches kodi_alert_433.py:227-229, which ends the loop after cleanup. With a username and a password configured, this happens at the first firing poll while the host is reachable.
- `Listener.ReplayFirings`: with `Listener.RepeatedReadingIsQuiet`, treats each poll as one atomic `Reading`. The source reads `rx_code_timestamp` twice (kodi_alert_433.py:207-208) and `rx_code` twice (kodi_alert_433.py:209, 211). The receiver updates these fields on its own between those reads. So a decode that lands mid-poll can pair a new timestamp with another reading's code, or store a timestamp newer than the one compared. The results about repeated readings and firing counts hold for atomic readings only.
- `Validators.IsInt`: accepts only an optional `+`/`-` followed by ASCII digits, while `int()` at kodi_alert_433.py:41 also accepts surrounding whitespace (`" 42"`), single underscores between digits (`"4_2"`) and non-ASCII decimal digits. `is_int` holds for those strings and `IsInt` does not. Through `IsInt`, `Settings.ReadConfig` rejects a file whose port, pin or code reaches `is_int` in such a form, which the program accepts. configparser strips the spaces around a value, so the forms that reach `is_int` are underscores (a port `8_080`), non-ASCII digits, and a value on an indented continuation line, which arrives with a leading newline (`"\n8080"`).
- `Validators.ParseInt`: covers only an optional `+`/`-` followed by ASCII digits. Python's `int()` also accepts surrounding whitespace, single underscores between digits and non-ASCII decimal digits. Those strings are rejected here but accepted by the program.
- `Settings.ReadConfig`: starts from configparser's result. INI syntax, option-name lower-casing, the `[DEFAULT]` section fallback and `%` interpolation errors are not modelled. A file configparser cannot parse is the single `Unparsable` case.
- `Settings.ReadConfig`: returns a record instead of assigning the module globals. On failure the source may already have assigned some globals, but the program then exits with status 1, so nothing reads them.
- `Notifier.KodiRequest`: the `Authorization` header is not modelled. The basic-auth branch uses `base64` without importing it and writes to an undefined `header`. So it raises NameError whenever a username and a password are both set, and `Notifier.AlertAsWritten` records only that raise. The `content-type` header is not modelled either.
- The HTTP transport (`requests.post`) is not modelled: it is network I/O. A reply is one of four `Notifier.Reply` cases (no reply, not JSON, no `result`, a `result`), and the boolean `kodi_request` returns is ignored, as `alert` ignores it.
- `host_is_up` is not modelled: it is a socket connection with a 3-second timeout, and is a boolean input here.
- The receiver hardware (`RFDevice`, `enable_rx`, `cleanup`) is not modelled: it is a foreign library. Its readings are the input sequence, and the guaranteed `cleanup` on exit is not modelled.
- `os.system` is not modelled: a `RunLocal` dispatch records the call, and the command's own outcome is not modelled.
- The 10 ms `time.sleep` is not modelled, nor is the loop's exit on KeyboardInterrupt, SystemExit or another exception. `Listen` runs over a finite sequence of polls instead of forever.
- `log` and the logging setup are not modelled: they are output only. The `CRITICAL` branch calls the misspelt `logging.crtitcal`, which would raise AttributeError if it were ever reached.
- The command line (argparse) and the test mode are not modelled. The test mode calls `alert` once after loading the configuration and exits. The addon id, which comes from the command line, is a parameter of `Notifier.Alert`.

## Findings

| source | as written | input that shows it | evidently intended | confidence | as-written member | corrected member |
|---|---|---|---|---|---|---|
| kodi_alert_433.py:128-134 | `response.json()` and `data['result']` sit outside the `try`, so an unreadable reply raises out of `kodi_request` and `alert` | reachable host, non-empty title and text, and a notification reply that is not JSON (an HTTP error page) or a JSON-RPC error object without `result` | a failed call returns False as the `try` does for a failed POST, and the addon call is still posted | high; not executed | `Notifier.UnreadableReplyCancelsAddon` | `Notifier.AlertGuarded` |

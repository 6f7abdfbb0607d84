# Regression tree miner client: session protocol and decision rules

This project models the Android client of the regression tree miner. The client talks to a
mining server over one object stream. Its core is:

- **The session** (`Client`, module `Session`). It holds the endpoint (`ip`, `port`), the
  `connected` flag and the socket container. Each request is a fixed exchange: write a request
  code (1 to 6), possibly write one string argument, then read one reply.
- **The endpoint check** (`SettingsDialog`, module `Settings`). `checkPort` is a range check on a
  decimal string. `checkIp` is a dotted-quad pattern, written out here as a recogniser of four
  octets. The OK button commits the endpoint to the client only when both checks pass.
- **The prediction dialog** (`PredictActivity`, module `Prediction`). One turn reads a tag. On
  `QUERY` it reads a prompt and a child count and offers the choices 0..n-1. On `OK` it reads
  and shows the prediction. The OK button sends the chosen child, then runs the next turn.
- **The table screen** (`TablesActivity`, module `Tables`). On creation it connects if needed and
  lists tables or files, with a sentinel for an empty catalogue. Its two buttons map the
  server's status reply to an error message, a screen to open, or nothing.

Supporting modules:

- `Wire` models the stream as three parts: an outgoing log, an incoming queue of values
  (`Integer`, `String`, `LinkedList<String>`) and a closed flag. It also gives Java's `toString`
  of those values.
- `Decimal` models `Integer.toString` and `Integer.parseInt` on ASCII digits.

A read fails when this side closed the socket or the server closed its side, so that the
incoming queue is used up. The failure gives Java's `null`, shown as `None`. A write on a closed
socket is swallowed, as the write task catches its `IOException`. The screens do not check a
reply for `null` before using it, so a failed read ends a screen's step with an exception
(`Crashed`, `Crash`, `Thrown`).

The client's state is shared. All screens talk through the client's single instance
(`Session.Statics`). The settings dialog's `ENABLED` flag (`Settings.SettingsStatics`) and the
table screen's source `ID` (`Tables.TablesStatics`) are static fields. They keep their values
from one dialog or screen to the next.

The code validates little, and the model keeps it that way:

- `Client.connect` does not check the endpoint. Only the caller in `MainActivity.java:147`
  consults `ENABLED` before opening the table screen.
- A failed read or write never clears `connected` and never closes the socket. The tasks log
  the exception and return `null`.
- A status reply the table screen does not recognise causes no action, not an error message
  (`Tables.Reaction.NoAction`).
- The prediction turn does not treat an unknown tag as a protocol error. It consumes the tag and
  changes nothing else (`Prediction.Turn.Ignored`).
- `Client` does not range-check the child index the prediction screen sends.

## Model

| member | source | states |
|---|---|---|
| Session.Client.constructor | app/src/main/java/com/fralav/rtminer/client/Client.java:26-47 | a new client has no container, no ip, port 0 and is not connected |
| Session.Statics.constructor | app/src/main/java/com/fralav/rtminer/client/Client.java:31 | the single instance is created once, in its initial state |
| Session.Statics.GetInstance | app/src/main/java/com/fralav/rtminer/client/Client.java:135-137 | every call returns the one instance; the settings dialog and both screens take their client from it, as their constructors state |
| Session.Client.SetIp | app/src/main/java/com/fralav/rtminer/client/Client.java:143-152 | after `setIp(x)`, `getIp()` returns `x`; nothing else changes |
| Session.Client.SetPort | app/src/main/java/com/fralav/rtminer/client/Client.java:159-169 | after `setPort(p)`, `getPort()` returns `p`; nothing else changes |
| Session.Client.Connect | app/src/main/java/com/fralav/rtminer/client/Client.java:185-197 | `connected` becomes true exactly when a container is obtained; a `null` container leaves it unchanged; a failed wait sets it false and keeps the old container; from the disconnected state, `connected` implies a container afterwards |
| Session.Client.Disconnect | app/src/main/java/com/fralav/rtminer/client/Client.java:204-217 | when connected, the socket is closed and `connected` becomes false; otherwise nothing changes, so a second call is a no-op |
| Session.Client.WriteObjectToSocket | app/src/main/java/com/fralav/rtminer/client/Client.java:317-319 | exactly the given object is appended; `connected`, ip and port are untouched |
| Session.Client.ReadObjectFromSocket | app/src/main/java/com/fralav/rtminer/client/Client.java:304-310 | exactly one incoming value is consumed, and its string form is returned; a failed read returns `null` |
| Session.Client.GetTables | app/src/main/java/com/fralav/rtminer/client/Client.java:423-441 | the listing task writes its code and reads one list; on a closed socket nothing is consumed and the result is `null` |
| Session.Client.GetTablesFromDb | app/src/main/java/com/fralav/rtminer/client/Client.java:223-230 | appends exactly code 1, consumes one value and returns it as the list |
| Session.Client.GetFilesFromArchive | app/src/main/java/com/fralav/rtminer/client/Client.java:236-243 | appends exactly code 2, consumes one value and returns it as the list |
| Session.Client.LearnTreeFromDb | app/src/main/java/com/fralav/rtminer/client/Client.java:251-260 | appends 3 then the table name, in that order, and returns the next single incoming value as a string |
| Session.Client.GetTreeFromFile | app/src/main/java/com/fralav/rtminer/client/Client.java:268-277 | appends 4 then the file name, and returns exactly one consumed reply |
| Session.Client.PrintTree | app/src/main/java/com/fralav/rtminer/client/Client.java:283-291 | appends only 5 and consumes exactly one reply |
| Session.Client.StartPredictionMode | app/src/main/java/com/fralav/rtminer/client/Client.java:296-298 | appends only 6 and consumes nothing |
| Session.ListingAccounting | app/src/main/java/com/fralav/rtminer/client/Client.java:430-435 | on an open socket a listing exchange appends exactly its code, consumes exactly one value when there is one, and returns the list that value carries, if it is a list |
| Wire.ExchangeAccounting | app/src/main/java/com/fralav/rtminer/client/Client.java:453-456 | on an open socket with a pending reply, an exchange appends the request in order and consumes and returns exactly the first pending value |
| Wire.ClosedExchange | app/src/main/java/com/fralav/rtminer/client/Client.java:479-486 | on a closed socket writes are swallowed, nothing is consumed, and the reply is `null` |
| Wire.IntReplyRoundTrip | app/src/main/java/com/fralav/rtminer/PredictActivity.java:117 | an `Integer` reply read as a string parses back to the same number |
| Decimal.NatToString | app/src/main/java/com/fralav/rtminer/PredictActivity.java:51 | `Integer.toString` of a non-negative number is canonical decimal text denoting that number |
| Decimal.CanonicalRoundTrip | app/src/main/java/com/fralav/rtminer/SettingsDialog.java:125 | canonical decimal text is the `toString` of its own value |
| Decimal.ParseIntOfToString | app/src/main/java/com/fralav/rtminer/PredictActivity.java:51 | `parseInt(toString(i)) == i` for every `int` |
| Decimal.ParseIntOfDigits | app/src/main/java/com/fralav/rtminer/SettingsDialog.java:115 | a digit string whose value fits an `int` parses to that value |
| Settings.SplitDots | app/src/main/java/com/fralav/rtminer/SettingsDialog.java:125 | splitting at the literal dots gives at least one field |
| Settings.SplitDotsJoin | app/src/main/java/com/fralav/rtminer/SettingsDialog.java:125 | the fields rejoined with dots give the text back, and no field has a dot |
| Settings.SplitJoinDots | app/src/main/java/com/fralav/rtminer/SettingsDialog.java:125 | dot-free fields joined with dots split back into the same fields |
| Settings.SplitDotted | app/src/main/java/com/fralav/rtminer/SettingsDialog.java:125 | the dotted form of four numbers splits into their four decimal forms |
| Settings.OctetIsByte | app/src/main/java/com/fralav/rtminer/SettingsDialog.java:125 | every octet the five-way alternation accepts is the decimal form of a value in 0..255 with no leading zero |
| Settings.ByteIsOctet | app/src/main/java/com/fralav/rtminer/SettingsDialog.java:125 | the decimal form of every value in 0..255 is accepted as an octet |
| Settings.OctetIff | app/src/main/java/com/fralav/rtminer/SettingsDialog.java:125 | an octet is exactly the decimal form of a value in 0..255 |
| Settings.CheckIpIff | app/src/main/java/com/fralav/rtminer/SettingsDialog.java:124-127 | `checkIp` accepts exactly the texts `a.b.c.d` with four decimal forms of values in 0..255 |
| Settings.CheckIpAcceptsBoundaries | app/src/main/java/com/fralav/rtminer/SettingsDialog.java:125 | `0.0.0.0` and `255.255.255.255` pass |
| Settings.CheckIpRejectsBoundaries | app/src/main/java/com/fralav/rtminer/SettingsDialog.java:125 | `256.0.0.1` and `1.2.3` fail |
| Settings.CheckPortOfNumber | app/src/main/java/com/fralav/rtminer/SettingsDialog.java:110-118 | for the decimal text of an `int`, `checkPort` holds exactly when the value lies in [1024, 65535] |
| Settings.CheckPortBoundaries | app/src/main/java/com/fralav/rtminer/SettingsDialog.java:111-116 | empty text fails; 1024 and 65535 pass; 1023 and 65536 fail |
| Settings.CheckPortLeadingZero | app/src/main/java/com/fralav/rtminer/SettingsDialog.java:115-116 | text with leading zeros is checked by its parsed value: `01024` passes and `065536` fails |
| Settings.Judge | app/src/main/java/com/fralav/rtminer/SettingsDialog.java:67-76 | the three failure branches are mutually exclusive and cover every case where a check fails; the commit branch is taken exactly when both pass |
| Settings.SettingsStatics.constructor | app/src/main/java/com/fralav/rtminer/SettingsDialog.java:46 | `ENABLED` is false when the app starts |
| Settings.SettingsDialog.constructor | app/src/main/java/com/fralav/rtminer/SettingsDialog.java:77-79 | a new dialog talks to the client's single instance and leaves the static `ENABLED` as it was |
| Settings.SettingsDialog.OnPositive | app/src/main/java/com/fralav/rtminer/SettingsDialog.java:66-82 | the static `ENABLED` becomes true, and the client's ip and port are set to the entered values, exactly when both checks pass; otherwise `ENABLED` is false and ip and port are unchanged |
| Prediction.TurnSpec | app/src/main/java/com/fralav/rtminer/PredictActivity.java:111-136 | a turn writes nothing; it consumes one tag first; on `QUERY` it consumes exactly two more values and offers the choices 0..n-1 for the parsed count n; on `OK` it consumes exactly one more; any other tag consumes nothing beyond the tag |
| Prediction.TurnOutcomes | app/src/main/java/com/fralav/rtminer/PredictActivity.java:113-125 | on an open socket: a question iff the tag is `QUERY` and a count that parses follows the prompt; a prediction iff the tag is `OK` and an answer follows; ignored iff another tag arrived |
| Prediction.IntegerCountGivesChoices | app/src/main/java/com/fralav/rtminer/PredictActivity.java:114-121 | a count sent as the `Integer` n offers exactly the choices 0..n-1 |
| Prediction.FillChoices | app/src/main/java/com/fralav/rtminer/PredictActivity.java:118-121 | the loop yields 0, 1, ..., n-1 in increasing order, and nothing for n <= 0 |
| Prediction.PredictActivity.constructor | app/src/main/java/com/fralav/rtminer/PredictActivity.java:43-48 | the screen talks to the client's single instance and starts with an empty prompt, an empty spinner and no prediction |
| Prediction.PredictActivity.PredictTree | app/src/main/java/com/fralav/rtminer/PredictActivity.java:111-136 | the channel and outcome are those of the turn specification; a question sets the prompt and the spinner, a prediction is shown, and any other tag leaves the screen as it was |
| Prediction.PredictActivity.OnCreate | app/src/main/java/com/fralav/rtminer/PredictActivity.java:47-48 | code 6 is sent before the first turn reads anything |
| Prediction.PredictActivity.OnOk | app/src/main/java/com/fralav/rtminer/PredictActivity.java:50-53 | the selected choice is sent as an integer, then exactly one turn runs; the value sent is the index itself, so it lies in [0, n); with an empty spinner nothing is sent |
| Tables.Dispatch | app/src/main/java/com/fralav/rtminer/TablesActivity.java:151-180 | for the database: `dataError` and `tableNotFound` give their messages and `ok` opens the screen; for files: `fileNotFound` gives its message and `ok` opens the screen; every other reply, and every other source, does nothing |
| Tables.ButtonsAgreeExceptTarget | app/src/main/java/com/fralav/rtminer/TablesActivity.java:197-226 | the predict button's dispatch is the print button's, except that `ok` opens the predict screen |
| Tables.Listing | app/src/main/java/com/fralav/rtminer/TablesActivity.java:101-116 | a list containing the sentinel gives the error message and adds nothing; any other list is added whole, in order; a `null` list throws |
| Tables.TablesStatics.constructor | app/src/main/java/com/fralav/rtminer/TablesActivity.java:31 | the static `ID` is 0 when the app starts |
| Tables.TablesActivity.constructor | app/src/main/java/com/fralav/rtminer/TablesActivity.java:89-102 | a new screen talks to the client's single instance, leaves the static `ID` as it was, and starts with an empty spinner |
| Tables.TablesActivity.OnCreate | app/src/main/java/com/fralav/rtminer/TablesActivity.java:57-119 | the static `ID` is taken from the bundle when there is one and kept otherwise; connect is attempted only when not connected; a listing is requested only if connected afterwards and the source is known; otherwise the server is reported unreachable, and the container is exactly what the connect step left |
| Tables.TablesActivity.OnButton | app/src/main/java/com/fralav/rtminer/TablesActivity.java:144-229 | with the network absent nothing is sent; otherwise the selected name is sent with code 3 (database) or 4 (file), and the status reply goes through the dispatch |

## Left out

- Threading and timing: the `AsyncTask` threads, the `synchronized (lock)` blocks, the detached
  thread of `disconnect` and the 5-second timeout of `connect`. Exchanges are sequential, write
  tasks run in submission order, and the disconnect thread runs at once. How `connect` ends is a
  parameter (`Session.ConnectAttempt`).
- Sockets and Java serialization: the streams are sequences of values. Socket creation and a
  failing `close()` are not modelled.
- `Log.e` calls.
- Requests on a client that never obtained a container throw `NullPointerException` in the
  source. The request methods require a container instead.
- Session.Client.ReadObjectFromSocket: the public read wrappers call `toString()` on the task's
  `null` and so throw rather than return `null`. The model returns `None`, and the modelled
  screens turn it into an exception outcome. The exception really happens inside the wrapper,
  which matters only to callers that do not dereference the result, such as
  `PrintActivity.java:38-39`.
- Reads block: on an open socket with nothing to read, Java's `readObject` waits, and the
  wrappers wait with it, since their `get()` has no timeout. The model has no waiting. An empty
  incoming queue means the server has closed its side.
- Settings.SettingsDialog.OnPositive: the port text is restricted to ASCII digit strings whose
  value fits an `int`, so the `NumberFormatException` of `Integer.parseInt` on other text is not
  modelled. Signs and non-ASCII digits are outside `PortText`; leading zeros are inside it and
  parse as Java parses them (`01024` gives 1024).
- Settings.CheckPortOfNumber: it characterises `checkPort` only on canonical decimal text, that
  is, text without leading zeros.
- Decimal.ParseIntOfDigits: only ASCII digits are recognised; `parseInt` also accepts other
  Unicode digits.
- Prediction.PredictActivity.PredictTree: when a turn ends in an exception after the prompt was
  read, the prompt view keeps that prompt. The contract leaves the prompt unspecified for
  that outcome.
- Widgets: adapters, spinners, text views, toasts and dialogs appear only as the values they
  would hold. Examples are the choice list, the spinner's items, the prediction text and the
  outcome kind.
- The settings dialog's prefill of the fields from the client (`SettingsDialog.java:92-101`)
  and the dark-mode switch.
- The table screen's network-absent toast during creation (`TablesActivity.java:91-94`), which
  navigates away while creation goes on, and its titles and theme.
- Back-button handling of the prediction screen, which disconnects and reconnects.
- `MainActivity.java`, `PrintActivity.java`, `ConnectionUtils.java`, `ThemeUtils.java` and
  `DetailsDialog.java` are not part of this model. They are navigation and UI code.

# EnvioEmails: resumable bulk mail dispatch, modelled in Dafny

The repository sends one personalised HTML message to every row of a
spreadsheet. It sends over an SMTP session and remembers its progress in a
one-integer counter file, so a later run resumes where the last one stopped.
This project models the logic that sits between the I/O adapters:

- **Bulk sender** (`run_sender`, sender.py).
  - It reads the checkpoint and returns early when nothing is left.
  - It connects once and walks the rows in ascending order from the checkpoint.
  - It rotates the session every 4900 sends.
  - It writes `index + 1` after every successful send.
  - It stops at the first failure and always disconnects at the end.
  - The preparation before the loop is modelled too: configuration, SMTP settings and the sender's construction.
- **`EmailSender`** (email_sender.py). A two-state connection, either `server` set or `None`. Its `send_email` reconnects once and resends once when the relay drops the session.
- **`ConfigManager`** (config_manager.py): the counter store, `load_config`'s missing-file error and the key set of `get_smtp_settings`.
- **Configurator window** (gui_configurador.py): saving the form (`actualizar_config`) and the one-row test send (`enviar_siguiente_prueba`).
- **Command-line configurator** (console_configurador.py): merging the flags into the configuration document, then the counter reset.
- **Read-only API** (api.py): the lenient counter reader, the campaign history and the total-sent response.

The outside world is an oracle.

- The network is `Env.Net`:
  - the k-th connection attempt succeeds iff `connectOk(k)`;
  - the k-th `sendmail` gets `reply(k)`, which is `Accepted`, `ServerDisconnected` or `Refused`.
- The counter file is `Option<string>`.
- The spreadsheet is a sequence of `Sheet.Recipient(email, names)`.
- The environment is a function from variable names to `Option<string>`.
- `json.load` is a `decode` parameter.
- Each operation returns the events it produced, in order:
  - connects, quits and delivery attempts;
  - progress lines and session-limit lines;
  - checkpoint writes and pauses.

  The properties are stated over these traces and over the final counter file.

Modules: `Base` (Option, Result, ranges), `PyStr` (`strip`, `replace`, `split`, `join`, `count`), `PyInt` (`int()` and `str()`), `Env` (oracle, events, projections), `Counter`, `Config`, `Api`, `Transport`, `Message`, `Sheet`, `Dispatch` (the loop), `Run` (`run_sender` from the checkpoint read), `Setup` (`run_sender` before it), `Gui`, `Console`.

### Behaviours worth knowing

- **No address validator.** The code never checks or skips a recipient's address.
- **The loop stops at the first failed send.** It does not mark the recipient abandoned and continue. The failed row is announced but not checkpointed, so the next run retries exactly that row (`Dispatch.SendFrom`, `Run.RunSender`).
- **The checkpoint is written only after a successful send.** It is never advanced past a failure.
- **`read_counter` raises on a non-integer or blank counter file.** Only api.py's reader falls back to 0.
- **The stored checkpoint may be negative.** It follows Python's slice rules:
  - `df.iloc[-2:]` visits the last two rows (`Sheet.SliceStart`);
  - the test send's `df.iloc[-1]` addresses the last row (`Sheet.RowPosition`).

  After a run the counter holds the position after the last row sent.
- **A negative delay ends the run after its first row.** `time.sleep` raises `ValueError` on a negative length. That happens after the row was sent and checkpointed; `finally` disconnects and the exception escapes (`Dispatch.Exit.SleepRaised`). console_configurador.py stores `--delay -1`, because -1 is truthy.
- **Where the loop stops is decided by the relay's answers alone.** `Dispatch.Walk` reads them without sending anything, and the loop provably stops at the same row for the same reason.
- **The preparation in `run_sender` reads the sender address under the wrong key** (see Findings). The loop is modelled from a constructed sender, and the corrected preparation feeds it.

## Model

| member | source | states |
|---|---|---|
| Counter.ReadCounter | config_manager.py:31-35 | A missing file reads 0. Otherwise the read succeeds exactly when the stripped content is an optional sign plus digits, and then yields that integer. Anything else is a `ValueError` carrying the content. |
| Counter.SaveCounter | config_manager.py:37-40 | After `save_counter(v)` the file exists and reads back as `v` (str/int round trip). |
| Counter.ResetCounter | config_manager.py:42-43 | The reset is exactly `save_counter(0)`, so the next read yields 0. |
| Counter.SaveOverwrites | config_manager.py:37-40 | A second save replaces the first, and the read reflects only the most recent write. |
| Counter.BlankCounterRaises | config_manager.py:34 | Empty or whitespace-only content makes `read_counter` raise instead of reading 0. |
| Counter.SaveEach | config_manager.py:37-40 | After a series of saves the file is untouched when there were none, and otherwise reads the last value written. |
| Config.LoadConfig | config_manager.py:12-16 | A missing file is `FileNotFoundError` naming the path. The load succeeds exactly when the file exists and decodes, and then returns the decoded document. |
| Config.GetSmtpSettings | config_manager.py:22-29 | Exactly the keys `smtp_host`, `smtp_port`, `smtp_user`, `smtp_password` and `email_from`, each holding its environment variable. `email_from` holds `SMTP_FROM`. |
| Config.DelayOf | sender.py:50 | The stored delay when the key is present, else 1 second. |
| Api.ReadTotalSent | api.py:15-22 | 0 for a missing file, blank content or a non-integer. Otherwise the integer the stripped content spells. |
| Api.LenientAgreesWithStrict | api.py:15-22 | Where `read_counter` succeeds both readers agree. Where it raises, the API reads 0. |
| Api.NegativePassesThrough | api.py:19-20 | No clamping: content `-5` is reported as -5. |
| Api.TotalSentResponse | api.py:40-46 | The response has the single key `total_emails_sent`. It holds the counter's value where `read_counter` succeeds, and 0 for a missing file, blank content or a non-integer. |
| Api.CampaignsHistory | api.py:24-30 | The empty list for a missing or undecodable file, else the decoded list. |
| Transport.NewSender | email_sender.py:7-13 | Construction succeeds exactly when the port parses as an integer; otherwise it raises `ValueError` with the port text. A new sender holds no session. |
| Transport.Connect | email_sender.py:15-27 | One connection attempt. It returns true exactly when the session is up. A failure leaves `server` as `None`. |
| Transport.Disconnect | email_sender.py:29-38 | Always ends disconnected and never raises. One `quit` on a live session; nothing at all when already disconnected. |
| Transport.DisconnectIdempotent | email_sender.py:29-38 | A second disconnect is a no-op. |
| Transport.SendEmail | email_sender.py:40-71 | Without a session it returns false with no delivery attempt. A success leaves the connection state unchanged. The sender address and the counter file are never altered. |
| Transport.SendEmailEvents | email_sender.py:47-62 | A send only connects and delivers. Every delivery attempt, the retry included, uses `email_from`, the recipient, the subject and the body given. |
| Transport.SendEmailResult | email_sender.py:53-68 | `send_email` returns true iff one of its delivery attempts was accepted. It ends connected iff it started connected and no reconnect failed. |
| Transport.SendEmailRetryBound | email_sender.py:57-68 | At most two delivery attempts. Two only after a successful reconnect. |
| Transport.SendEmailReconnects | email_sender.py:57-71 | Exactly one reconnect when the relay dropped the session, and none otherwise (so any other error fails without reconnecting). No quit, no rotation, no progress line or checkpoint write. |
| Transport.DroppedAndUnreachable | email_sender.py:57-68 | A dropped session that cannot be reopened fails the send after one attempt and leaves `server` as `None`. |
| Transport.DroppedAndReopened | email_sender.py:57-63 | A dropped session that reopens makes exactly one resend, whose answer is the result. |
| Transport.Attempts | email_sender.py:53-68 | The delivery attempts one send makes on a live session, read off the relay alone: one or two; the first gets the relay's next answer; a second exists exactly when that answer is a drop and the reconnect works, and gets the answer after it; the send delivers exactly when the last attempt was accepted. |
| Transport.SendEmailAttempts | email_sender.py:40-71 | On a live session `send_email` makes exactly the attempts `Transport.Attempts` reads off the relay, uses up one reply per attempt and one connect per drop, and returns true exactly when those answers deliver. |
| Transport.AttemptsAccepts | email_sender.py:53-68 | One send holds one accepted attempt when it delivers and none otherwise. |
| Transport.AttemptsTaken | email_sender.py:53-68 | One send hands the message over exactly once when it delivers and never otherwise, and its attempts got the relay's answers in order. |
| Message.DisplayName | sender.py:96 | The row's name, or `Amigo(a)` when the sheet has no names. |
| Message.Personalize | sender.py:95-97 | The body is the template split at each `{{names}}` and joined with the display name, and the template itself when the token does not occur. |
| Message.PersonalizeSpec | sender.py:95-97 | The body is the template split at each `{{names}}` and joined with the name. A template without the token is sent unchanged. The length changes by the name's length minus nine per token. |
| Message.PersonalizedIffToken | sender.py:97 | When the name's length differs from the token's, the body equals the template iff the template has no token. |
| Message.GreetingExample | sender.py:97 | `Hola {{names}}!` becomes `Hola <name>!`. |
| PyStr.Strip | config_manager.py:34 | The result is no longer than its input. |
| PyStr.StripSpec | config_manager.py:34 | `strip()` removes whitespace only, and all of it at both ends. |
| PyStr.StripIdempotent | config_manager.py:34 | Stripping twice is stripping once. |
| PyStr.StripAround | api.py:19 | Whitespace around a trimmed text is exactly what `strip()` removes. |
| PyStr.ReplaceIsSplitJoin | sender.py:97 | `replace` agrees with the independent definition `sep.join(s.split(pat))`. |
| PyStr.SplitJoinRoundTrip | sender.py:97 | Splitting and rejoining with the same separator gives the text back. |
| PyStr.ReplaceBySelf | sender.py:97 | Replacing a pattern by itself changes nothing. |
| PyStr.ReplaceAbsent | sender.py:97 | Without a match, `replace` returns its input. |
| PyStr.ReplaceLength | sender.py:97 | Each non-overlapping match trades the pattern's length for the replacement's. |
| PyStr.CountZeroIffAbsent | sender.py:97 | The scan finds no match iff the pattern does not occur. |
| PyStr.ReplaceChangesIffOccurs | sender.py:97 | When the lengths differ, `replace` changes the text iff the pattern occurs. |
| PyStr.Split | sender.py:97 | `split` returns one more piece than there are matches. |
| PyStr.Replace | sender.py:97 | A replacement as long as the pattern keeps the text's length; a longer one never shortens it and a shorter one never lengthens it. |
| PyInt.ParseInt | config_manager.py:34 | `int()` on stripped text succeeds exactly on an optional sign followed by digits. Digits alone give a non-negative value; a minus sign gives a non-positive one. |
| PyInt.Int | config_manager.py:34 | `int()` succeeds exactly when the stripped text is an integer literal. |
| PyInt.Show | config_manager.py:40 | `str(v)` is an integer literal with a minus sign iff `v` is negative, and never a plus sign. |
| PyInt.ShowNatValue | config_manager.py:40 | The digits `str` writes spell the number back. |
| PyInt.IntShow | config_manager.py:40 | `int(str(v)) == v` for every integer. |
| PyInt.ParseShow | config_manager.py:40 | Parsing already-stripped text reads `str(v)` back as `v`. |
| PyInt.IntPaddedExample | config_manager.py:34 | ` 007\n` reads as 7. |
| PyInt.IntPlusExample | config_manager.py:34 | `+12` reads as 12. |
| PyInt.IntMinusExample | config_manager.py:34 | `-3` reads as -3. |
| PyInt.IntRejectedExample | config_manager.py:34 | Empty text and `1.5` are rejected. |
| Sheet.SliceStart | sender.py:84 | `df.iloc[start:]` begins at the first position Python's slice rule admits. A start inside the sheet is kept; a negative start counts from the end. |
| Sheet.RowPosition | gui_configurador.py:96 | `df.iloc[k]` addresses position `k`, or `k + n` for a negative `k`. It raises exactly when `k` is outside `-n .. n-1`. |
| Sheet.SliceAgreesWithRow | sender.py:84 | A slice start inside the sheet is the row the same index addresses directly. |
| Base.RangeIncreasing | sender.py:84 | A range of positions is strictly increasing, so no row is visited twice and checkpoint writes only grow. |
| Dispatch.Rotate | sender.py:86-93 | Below the limit nothing happens. At the limit: a limit line, a disconnect, a 5-second pause and a reconnect. A successful reconnect resets the window to 0; a failed one keeps it and leaves no session. |
| Dispatch.RotationEvents | sender.py:86-93 | A rotation happens exactly when the window is full. It makes one quit and one connect, and no progress line, checkpoint write or delivery. |
| Dispatch.Walk | sender.py:84-109 | Reference read off the relay's answers: the loop ends between its first row and the row count; only running out of rows ends at the row count; a failure stops at a row of the sheet; a raising pause needs a negative delay and follows exactly one row. |
| Dispatch.HealthyWalk | sender.py:84-109 | On a relay that always connects and accepts, the walk runs out of rows, or stops one row in when the delay is negative. |
| Dispatch.HealthyEnd | sender.py:84-109 | On a healthy relay a loop over at least one row ends by running out of rows, or by the raising pause when the delay is negative. |
| Dispatch.RefusalStops | sender.py:101-107 | A refused first delivery stops the loop at its first row with a failed send. |
| Dispatch.AcceptanceAdvances | sender.py:101-104 | An accepted first delivery gets the loop past its first row. |
| Dispatch.WalkOn | sender.py:86-109 | A sent row with a non-negative delay leaves the rest of the walk unchanged: the pass uses exactly the relay answers the walk reads. |
| Dispatch.WalkStop | sender.py:86-109 | A failed pass is where the walk stops, as a failed send or a failed reconnect. A sent row with a negative delay stops it one row later with the raising pause. |
| Dispatch.VisitRow | sender.py:94-109 | The pass at row `i` uses the row's address and personalised body, and keeps every promise of `Visit`. |
| Dispatch.Break | sender.py:86-107 | A failed pass ends the loop at its row with the rows before it sent, and with everything the loop promises at its end. |
| Dispatch.Raise | sender.py:101-109 | A negative delay ends the loop right after the row was sent and checkpointed, with everything the loop promises at its end. |
| Dispatch.Turn | sender.py:84-109 | One turn either ends the loop, keeping every promise the loop makes at its end (deliveries included), or moves the loop state to the next row with the deliveries so far a prefix of `Dispatch.Trail` and the mail cursor advanced by them. |
| Dispatch.Done | sender.py:84 | Running out of rows ends the loop at the row count with everything the loop promises at its end: the deliveries are the whole reference trail. |
| Dispatch.Go | sender.py:84-109 | One turn at a row, then the rest of the loop unless the turn ended it; the end keeps every promise the loop makes. |
| Dispatch.Loop | sender.py:84-109 | The loop over the rows from `first` stops at the halt the walk names and delivers exactly the attempts `Dispatch.Trail` reads off the relay, with its rows, trace and sessions as stated for `SendFrom`. |
| Dispatch.TrailStep | sender.py:94-109 | A row delivered with a non-negative delay contributes its attempts and then the rest of the reference trail from the next row, with the window and cursors as the send leaves them. |
| Dispatch.WalkStep | sender.py:94-109 | The same step for the walk: a delivered row with a non-negative delay leaves the walk's halt to the next row. |
| Dispatch.TrailEnd | sender.py:94-109 | At a row that fails or whose pause raises, the reference trail is that row's attempts only, and the walk halts at the row, or one past it when the row was delivered. |
| Dispatch.TrailSends | sender.py:84-109 | Along the reference trail the relay accepts exactly one attempt per sent row, for rows `i .. next-1` in row order with each row's message, and every attempt gets the relay's next answer. |
| Dispatch.HealthyAnswers | email_sender.py:53-56 | On a relay that accepts every `sendmail`, every attempt answered in order is accepted, so all of them hand the message over. |
| Dispatch.VisitPaced | sender.py:94-109 | A pass past the rotation makes exactly the attempts `Transport.Attempts` reads at the cursors after the rotation, advances the mail cursor by them, and is sent exactly when they deliver; a failed reconnect makes none. |
| Dispatch.TrailOn | sender.py:94-109 | A sent pass with a non-negative delay delivers the first part of the reference trail from its row, one accepted attempt among one or two, and leaves the rest of the trail to the next row. |
| Dispatch.TrailStop | sender.py:86-109 | A pass that ends the loop delivers the whole rest of the reference trail. |
| Dispatch.Visit | sender.py:84-109 | One loop pass. It fails at the rotation exactly when the window is full and the reconnect fails; then the row is not announced and nothing is delivered. Otherwise the row is sent iff `send_email` on the rotated session returns true, and a sent row leaves the session and cursors where that send left them. A send failure announces the row but writes no checkpoint. A success writes `i + 1` and leaves the window between 1 and 4900. The window also counts a send that needed the inner reconnect. Every delivery carries the row's message, and the mail cursor advances by one per delivery attempt. |
| Dispatch.SendFrom | sender.py:84-109 | The loop stops at the row, and for the reason, that `Dispatch.Walk` gives for the relay's answers. It announces rows `first ..` in ascending order and writes exactly `first+1 .. next` to the checkpoint. A failed send also announces its row; a failed reconnect does not, and delivers nothing. Every delivery goes to a tried row with that row's body. A negative delay ends it after one row. The window never exceeds 4900, and there is one rotation per 4900 sends. Its delivery attempts are exactly `Dispatch.Trail`: the `k`-th gets the relay's `k`-th answer from the starting cursor, the mail cursor advances by their number, each tried row has one or two, and the accepted ones are one per sent row, in row order, with that row's message. On a healthy network no failure happens. |
| Run.Checkpoint | sender.py:101-104 | Applying the loop's writes leaves the counter file untouched when nothing was sent, else holding `next`. Either way the next run starts at row `next`. |
| Run.RotationCount | sender.py:86-93 | The number of rotations after `sent` sends is `(sent - 1) / 4900`. |
| Run.FinishedTrace | sender.py:76-113 | A finished run's trace is the first connect, the loop's events and the final disconnect. It announces, checkpoints and delivers what the loop did, attempt for attempt. |
| Run.HealthyRun | sender.py:86-113 | With N ≥ 1 sends on a healthy network there are `1 + (N-1)/4900` connects and as many disconnects. |
| Run.Finish | sender.py:79-114 | After the first connect the loop runs from the checkpoint's row and the session is closed. It stops where `Dispatch.Walk` stops from the relay cursors after that connect. The counter is unchanged when nothing was sent, else holds the position after the last row sent. The next run resumes at the first row not sent. The deliveries are `Dispatch.Trail` from the cursors after the first connect: relay answers in order, one accepted attempt per sent row in row order, one or two attempts per tried row. On a healthy network every row is sent once, or only the first when the delay is negative. |
| Run.RunSender | sender.py:68-114 | A counter at or past the row count returns without connecting, sending or writing. A failed first connect sends and writes nothing. An unreadable counter raises. Otherwise the run stops where `Dispatch.Walk` stops: ascending rows, checkpoint `i + 1` after each accepted send only, stop at the first failure or after the first row on a negative delay, always disconnected at the end. Its delivery attempts are `Dispatch.Trail`: relay answers in order, one accepted attempt per sent row in row order, one or two per tried row. On a healthy network every row is sent exactly once, or only the first on a negative delay, with `1 + (N-1)/4900` connects for N sends and as many disconnects. |
| Run.Close | sender.py:101-114 | After the loop, the final disconnect and the loop's checkpoint writes. The run ends disconnected with the loop's exit and row. The counter is untouched when nothing was sent, else holds `next`. The run's deliveries and mail cursor are the loop's. |
| Run.RunFrom | sender.py:76-114 | From a readable counter below the row count: a failed first connect sends and writes nothing; otherwise the run finishes where the walk from the cursors after that connect stops, delivering exactly `Dispatch.Trail` from those cursors, one accepted attempt per sent row in row order. |
| Setup.MissingCampaignKey | sender.py:47-49 | None exactly when `excel_file`, `body_file` and `subject` are all present; otherwise a missing one of them. |
| Setup.CompleteIffTruthy | sender.py:35-37 | `all(smtp_settings.values())` holds iff each of the five SMTP variables is set and non-empty. |
| Setup.NoConfigStops | sender.py:27-33 | A missing `config.json` is logged and ends the run before anything else is read. |
| Setup.SetUpAsWritten | sender.py:39-45 | As written the preparation never succeeds. |
| Setup.AsWrittenNeverReady | sender.py:39-45 | With a loadable configuration and complete SMTP settings, the constructor's arguments raise `KeyError('smtp_from')`. |
| Setup.SetUpReady | sender.py:27-51 | With the corrected key, preparation succeeds exactly when the configuration loads, the five variables are set, the port parses and the campaign keys are present. The sender then sends from `SMTP_FROM` with no session. The delay is the stored one or 1. |
| Setup.SetUpWith | sender.py:27-51 | A missing configuration is `NoConfig` and an undecodable one `ConfigUnreadable`. A prepared run had the configuration load, the five variables set and the campaign keys present. It sends from the address under the given key with no session, with the stored subject and delay. |
| Setup.SetUp | sender.py:27-51 | The preparation reading `email_from`: a missing configuration stops it, and a prepared sender sends from `SMTP_FROM` with no session. |
| Setup.Render | email_sender.py:50 | A text subject is used as is. A number becomes digits that read back as that number. |
| Setup.DelaySeconds | sender.py:109 | A numeric delay reaches `time.sleep` as is, a negative one included, and then ends the loop (`Dispatch.Raise`). A boolean sleeps 0 or 1 second. |
| Setup.SenderScript | sender.py:22-114 | The corrected `run_sender` stops exactly when preparation fails. It stops on a missing template or an unusable sheet. Otherwise it runs, and every message it delivers goes out from `SMTP_FROM` to a row in the visited range. |
| Gui.InitialConfig | gui_configurador.py:21-25 | The window starts from the saved document, or from an empty one when there is none. |
| Gui.UpdateConfig | gui_configurador.py:69-74 | The three form fields overwrite their keys. `delay_segundos` becomes 1 only if absent. Every other key keeps its value, and no other key appears. |
| Gui.UpdateConfigIdempotent | gui_configurador.py:69-74 | Saving the same form twice saves what saving it once did. |
| Gui.UpdateConfigServesSender | gui_configurador.py:69-74 | A saved form holds every campaign key the bulk sender reads, and keeps the previous delay or 1. |
| Gui.SendNext | gui_configurador.py:77-119 | The form is saved first. Unreadable files or an unreadable counter stop before anything else. Once the counter reads `k`, the test send is exactly `Gui.SendAt` at `k`. Nothing but a send changes the counter file. |
| Gui.SendAt | gui_configurador.py:91-119 | With the counter at `k`: no more rows iff `k` is at or past the row count, and a missing row iff `k` is below minus the row count. A connection is attempted iff the row exists, the four settings are usable and the port parses. Then the row's message is sent iff the connect succeeds and `send_email` returns true, which is iff an accepted delivery is in the trace. A success stores `k + 1`; anything else leaves the counter file unchanged. |
| Gui.TestSendAdvances | gui_configurador.py:77-119 | The counter becomes `counter + 1` iff the files and the counter read, the row exists, the settings are usable, the port parses, the connect succeeds and `send_email` returns true. Otherwise the counter file is unchanged. |
| Gui.SendAtAdvances | gui_configurador.py:91-113 | Once the counter reads `k`, the test send succeeds iff the row exists, the settings are usable, the port parses, the connect succeeds and `send_email` returns true. |
| Gui.TestRow | gui_configurador.py:96 | The row `df.iloc[k]` addresses exists iff `k` is in `-n .. n-1`. It is `k` itself for a non-negative `k` and `k + n` otherwise. |
| Gui.TrySend | gui_configurador.py:98-119 | Nothing is attempted when a required variable is falsy or the port does not parse. Otherwise the row's personalised message is the only one delivered. The row is sent, and the counter advances, iff the connect succeeds and `send_email` returns true, which is iff an accepted delivery is in the trace. |
| Gui.Deliver | gui_configurador.py:111-119 | Connect, send once, save `next` only on success, disconnect. A connect failure is reported iff the connection attempt failed. The send succeeds iff the connect succeeds and `send_email` on the new session returns true, which is iff an accepted delivery is in the trace. |
| Gui.RequiredIffUsable | gui_configurador.py:101-105 | The settings check holds iff `smtp_host`, `smtp_port`, `smtp_user` and `smtp_password` are set and non-empty, whatever `SMTP_FROM` holds. |
| Gui.TestMatchesBulk | gui_configurador.py:96-99 | The test body for the addressed row is the body the bulk run would send it. A non-negative counter addresses its own position. |
| Gui.NegativeCheckpointExample | gui_configurador.py:91-113 | A counter of -1 addresses the last row, and a success stores 0. |
| Console.MergeFlags | console_configurador.py:30-44 | A key is in the saved document iff it was loaded or a flag gives it a value. |
| Console.MergeFlagsValues | console_configurador.py:30-44 | Each key a flag gives a value holds that value. Every other key keeps its loaded value. |
| Console.NoFlagsKeepConfig | console_configurador.py:30-44 | Without options the document is saved unchanged. |
| Console.MergeIdempotent | console_configurador.py:30-44 | Running the same command twice saves what running it once saved. |
| Console.DefaultBeatsCustom | console_configurador.py:30-35 | With both `--set-default` and `--set-custom`, the defaults switch is true. |
| Console.ZeroDelayIgnored | console_configurador.py:43-44 | `--delay 0` is falsy and keeps the stored delay. |
| Console.SaveAndReset | console_configurador.py:46-51 | The merged document is saved. The counter then reads 0 when `--reset-counter` is given and is untouched otherwise. |
| Console.ConsoleMain | console_configurador.py:24-51 | A missing file starts from an empty document; a malformed one raises. Otherwise the flags are merged into the loaded document and saved, then the counter is reset when asked. |
| Console.FirstRunServesSender | console_configurador.py:24-44 | A first run with the three text options writes a document the bulk sender can prepare from, with the default 1-second delay. |

## Left out

- Sockets, TLS, login and MIME construction are the `Net` oracle. A handshake, STARTTLS or login failure is one failed connection attempt. A failing `quit` is still recorded as a `quit`.
- Logging, `print`, the tkinter status messages and message boxes are not modelled. Progress lines appear only as trace events.
- `time.sleep` is a trace event with its number of seconds, with no timing.
- The filesystem is `Option<string>` contents. `save_config`, `json.dump` and the directory creation in `save_counter` are not modelled. A write that fails (permissions, a full disk) is not modelled.
- `json.load` is a `decode` parameter. JSON values are text, integers and booleans; floats, lists and null in the configuration are not modelled.
- pandas is a sequence of recipients in file order with the default integer index, so a row's label is its position.
  - A `NaN` name rendering as `nan` is not modelled.
  - In the test send, a sheet without an `email` column is not modelled.
- `load_dotenv` and `os.getenv` are a function from variable names to optional values.
- argparse parsing and its error exits are not modelled. The launch of `sender.py` through `subprocess` (console_configurador.py:53-62) is not modelled. Neither is the duplicated `__main__` guard (64-68), which runs `main` a second time.
- FastAPI routing and the thin `get_campaigns_history` route (api.py:32-38) are not modelled. The route returns `CampaignsHistory` as it is.
- The file pickers and window construction in gui_configurador.py are not modelled. `reiniciar_contador` is `Counter.ResetCounter`.
- PyInt.Int: models an optional sign and ASCII digits only. Underscores, non-ASCII digits and the digit-count limit of Python's `int()` are not modelled.
- Setup.DelaySeconds: a text delay is taken as no pause, whereas Python raises `TypeError` at the first `time.sleep`. A negative delay is modelled (`Dispatch.Raise`).
- Setup.Render: a number or boolean subject is rendered as `str()` would spell it, and the relay oracle then decides the send. In Python the subject reaches the header unconverted, and `msg.as_string()` raises `AttributeError` inside `send_email`, so every send fails before `sendmail`. Other JSON types are not modelled.
- Run.RunSender: assumes the sender was built before the loop (`!s.connected`). As written, sender.py never gets that far (see Findings). The model feeds the loop from the corrected preparation in `Setup.SenderScript`.
- Setup.SenderScript: the existence check and the `email`-column check on the workbook are one input, `None` when the sheet cannot be used.

## Findings

| source | as written | input that shows it | evidently intended | confidence | as-written member | corrected member |
|---|---|---|---|---|---|---|
| sender.py:44 | the sender's address is read as `smtp_settings['smtp_from']`, but `get_smtp_settings` only returns the key `email_from`, so `KeyError` escapes before the checkpoint is read | a loadable `config.json` and all five `SMTP_*` variables set to non-empty values | `smtp_settings['email_from']`, the key config_manager.py:28 fills from `SMTP_FROM` | not executed | Setup.AsWrittenNeverReady | Setup.SetUpReady |

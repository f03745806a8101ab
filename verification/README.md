# Verification of door

door is a login manager for Linux: a root daemon (`doord`) that authenticates users with PAM and
starts their desktop sessions, a greeter, a lock screen (`door-lock`), and a settings panel for the
greeter's theme. This project models its trusted parts in Dafny and proves what the program is
trusted for: that no session starts and no screen unlocks without PAM having accepted the right
user, that the seat is never shared, that confinement is in place before it is needed, and that the
texts it reads and writes mean the same both ways.

`dafny verify dfyconfig.toml` checks everything.

## How the model is laid out

| file | models |
|---|---|
| `protocol.dfy` | the messages of the three seams (greeter, lock screen, PAM worker) and one end of a socket |
| `pam_worker.dfy` | the PAM worker process, as a contract: what it may emit and when it reads |
| `exchange.dfy` | one unlock attempt as its two sockets saw it: what the worker said and was written, frame by frame of the client |
| `reauth.dfy` | the unlock listener's connection handler and its relay to a worker, as code and as an automaton |
| `locker.dfy` | the lock screen's state machine, its blocking worker thread and its protocol client |
| `unlock.dfy` | all of these together, with other peers, as one step system; the unlock safety theorems |
| `answers.dfy` | the same over whole runs of the system: which answer reaches which question |
| `progress.dfy` | deadlock freedom and termination of an unlock attempt |
| `login.dfy` | the greeter connection, the login it owns and the gate in front of a session start |
| `greeter.dfy` | the greeter process handle with its two backends |
| `serve.dfy` | the managed login loop's crash-loop counter against a clock |
| `seat.dfy` | the managed loop interleaved with the teardown signal handler |
| `free_seat.dfy` | signalling the process groups that hold the graphics card |
| `confinement.dfy` | startup: spawners, Landlock, the reauth thread, seccomp, the release gate |
| `privdrop.dfy`, `session_env.dfy` | dropping root before a session, and the session's locale variables |
| `text.dfy`, `exec_line.dfy`, `desktop_entry.dfy`, `sessions.dfy` | trimming, command lines, `.desktop` files, session discovery |
| `vt_path.dfy` | the terminal path written in place by the signal handler |
| `colors.dfy`, `hsv.dfy` | hexadecimal colours and the colour picker's conversions, over the reals |
| `presets.dfy`, `day_window.dfy`, `themes.dfy` | preset names, the day window, and theme files with the panel that edits them |
| `toml_text.dfy` | the texts of a saved theme, as printed and as read |

Where the program loops or updates fields, the model has a method with loops or a class, and the
method's contract ties it to a specification: `HandleReauthConnection` to the fold `Play` of the
automaton, `WorkerLoop` to `Drive`, `HandleMessage` to `Update`, `Discover` to `Merge`,
`TokenizeExec` to `Scan`. The theorems are then about the specification, for every run, input or
peer. Beside it, the same contracts say literally, without the specification, what is read, written
and shown: `Content` and `Carried` on the unlock connection, `Orderly` and `ToldOver` in the worker
loop, `Secrets`, `Progress` and `Says` on the screen, `AsAsked` in the login. A socket (`Wire`) has a peer that is
arbitrary but fixed: its `script` is whatever it will ever send, after which it is gone, and its
`room` is how many frames it accepts before the connection breaks for writing. `got` and `sent` are
what was read off it and delivered over it. The contracts of `HandleReauthConnection` and `WorkerLoop`
speak of these fields of every socket used, their logs record the true fate of every write, and such
a log is the only one its reads allow (`ReadsDetermineLog`). `HandleConnection` keeps a journal that
equals what was read, delivered and found, whose every entry was permitted by what came before it,
and may be left only for a reason.

## What was found

Five statements the program or its comments suggest do not hold as they stand. Each has a lemma
that says exactly when they do.

- Pressing unlock before the worker thread has reported in leaves the lock screen authenticating for
  good; no later press does by itself (`UnlockSystem.PressWedgesIffNotReady`). After that it is stuck
  exactly if the worker thread dies with nothing left to show or to ask; from every other state it can
  still come back (`UnlockSystem.StuckIff`).
- The comment on the seat flag says a live session's VT is never reset by the signal handler. Four
  things can bring a reset about, each by itself (`Seat.SeatIsExclusive`). A wait on a session fails,
  and the loop greets over it (`Seat.FailedWaitBreaksExclusivity`). A start is reported failed although
  its worker has launched the session: the control socket cannot be duplicated, or the report cannot
  be read (`Seat.OrphanedStartBreaksExclusivity`). A compositor outlives its session, and a signal comes
  before the seat is freed under it (`Seat.OutlivingBreaksExclusivity`). Or a handler that runs on the
  thread that serves unlock requests is overtaken by the hand-off
  (`Seat.OvertakenHandlerBreaksExclusivity`). From any state of a running daemon with a live session, a
  reset can follow, with nothing further going wrong and before any session ends, exactly if the loop
  is not in its wait, or waits for a session that is over while another lives and no teardown is due,
  or a handler that read the flag before the hand-off has yet to act (`Seat.ResetPossibleIff`).
- A teardown signal that arrives while a session is being started, when the start then fails, stops
  nothing. The flag is never cleared, so the next user's session is the one that is torn down, at
  its first poll (`Seat.StaleTeardown`, `Seat.SessionDoomedIff`).
- The comments in `doord/src/main.rs` and `doord/src/reauth.rs` say that workers checking a locked
  session's password run outside the sandbox, or that no sandbox is in play. If the second spawner
  alone cannot be forked, they are forked by the confined listener and inherit its sandbox, or under
  an enforcing filter cannot be made at all and every attempt is denied
  (`Confinement.ReauthWorkerConfinedIff`, `Confinement.AConfinedReauthWorker`,
  `Confinement.AnEnforcedDenial`, `Confinement.EnforcedServesNone`).
- Saving a preset again targets the file it was loaded from only if that file's stem is a slug
  (`Presets.PresetRoundTripIff`); and loading and saving a theme trims its texts and drops blank
  ones (`Themes.LoadSaveLoad`).

Five smaller ones: a comment in `serve` says a greeter that carried a real login clears the failure
streak, but only its uptime counts (`CrashLoop.StreakMoves`, `CrashLoop.LoginMakesNoDifference`), so
three logins in a row, each over within a second, make the loop give up (`CrashLoop.ThreeQuickLogins`).
An answer submitted when the lock screen's worker thread is gone locks the screen again, but the advice
to switch to a terminal is overwritten by the text for a check under way (`Locker.GoneIsSaidIff`). A percent sign in an `Exec`
line takes along the character after it even if that is a space, which glues two arguments together
(`ExecLine.FieldCodeVanishes`, `ExecLine.PercentSpaceGlues`). The comment in the worker says a cancel
takes precedence over what PAM returned; it does so only during the password check, and one that comes
during the account check may be followed by success (`PamWorker.FaultDecidesIff`). And a theme with a
text that holds a null, a combining or another character the debug format spells out is saved to a
file that TOML refuses (`TomlText.TextReadsBackIff`, `TomlText.ANullIsRefused`).

## Model

| member | source | states |
|---|---|---|
| UnlockSystem.StepKeeps | door-lock/src/app.rs:473-1015 | every step of lock UI, queues, worker thread, handler, PAM worker and strangers keeps the joint invariant |
| UnlockSystem.UnlockSafety | door-lock/src/app.rs:528-538 | in every run, a session is unlocked for an attempt only if that attempt's own connection, dialled under the lock screen's uid, began exactly once and PAM accepted on it exactly the name the uid resolves to |
| UnlockSystem.NoCrossUserOracle | doord/src/reauth.rs:346-419 | whoever connects and whatever they send, the name a worker is told to test, the one it is testing and every one PAM accepts is the peer uid's own, with at most one test or acceptance per attempt, an Allow is only under way after that, and no Start is ever commanded |
| UnlockSystem.NeverDesynchronised | door-lock/src/app.rs:941-1015 | at most one command is queued, a thread waiting for a reply can only find a reply and an idle one only Authenticate, and each prompt has at most one reply |
| UnlockSystem.WedgedForever | door-lock/src/app.rs:452-464 | once the UI waits for a thread that found no command channel to serve or is dead, with nothing queued or asked, no continuation leaves the authenticating phase or starts an attempt |
| UnlockSystem.StuckIff | door-lock/src/app.rs:452-625 | in every state a run can reach, no continuation leaves the authenticating phase exactly if nothing is asked or queued and the press was lost or the worker thread is dead |
| UnlockSystem.PressWedgesIffNotReady | door-lock/src/app.rs:560-570 | in any locked state an unlock press gets the screen stuck for good exactly if the worker's channel has not arrived |
| Answers.AnswersMeetTheirQuestions | doord/src/reauth.rs:196-238 | in every run, among any strangers: the replies a worker receives on a lock screen connection are, one by one, the texts given on the screen in that attempt to the very questions that worker put, same words and same secrecy; and none is missing but to the open one |
| Answers.StepCarries | door-lock/src/app.rs:473-1015 | every step of every party keeps the chain from the answers given through queue, socket, handler and control channel to those received, and that of the questions back |
| Answers.RepliesWereTyped | door-lock/src/app.rs:473-527 | what a worker receives as a reply is a text that the person typed, or an untouched empty field |
| Progress.NeverBlocked | doord/src/reauth.rs:196-254 | while an attempt is under way some party can step, or the screen shows an open prompt the person has yet to submit |
| Progress.FairStep | door-lock/src/app.rs:982-1014 | each fair step of the attempt lowers one measure, bystanders leave it, and the step that ends the attempt unlocks exactly if PAM accepted |
| Progress.AttemptTerminates | door-lock/src/client.rs:114-155 | a fair run from an unlock press takes at most nine steps per PAM call plus the queued notices, can stop only decided, and ends unlocking exactly if PAM accepted and locked otherwise |
| Reauth.ReactionWrites | doord/src/reauth.rs:180-254 | an attempt opens with exactly one Auth for the resolved name, and inside it one read leads to at most one answer |
| Reauth.ControlDiscipline | doord/src/reauth.rs:180-254 | whatever the client does, each worker is written one Auth naming the peer's own user followed only by Reply or Cancel, never Start |
| Reauth.AnswersFollowPrompts | doord/src/reauth.rs:205-238 | on every control channel, separately and in order, each answer follows the prompt raised last and is the only one to it, and when writes succeed every prompt is answered but for the open one |
| Reauth.OneSuccessPerAllow | doord/src/reauth.rs:383-420 | never more Allows than worker successes, and exactly as many when the client can be written to |
| Reauth.WorkerReauth.Reauthenticate | doord/src/reauth.rs:180-254 | the worker is written Auth with the name and then, prompt by prompt, the very text of the client frame read next if that is a reply and Cancel otherwise; the client is shown the prompts and notices with their own text and secrecy, in order; Allow comes only of a success; and all of it is what the automaton prescribes |
| Reauth.WorkerReauth.Answer | doord/src/reauth.rs:205-238 | reads exactly one frame; a reply is passed on word for word, anything else cancels, and anything but a reply or a cancel ends the attempt |
| Reauth.RunAttempt | doord/src/reauth.rs:384-398 | one begun attempt takes the next worker of the factory if the uid resolves; what that worker is written and the client is shown is given by its prompts and the client's frames; without a worker nothing is read or written and the attempt is denied |
| Reauth.ReauthHandshake | doord/src/reauth.rs:444-480 | one frame is read: a Hello of version 3 is welcomed and leaves the connection open, another version is told so, any other request is refused, and nothing else is sent |
| Reauth.HandleReauthConnection | doord/src/reauth.rs:346-439 | for every client, every factory and every worker: attempt by attempt, what each worker was written is its Auth for the peer's name and then the client's own replies to its prompts or Cancel, what the client was sent between is the worker's prompts and notices, followed by the verdict of that worker; frames outside attempts get their one response; workers are taken in turn, one per Begin of a known peer; no Allow is sent without a success of a worker asked about this very user; and all of it is the fold of the automaton |
| Exchanges.Put | doord/src/reauth.rs:205-214 | a prompt is shown with its own text and secrecy and then open, or, with the client gone, cancelled and the attempt over |
| Exchanges.Met | doord/src/reauth.rs:205-238 | the client's frame that meets an open prompt: a reply reaches the worker with its own text, anything else as Cancel, and only a reply or a cancel lets the attempt go on |
| Reauth.ReadsDetermineLog | doord/src/reauth.rs:346-439 | what the handler reads from its sockets determines all it does: no two logs with the true fate of their writes read the same |
| Reauth.AllowIsVouched | doord/src/reauth.rs:383-420 | an Allow in what is sent means that some worker of the factory was first told to test exactly the peer's name and sent a success |
| Locker.CommandSender.Send | door-lock/src/app.rs:452-466 | a command is queued exactly if the receiving thread lives |
| Locker.State.SendCommand | door-lock/src/app.rs:452-466 | sending updates phase and status as the pure transition does, and queues what it queues |
| Locker.State.HandleMessage | door-lock/src/app.rs:473-625 | a hidden prompt is answered by the password typed ahead, which is then blank, and any other prompt sends nothing, keeps the password and opens an empty field with its own text; submitting sends the field's text; only a verdict unlocks or refuses and only a press starts an attempt; nothing else is queued or changed; and all of it equals the pure transition |
| Locker.GoneIsSaidIff | door-lock/src/app.rs:452-527 | with the worker thread gone, whatever would be sent locks the screen again, and the screen says the thread is gone except after a submitted answer |
| Locker.RepliesAreTyped | door-lock/src/app.rs:479-527 | in every run of the screen a reply sent is the password typed ahead, on a hidden prompt, or what was typed into the open prompt's field, when it is submitted |
| Locker.Client.RunConversation | door-lock/src/app.rs:977-1015 | what is read is shown in order: a question with its text and secrecy, a notice as one, a verdict as the end; each question takes one command, whose reply is sent word for word; it ends with a verdict, starved of a reply, or broken off; and all of it is the automaton's |
| Locker.Client.TakeReply | door-lock/src/app.rs:984-998 | the command that meets an open question: a reply is sent word for word, anything else or a dead stream breaks the attempt off |
| Locker.Open | door-lock/src/client.rs:100-135 | a dialled daemon is sent Hello of version 3 and, once it welcomes, Begin; the attempt is open exactly then, and what fails is reported as what it was |
| Locker.WorkerLoop | door-lock/src/app.rs:941-972 | for every command stream and network: each Authenticate dials the next socket, every command is spent on one socket or is a stray reply, what each socket was sent are the replies taken for its questions and what the screen was told is what it said, in order; success is announced only if some daemon dialled really sent an Allow; and all of it is the automaton's |
| Locker.ReadsDetermineLog | door-lock/src/app.rs:941-1015 | the commands taken and the responses read determine every request sent and every message emitted |
| Login.LoginSession.RelayPrompt | doord/src/pam.rs:194-222 | a question is put to the greeter once and answered with the greeter's very reply, or cancelled; it breaks the login only if the greeter is gone or deaf or the worker takes nothing |
| Login.LoginSession.Converse | doord/src/pam.rs:186-245 | a conversation that does not end in Transport drained exactly the frames the worker had for it, ended on the event its outcome stands for, and left the binding that outcome implies; Transport means a side is over |
| Login.LoginSession.Authenticate | doord/src/pam.rs:174-246 | only success binds the login, to the user asked for; consecutive conversations cannot mix events |
| Login.LoginSession.Start | doord/src/pam.rs:252-318 | a start is commanded only where the gate allows it and the greeter is over, the worker is sent exactly the session given, and success is reported only right on the worker's Started |
| Login.Handshake | doord/src/ipc.rs:1319-1354 | passes exactly on a Hello of version 3 that can be answered; a Hello is answered with a welcome or the version, any other request with a refusal, an unreadable frame with nothing; nothing is started |
| Login.Dispatch | doord/src/ipc.rs:1360-1391 | each stateless request gets exactly the one response for it, a list being that of a fresh scan, and no binding changes |
| Login.RunAuth | doord/src/ipc.rs:1159-1200 | the greeter is told success only right after the worker's success, and then the login is bound to that user; the connection ends here only if a side is over |
| Login.RunStart | doord/src/ipc.rs:1207-1306 | the worker is sent a start of the first session of a fresh scan with the very id asked for, its own command line and type; if the scan has none, nothing is sent to it and the greeter is told so; a managed greeter is torn down and over before; and the connection ends only with the seat handed over or a deaf greeter |
| Login.FindMeans | doord/src/ipc.rs:1218-1222 | a session is found exactly if one has the id, and it is the first that does |
| Login.HandleConnection | doord/src/ipc.rs:1022-1127 | for every peer, worker and directory: a foreign uid is read from and sent nothing; the journal is exactly what was read, delivered, found and happened to the greeter, every entry of it was permitted when made, every request answered before the next is read; every start is of the first session under the id just asked for in the scan just made; the connection is left only for a reason; and each start in a managed journal comes right after the teardown, with the whole history of the greeter, and the taking of the seat |
| Login.StartHandedOver | doord/src/ipc.rs:1234-1254 | in a managed history the greeter had its whole life behind it, and the seat was no longer its, at the moment any start was commanded |
| Login.StartIsAsAsked | doord/src/ipc.rs:1207-1260 | in every gated history each start is of the first session, in the scan made for the request right before, with the id of that request |
| Login.TornDownForASession | doord/src/ipc.rs:1218-1254 | in every gated history a managed greeter is torn down only right after a scan that found the session asked for, by somebody PAM accepted |
| Login.EveryEntryAnswers | doord/src/ipc.rs:1022-1391 | in every gated history each name tested, reply passed on, question shown, verdict and list told is that of the entry right before it, word for word |
| Login.LastAcceptedMeans | doord/src/pam.rs:248-250 | the user of a login is the name of the latest Auth answered with success, read off the journal independently of the code |
| Login.StartNeedsAcceptance | doord/src/ipc.rs:1064-1086 | each Start commanded is preceded on its connection by a matching Hello and an Auth answered with success |
| Login.WorkerAgrees | doord/src/worker.rs:351-408 | if the worker keeps to its contract, the daemon never commands it out of turn, and the user whose PAM transaction it holds is always the one the gate believes in |
| Login.StartIsForItsUser | doord/src/worker.rs:363-400 | a start reaches a worker that holds the PAM transaction of exactly the user the gate allowed it for, or one that is gone |
| Login.EmitsCoversMoves | doord/src/worker.rs:411-469 | every event a conversing worker can emit, verdicts after a cancelled account check included, is one the agreement accounts for with the same effect, and what it does silently changes nothing seen |
| Login.EmitsArePossible | doord/src/worker.rs:411-469 | and each event the agreement allows is one a worker that looks the same can emit |
| PamWorker.CheckMeans | doord/src/worker.rs:411-469 | a check sends one frame per PAM call until a call finds the control gone or cancelled, which it latches as what it was |
| Greeter.WholeLifeMeans | doord/src/ipc.rs:782-836 | over a whole life at most one SIGTERM and then at most one SIGKILL, nothing after an observed exit, and without wait errors the end is an observed exit or a kill |
| Greeter.GreeterHandle.ReapIfExited | doord/src/ipc.rs:744-776 | reports the latched end, latches it when first seen, and signals nothing |
| Greeter.GreeterHandle.AwaitExit | doord/src/ipc.rs:794-808 | reports an exit only if it was looked at and seen, and survival only if every look within the grace period saw the process alive |
| Greeter.GreeterHandle.Terminate | doord/src/ipc.rs:782-836 | over on return, on either backend; a second call does nothing; a greeter is killed only if every look within the grace period saw it alive and spared only if it was seen gone; absent wait errors the exit was seen, or the spawner's child was killed |
| Greeter.AcceptWithGreeterWatch | doord/src/ipc.rs:885-920 | reports a dead greeter exactly if it was seen dead before anything connected |
| CrashLoop.TrailingQuickMeans | doord/src/ipc.rs:452-456 | the counted streak is n or more exactly if the last n turns all failed quickly |
| CrashLoop.Serve | doord/src/ipc.rs:452-542 | the loop gives up exactly if three turns in a row are each a failed launch or a run of under three seconds, at the first such three; the count is the length of the run of these at the end, below three otherwise; each launch comes when the turn before is over, two seconds later after a failure, so launches i and j are at least 2(j-i) seconds apart |
| CrashLoop.StreakMoves | doord/src/ipc.rs:520-541 | a failed launch and a run of under 3000 ms, with or without a login, lengthen the streak by one; a longer run ends it |
| CrashLoop.LoginMakesNoDifference | doord/src/ipc.rs:520-541 | turns that differ in their logins only are served alike: same outcome, same count, same launch times |
| CrashLoop.ThreeQuickLogins | doord/src/ipc.rs:521-541 | three quick logins in a row make the loop give up |
| Seat.StepKeeps | doord/src/ipc.rs:194-285 | every step of loop, sessions and signal handler keeps the seat invariant, starts reported failed whose sessions live on or come up later included |
| Seat.SeatIsExclusive | doord/src/ipc.rs:1239-1272 | under every interleaving a session starts only with the greeter seen exited, killed or lost, the greeting flag stays clear while it is owned, and a reset of a live session's VT was preceded by a failed wait, a start reported failed whose session runs, a compositor that outlived its session, or an overtaken handler; without the first three no session lives but the one waited for |
| Seat.ResetPossibleIff | doord/src/ipc.rs:194-285 | from any reachable state with a live session a reset of its VT can follow, with nothing further going wrong, exactly if the loop is not in its wait, or waits for a session that is over with no teardown due, or a handler has yet to act |
| Seat.SessionsConserved | doord/src/ipc.rs:194-285 | a step changes the number of live sessions, of starts still coming and the ownership only as its kind says |
| Seat.FailedWaitBreaksExclusivity | doord/src/ipc.rs:271-277 | a run in which nothing goes wrong but a session wait, and the VT of a live session is reset |
| Seat.OrphanedStartBreaksExclusivity | doord/src/pam.rs:296-316 | a run in which nothing goes wrong but a start reported failed whose session runs, and its VT is reset |
| Seat.OutlivingBreaksExclusivity | doord/src/ipc.rs:453-466 | a run in which nothing goes wrong but a compositor outliving its session, and its VT is reset before the seat is freed |
| Seat.OvertakenHandlerBreaksExclusivity | doord/src/ipc.rs:194-210 | a run in which nothing goes wrong but a handler on the other thread being overtaken, and the VT of a live session is reset |
| Seat.SessionDoomedIff | doord/src/ipc.rs:250-264 | an owned session is torn down at its next poll exactly if a signal ever found the flag clear or a handler is still under way |
| Seat.StaleTeardown | doord/src/ipc.rs:155-160 | after a signal during a start that fails, every later session the daemon owns is torn down at its first poll |
| FreeSeat.HolderProcessGroups | doord/src/ipc.rs:338-348 | the distinct groups of the holders, all of them, and never init's or an unknown one |
| FreeSeat.Signals.FreeSeat | doord/src/ipc.rs:295-326 | every group holding the card is asked once to end, every group holding it after the grace period is killed once, in that order, and nobody else is signalled |
| Confinement.ConfinementOrder | doord/src/main.rs:141-235 | under every interleaving the reauth thread uses its socket only after the filter step and with exactly main's sandbox, and greeter and session workers are unconfined in every mode |
| Confinement.ReauthWorkerConfinedIff | doord/src/reauth.rs:131-157 | an unlock worker is confined exactly if only the second spawner is missing and some sandbox was installed, and cannot be made exactly if in addition the filter enforces |
| Confinement.EnforcedServesNone | doord/src/reauth.rs:131-157 | without a second spawner and under an enforcing filter no unlock worker is ever made |
| Confinement.Supervisor.Startup | doord/src/main.rs:69-235 | startup always reaches serving, with the reauth thread at an open gate under exactly the sandboxes that were asked for and could be installed, and none without a spawner |
| Confinement.AConfinedReauthWorker | doord/src/main.rs:93-112 | a startup that ends with a confined unlock worker |
| Confinement.AnEnforcedDenial | doord/src/reauth.rs:131-157 | an execution in which nothing fails but the second fork, and an unlock attempt is denied for want of a worker |
| PrivDrop.Process.DropTo | doord/src/privdrop.rs:43-67 | success means every real, effective and saved identity is the target's and the groups are exactly the primary one and those the database lists under the target's name, so none held before stays otherwise; and it comes exactly if the process was privileged, no call failed, and the target is a real user other than root |
| PrivDrop.Process.VerifyDropped | doord/src/privdrop.rs:73-99 | passes exactly on matching real and effective ids of a user other than root |
| PrivDrop.DropIsPermanent | doord/src/privdrop.rs:43-99 | after a drop no sequence of set-id, group and execute calls changes any identity, given the bar on new privileges |
| PrivDrop.DropIsPermanentUntilExecute | doord/src/privdrop.rs:5-19 | without executing set-id files not even the bar is needed |
| PrivDrop.RootUnreachableIff | doord/src/hardening.rs:57-64 | root is out of a dropped process's reach exactly if the bar on new privileges is set |
| PrivDrop.UidLast | doord/src/privdrop.rs:7-19 | with the uid dropped first, neither the groups nor the gid can be dropped any more |
| SessionEnv.LocaleEnvMeans | doord/src/privdrop.rs:156-174 | exactly the locale variables set in the daemon's environment are passed on, each once and with its own value, and UTF-8 is added exactly if none of them decides the character type |
| ExecLine.TokenizeExec | doord/src/sessions.rs:265-318 | the nested loops with their token flag compute the tokenizer specification; the flag has no influence |
| ExecLine.ReadQuoted | doord/src/sessions.rs:281-298 | one quoted stretch, escapes and a missing closing quote included |
| ExecLine.ScanShrinks | doord/src/sessions.rs:322-326 | no argument is ever empty, and all together are no longer than the line |
| ExecLine.PrintedLineReadsBack | doord/src/sessions.rs:255-264 | arguments written quoted and escaped or bare, with any white space between, read back as exactly the non-empty ones in order |
| ExecLine.RoundTripIff | doord/src/sessions.rs:255-264 | they all come back exactly if none is empty |
| ExecLine.PercentSpaceGlues | doord/src/sessions.rs:299-306 | a percent sign before a space makes one argument of two |
| DesktopEntry.ParseLines | doord/src/sessions.rs:208-240 | the flag-driven loop yields exactly the fields of the first Desktop Entry group |
| DesktopEntry.ValueIs | doord/src/sessions.rs:208-257 | a key has the value that the first line giving it in the first Desktop Entry group gives it, trimmed |
| DesktopEntry.LaterGroupsIgnored | doord/src/sessions.rs:217-225 | nothing after the next header changes a parse |
| DesktopEntry.TextAfterGroupIgnored | doord/src/sessions.rs:200-206 | the same in terms of the file's text |
| DesktopEntry.LocalizedKeysUnseen | doord/src/sessions.rs:229-235 | a localized key is never found, whatever the file |
| Sessions.ParseEntry | doord/src/sessions.rs:146-194 | accepts exactly the visible, named entries with something to run, and takes the command from the file |
| Sessions.AcceptedIff | doord/src/sessions.rs:146-194 | a file is a session exactly if it ends in .desktop and its first group has a name and an Exec with something in it and neither Hidden nor NoDisplay set to true; the session is what these keys say |
| Sessions.ScanDir | doord/src/sessions.rs:101-128 | one directory's pass of the loop merges its accepted entries, in order |
| Sessions.Discover | doord/src/sessions.rs:91-142 | the nested loops with the set of ids seen compute the first-wins merge of everything come across |
| Sessions.MergeMeans | doord/src/sessions.rs:113-121 | the merge has each id once, every id come across, and for each id the first session with it |
| Sessions.MergeExtends | doord/src/sessions.rs:77-79 | coming across more sessions only extends the merge at its end |
| Sessions.DiscoveryMeans | doord/src/sessions.rs:78-142 | ids are unique, every session has a name and a command, none is X11 unless allowed, and further directories only append |
| Sessions.FoundAreDescribed | doord/src/sessions.rs:78-142 | every session found is described by some file of a directory searched, and of every file so described the id is found |
| Sessions.EarlierWins | doord/src/sessions.rs:91-128 | a session whose id no earlier directory has wins over later ones, Wayland before X11 |
| Sessions.RejectedNeverShadows | doord/src/sessions.rs:110-126 | an entry that is not accepted might as well not be there |
| VtPath.LeastFirst | doord/src/ipc.rs:645-656 | the digit loop stays within its ten bytes and leaves the digits in reverse |
| VtPath.MostFirst | doord/src/ipc.rs:656-663 | the second loop writes them back to front, within the buffer, and touches nothing else of it |
| VtPath.VtPathInto | doord/src/ipc.rs:640-663 | for every 32-bit number the buffer begins with the prefix, the decimal digits and a NUL, and is otherwise untouched |
| VtPath.DigitsReadBack | doord/src/ipc.rs:644-656 | the digits denote the number, without leading zeros |
| VtPath.DigitsUnique | doord/src/ipc.rs:644-656 | no other such digit string denotes it |
| Colors.HexReadsBack | door-theme/src/lib.rs:67-74 | every colour's text is canonical and parses back to it, alpha included |
| Colors.WritesBackIff | door-theme/src/lib.rs:53-63 | a text is reproduced exactly if it is canonical; upper case, signs and an opaque alpha are normalized |
| Hsv.RgbRoundTrip | door-settings/src/main.rs:4798-4830 | over the reals, to hue, saturation and value and back is the identity on every colour |
| Hsv.HsvRoundTrip | door-settings/src/main.rs:4798-4830 | and the other way round on every hue below a full turn with some saturation and value |
| Hsv.UnmovedPickerReemits | door-settings/src/main.rs:4855-4866 | a picker opened on an 8-bit colour and not moved re-emits its canonical text, alpha included |
| Presets.SlugifyMakesSlugs | door-settings/src/main.rs:681-693 | whatever the name, its slug is lower-case words of letters and digits joined by single hyphens |
| Presets.SlugFixedIff | door-settings/src/main.rs:681-693 | a name is its own slug exactly if it has that form, so slugifying is idempotent |
| Presets.PresetRoundTripIff | door-settings/src/main.rs:1728-1740 | a file stem survives being shown as a name and saved again exactly if it is a slug |
| DayWindow.ParseHhmm | door-theme/src/lib.rs:2807-2812 | what parses is a minute of the day |
| DayWindow.ParseHhmmIs | door-theme/src/lib.rs:2807-2812 | a trimmed text is a time exactly if the first colon parts an hour below 24 from a minute below 60, both decimal |
| DayWindow.HhmmReadsBackIff | door-settings/src/main.rs:569-571 | a number of minutes survives being written and read exactly if it is a time of day |
| DayWindow.WindowsSplitTheDay | door-theme/src/lib.rs:2830-2836 | a window and its reverse split the day between them, wrapping included, unless both are empty |
| DayWindow.WindowEnds | door-theme/src/lib.rs:2830-2836 | a window holds its start and not its end, and membership changes at no other minute |
| DayWindow.WindowReadsBack | door-theme/src/lib.rs:2815-2827 | any configured window, defaults included, is read back as written |
| Themes.VariantsAgree | door-theme/src/lib.rs:1992-2325 | whatever the file, night and day agree on every shared key |
| Themes.EveryKeyExactly | door-theme/src/lib.rs:1992-2325 | key by key: night has the file's value or the built-in one; day has night's on shared keys, the day table's where it sets one, and the built-in day value otherwise, so always without a day table; a text that is no colour keeps the built-in |
| Themes.RefusedIff | door-theme/src/lib.rs:1425-1635 | a file is refused exactly if it has an unknown key, a shared key in its day table, or a value of the wrong type |
| Themes.RenderReadsBack | door-theme/src/lib.rs:2352-2397 | a pair agreeing on the shared keys is rendered to a file that is accepted and parses to exactly that pair |
| Themes.Panel.ApplyPair | door-settings/src/main.rs:901-1080 | loading a pair that a file may hold leaves nothing of the panel's old state: building it gives the pair back with its texts tidied, and the window shown reads as the one set exactly if both its ends are times of day |
| Themes.Panel.Set | door-settings/src/main.rs:1104-1131 | an edit of a per-variant key leaves the other variant alone, one of a shared key shows in both |
| Themes.LoadThenBuild | door-settings/src/main.rs:1160-1377 | loading then building gives the pair with its texts tidied and nothing else changed |
| Themes.BuiltPairAgrees | door-settings/src/main.rs:1160-1377 | two variants built from one panel agree on every shared key, whatever the edits |
| Themes.SavePreservesMeaning | door-settings/src/main.rs:1381-1388 | whatever the edits, a panel whose variants both build is saved to a file that parses to exactly those variants and the window entered |
| Themes.LoadSaveLoad | door-settings/src/main.rs:1664-1697 | load, build, render and parse give the tidied pair and the same window, so the pair itself exactly if its texts were tidy |
| Themes.TidyIff | door-settings/src/main.rs:1167-1185 | tidying changes nothing exactly if every text present is trimmed and not blank, and is idempotent |
| TomlText.TextReadsBackIff | door-theme/src/lib.rs:2352-2397 | a text printed in the debug format is read by TOML as itself exactly if all its characters are printed as they are or by an escape both formats have, and makes the file unreadable otherwise |

## Left out

- Byte framing and JSON: messages travel whole, in order, until the peer is gone; a frame that does not parse is one read.
- The texts of errors and statuses beyond what tells them apart, and the timing floor on failed attempts.
- The listeners' accept loops: each connection is served on its own, and the unmanaged loop of `serve` is not modelled.
- A connection that cannot be duplicated for the login, which is simply dropped after the handshake, and the seat that is sent along with a start.
- The spawner's request channel and its mutex, `SCM_RIGHTS`, `/proc` scans, `poll`, ioctls, logind and PAM itself: only their effects, with any of them free to fail.
- The handler's `Drop`: closing a worker's control socket is the end of that worker's reads, not a step.
- The panic hook, the socket's permissions, and a signal with no VT configured, for which no handler is installed.
- Seat: liveness of a teardown is not claimed; the flag is read only while a session is owned.
- Seat: `free_seat` at the loop's top appears only as sessions being free to end at any time; who it signals is `FreeSeat`.
- Progress.AttemptTerminates: the person submits an open prompt, writes succeed and the worker makes finitely many PAM calls; a broken transport is covered by the safety theorems only.
- UnlockSystem: display-only fields of the lock screen (clock, animation, fingerprint cue wording) do not exist in the model.
- Confinement: syscalls are not listed one by one; all that matters of the filter is that creating processes is not on its list, and a Landlock ruleset is installed or not.
- PrivDrop: capabilities other than those that come with an effective uid of zero, and the environment's fixed variables, which are constants.
- Sessions: a path's stem and extension are given rather than computed; the order in which a directory lists its entries is taken as it comes.
- Hsv: rounding of 32-bit floats; the conversions are over the reals.
- Presets: Unicode lower and upper case are parameters, fixed only on ASCII.
- Themes: the TOML text itself. A file is its keys and values, numbers and choices go by codes, and rendering a value is taken to be readable again. It is not for not-a-number, for numbers too large to be written as integers, and for exactly the texts that `TomlText.TextReadsBackIff` excludes: those with a null, a combining, a control (other than tab, line feed and carriage return) or another non-printable character. The 191 keys are any schema of shared and per-variant keys; that the two built-in variants agree on the shared ones is an assumption the source's constants meet.
- Themes: the merge functions assign field by field in the source; the fields are independent, so the model overlays maps.
- Drawing, shaders, widgets, the greeter's own user interface, `fdpass.rs`, `config.rs` and `host.rs`.

/** The lock screen: the UI state machine and the blocking worker thread behind it, which
    are joined by a command queue one way and a message queue the other. */
module Locker {
  import opened Protocol
  import opened Wires

  datatype Phase = Locked | Authenticating | Unlocking

  /** What the UI asks the worker to do. */
  datatype Command = Authenticate | Reply(secret: string)

  /** Everything `update` reacts to. `Ambient` stands for the ticks, focus moves and
      indicator refreshes, which touch none of the fields kept here. */
  datatype Message =
    | WorkerReady
    | Prompt(text: string, secret: bool)
    | Notice(text: string)
    | PromptChanged(value: string)
    | PromptSubmitted
    | AuthSucceeded
    | AuthFailed(reason: Reason)
    | DaemonError
    | Fatal
    | PasswordChanged(value: string)
    | UnlockPressed
    | UnLock
    | Ambient

  datatype PromptField = PromptField(text: string, secret: bool, value: string)

  datatype Status =
    | Blank
    | Text(text: string)
    | Busy
    | Unlocked
    | Refused(reason: Reason)
    | Trouble
    | WorkerIsGone
    | NotReady

  /** What the UI hands back to the runtime. `EmitUnLock` is the message that the
      session-lock shell turns into the protocol unlock. */
  datatype Task = NoTask | FocusPassword | FocusPrompt | EmitUnLock | Exit

  datatype Ui = Ui(
    phase: Phase,
    dev: bool,
    ready: bool,
    password: string,
    prompt: Option<PromptField>,
    cue: Option<string>,
    status: Status,
    statusError: bool)

  datatype Handled = Handled(ui: Ui, task: Task, sent: seq<Command>)

  function Boot(dev: bool): Ui {
    Ui(Locked, dev, false, "", None, None, Blank, false)
  }

  /** Sends a command to the worker; `alive` says whether its thread still holds the
      receiving end. */
  function Send(ui: Ui, c: Command, alive: bool): (Ui, seq<Command>) {
    if !ui.ready then (ui.(status := NotReady), [])
    else if alive then (ui, [c])
    else (ui.(status := WorkerIsGone, statusError := true, phase := Locked), [])
  }

  /** The end of an attempt without success. */
  function BackToLocked(ui: Ui, status: Status): Ui {
    ui.(password := "", prompt := None, cue := None, status := status, statusError := true, phase := Locked)
  }

  function Update(ui: Ui, m: Message, alive: bool): Handled {
    match m
    case WorkerReady => Handled(ui.(ready := true), NoTask, [])
    case Prompt(text, secret) =>
      if secret && ui.password != "" then
        var shown := ui.(cue := None, status := Text(text), password := "");
        var (ui', sent) := Send(shown, Command.Reply(ui.password), alive);
        Handled(ui', NoTask, sent)
      else
        Handled(ui.(cue := None, status := Blank, statusError := false,
                    prompt := Some(PromptField(text, secret, ""))), FocusPrompt, [])
    case Notice(text) =>
      if ui.phase == Authenticating && ui.prompt.None?
      then Handled(ui.(cue := Some(text), status := Blank), NoTask, [])
      else Handled(ui.(status := Text(text)), NoTask, [])
    case PromptChanged(value) =>
      if ui.prompt.Some? then Handled(ui.(prompt := Some(ui.prompt.value.(value := value))), NoTask, [])
      else Handled(ui, NoTask, [])
    case PromptSubmitted =>
      if ui.prompt.Some? then
        var (ui', sent) := Send(ui.(prompt := None), Command.Reply(ui.prompt.value.value), alive);
        Handled(ui'.(status := Busy), NoTask, sent)
      else Handled(ui, NoTask, [])
    case AuthSucceeded =>
      Handled(ui.(password := "", prompt := None, cue := None, phase := Unlocking, status := Unlocked,
                  statusError := false), EmitUnLock, [])
    case AuthFailed(reason) => Handled(BackToLocked(ui, Refused(reason)), FocusPassword, [])
    case DaemonError => Handled(BackToLocked(ui, Trouble), NoTask, [])
    case Fatal => Handled(BackToLocked(ui, Trouble), NoTask, [])
    case PasswordChanged(value) => Handled(ui.(password := value), NoTask, [])
    case UnlockPressed =>
      if ui.phase == Locked then
        var (ui', sent) := Send(ui.(statusError := false, phase := Authenticating, status := Busy,
                                    prompt := None, cue := None), Authenticate, alive);
        Handled(ui', NoTask, sent)
      else Handled(ui, NoTask, [])
    case UnLock => Handled(ui, if ui.dev then Exit else EmitUnLock, [])
    case Ambient => Handled(ui, NoTask, [])
  }

  /** What a message sends away. A secret leaves the fields in two ways only: the password typed
      ahead, for a question that hides its answer, and the open question's own text, when it is
      submitted. */
  function Leaves(ui: Ui, m: Message): seq<Command> {
    if m.Prompt? && m.secret && ui.password != "" then [Command.Reply(ui.password)]
    else if m == PromptSubmitted && ui.prompt.Some? then [Command.Reply(ui.prompt.value.value)]
    else if m == UnlockPressed && ui.phase == Locked then [Authenticate]
    else []
  }

  /** Messages after which the UI leaves the attempt. */
  predicate Terminal(m: Message) {
    m.AuthSucceeded? || m.AuthFailed? || m.DaemonError? || m.Fatal?
  }

  /** What becomes of the secrets on the screen: every end of an attempt blanks them, and so does
      sending them. A question opens an empty field unless the password answers it. */
  predicate Secrets(ui: Ui, m: Message, after: Ui) {
    && after.password == (if m.PasswordChanged? then m.value
                          else if Terminal(m) || (m.Prompt? && m.secret) then ""
                          else ui.password)
    && after.prompt == (if m.Prompt? && (!m.secret || ui.password == "") then Some(PromptField(m.text, m.secret, ""))
                        else if m.PromptChanged? && ui.prompt.Some? then
                          Some(PromptField(ui.prompt.value.text, ui.prompt.value.secret, m.value))
                        else if Terminal(m) || m == PromptSubmitted || (m == UnlockPressed && ui.phase == Locked)
                        then None
                        else ui.prompt)
  }

  /** Where the attempt stands after a message: only success unlocks, a verdict ends the attempt,
      and only a press starts one. What cannot be sent, the worker thread being `gone`, ends it
      too. */
  predicate Progress(ui: Ui, m: Message, gone: bool, after: Ui, task: Task) {
    && after.phase == (if m.AuthSucceeded? then Unlocking
                       else if m.AuthFailed? || m.DaemonError? || m.Fatal? || (gone && Leaves(ui, m) != []) then Locked
                       else if m == UnlockPressed && ui.phase == Locked then Authenticating
                       else ui.phase)
    && (task == EmitUnLock <==> m.AuthSucceeded? || (m == UnLock && !ui.dev))
    && (task == Exit <==> m == UnLock && ui.dev)
    && (task == FocusPassword <==> m.AuthFailed?)
    && (task == FocusPrompt <==> m.Prompt? && (!m.secret || ui.password == ""))
    && after.dev == ui.dev && after.ready == (ui.ready || m == WorkerReady)
  }

  /** What the screen says. Where sending fails the screen says so, but not of an answer submitted:
      the person is told that it is being checked, though nobody is there to check it. */
  predicate Says(ui: Ui, m: Message, gone: bool, after: Ui) {
    var waits := m.Notice? && ui.phase == Authenticating && ui.prompt == None;
    && after.status == (if m == PromptSubmitted && ui.prompt.Some? then Busy
                        else if Leaves(ui, m) != [] && !ui.ready then NotReady
                        else if Leaves(ui, m) != [] && gone then WorkerIsGone
                        else match m
                             case Prompt(text, secret) => if secret && ui.password != "" then Text(text) else Blank
                             case Notice(text) => if waits then Blank else Text(text)
                             case AuthSucceeded => Unlocked
                             case AuthFailed(reason) => Refused(reason)
                             case DaemonError => Trouble
                             case Fatal => Trouble
                             case UnlockPressed => if ui.phase == Locked then Busy else ui.status
                             case _ => ui.status)
    && after.statusError == (if (Leaves(ui, m) != [] && gone) || m.AuthFailed? || m.DaemonError? || m.Fatal? then true
                             else if m.AuthSucceeded? || (m == UnlockPressed && ui.phase == Locked) ||
                                     (m.Prompt? && (!m.secret || ui.password == "")) then false
                             else ui.statusError)
    && after.cue == (if waits then Some(m.text)
                     else if m.Prompt? || m.AuthSucceeded? || m.AuthFailed? || m.DaemonError? || m.Fatal? ||
                             (m == UnlockPressed && ui.phase == Locked) then None
                     else ui.cue)
  }

  lemma UpdateMeans(ui: Ui, m: Message, alive: bool)
    ensures var h := Update(ui, m, alive);
            && Secrets(ui, m, h.ui) && Progress(ui, m, ui.ready && !alive, h.ui, h.task)
            && Says(ui, m, ui.ready && !alive, h.ui)
            && h.sent == Delivered(ui.ready && alive, Leaves(ui, m))
  {
    hide Update, Secrets, Progress, Leaves, Says;
    UpdateSends(ui, m, alive);
    UpdateMoves(ui, m, alive);
    UpdateSays(ui, m, alive);
  }

  lemma UpdateSends(ui: Ui, m: Message, alive: bool)
    ensures var h := Update(ui, m, alive);
            Secrets(ui, m, h.ui) && h.sent == Delivered(ui.ready && alive, Leaves(ui, m))
  {
  }

  lemma UpdateMoves(ui: Ui, m: Message, alive: bool)
    ensures var h := Update(ui, m, alive); Progress(ui, m, ui.ready && !alive, h.ui, h.task)
  {
  }

  lemma UpdateSays(ui: Ui, m: Message, alive: bool)
    ensures Says(ui, m, ui.ready && !alive, Update(ui, m, alive).ui)
  {
  }

  /** Where the worker thread is gone, sending anything ends the attempt, and the screen says why,
      except after an answer was submitted: then it is locked again and says it is checking. */
  lemma GoneIsSaidIff(ui: Ui, m: Message)
    requires ui.ready && Leaves(ui, m) != []
    ensures var after := Update(ui, m, false).ui;
            && after.phase == Locked && after.statusError
            && (after.status == WorkerIsGone <==> m != PromptSubmitted)
            && (after.status == Busy <==> m == PromptSubmitted)
  {
    hide Update;
    UpdateMoves(ui, m, false);
    UpdateSays(ui, m, false);
  }

  // ---- Whole runs of the screen ----

  /** The screen after these messages, with the worker thread alive or not at each. */
  function Watched(dev: bool, ms: seq<Message>, alive: nat -> bool): Ui {
    if ms == [] then Boot(dev)
    else Update(Watched(dev, ms[..|ms| - 1], alive), ms[|ms| - 1], alive(|ms| - 1)).ui
  }

  /** The person typed this as the password, and since then neither changed it, nor was a hidden
      answer asked for, nor did an attempt end. */
  ghost predicate TypedAhead(ms: seq<Message>, x: string) {
    exists j :: 0 <= j < |ms| && ms[j] == PasswordChanged(x) &&
      forall l :: j < l < |ms| ==>
        !ms[l].PasswordChanged? && !(ms[l].Prompt? && ms[l].secret) && !Terminal(ms[l])
  }

  /** A question came up at `k` and is still open, and this is what the person has put into its
      field since. */
  predicate TypedSince(ms: seq<Message>, k: nat, x: string) {
    && k < |ms| && ms[k].Prompt?
    && (forall l :: k < l < |ms| ==> ms[l] != PromptSubmitted && !Terminal(ms[l]))
    && (|| (x == "" && forall l :: k < l < |ms| ==> !ms[l].PromptChanged?)
        || exists j :: k < j < |ms| && ms[j] == PromptChanged(x) && forall l :: j < l < |ms| ==> !ms[l].PromptChanged?)
  }

  ghost predicate TypedInto(ms: seq<Message>, x: string) {
    exists k :: TypedSince(ms, k, x)
  }

  lemma StaysTyped(ms: seq<Message>, m: Message, x: string)
    requires TypedAhead(ms, x) && !m.PasswordChanged? && !(m.Prompt? && m.secret) && !Terminal(m)
    ensures TypedAhead(ms + [m], x)
  {
    var j :| 0 <= j < |ms| && ms[j] == PasswordChanged(x) &&
             forall l :: j < l < |ms| ==>
               !ms[l].PasswordChanged? && !(ms[l].Prompt? && ms[l].secret) && !Terminal(ms[l]);
    assert (ms + [m])[j] == PasswordChanged(x);
  }

  lemma StaysOpen(ms: seq<Message>, m: Message, k: nat, x: string)
    requires TypedSince(ms, k, x) && m != PromptSubmitted && !Terminal(m)
    ensures TypedSince(ms + [m], k, if m.PromptChanged? then m.value else x)
  {
    var all := ms + [m];
    assert forall l :: 0 <= l < |ms| ==> all[l] == ms[l];
    if m.PromptChanged? {
      assert all[|ms|] == PromptChanged(m.value);
    } else if !(x == "" && forall l :: k < l < |ms| ==> !ms[l].PromptChanged?) {
      var j :| k < j < |ms| && ms[j] == PromptChanged(x) && forall l :: j < l < |ms| ==> !ms[l].PromptChanged?;
      assert all[j] == PromptChanged(x);
    }
  }

  lemma {:induction false} FieldsAreTyped(dev: bool, ms: seq<Message>, alive: nat -> bool)
    ensures var ui := Watched(dev, ms, alive);
            && (ui.password != "" ==> TypedAhead(ms, ui.password))
            && (ui.prompt.Some? ==> TypedInto(ms, ui.prompt.value.value))
  {
    if ms != [] {
      var before, m := ms[..|ms| - 1], ms[|ms| - 1];
      FieldsAreTyped(dev, before, alive);
      var ui := Watched(dev, before, alive);
      var after := Update(ui, m, alive(|ms| - 1)).ui;
      UpdateSends(ui, m, alive(|ms| - 1));
      assert ms == before + [m];
      hide Update, Watched, TypedAhead, TypedSince;
      if after.password != "" {
        if m.PasswordChanged? {
          TypedNow(before, m.value);
        } else {
          StaysTyped(before, m, ui.password);
        }
      }
      if after.prompt.Some? {
        if m.Prompt? && (!m.secret || ui.password == "") {
          OpenedNow(before, m);
        } else {
          var k :| TypedSince(before, k, ui.prompt.value.value);
          StaysOpen(before, m, k, ui.prompt.value.value);
        }
      }
    }
  }

  lemma TypedNow(ms: seq<Message>, x: string)
    ensures TypedAhead(ms + [PasswordChanged(x)], x)
  {
    assert (ms + [PasswordChanged(x)])[|ms|] == PasswordChanged(x);
  }

  lemma OpenedNow(ms: seq<Message>, m: Message)
    requires m.Prompt?
    ensures TypedInto(ms + [m], "")
  {
    assert TypedSince(ms + [m], |ms|, "");
  }

  /** In every run of the screen: what it sends as a reply is text that the person typed. It is the
      password typed ahead only in answer to a question that hides its answer; otherwise it is
      what was typed into the field of an open question, and the person submitted it. */
  lemma RepliesAreTyped(dev: bool, ms: seq<Message>, alive: nat -> bool, m: Message, up: bool)
    ensures forall x :: Command.Reply(x) in Update(Watched(dev, ms, alive), m, up).sent ==>
              || (m.Prompt? && m.secret && x != "" && TypedAhead(ms, x))
              || (m == PromptSubmitted && TypedInto(ms, x))
  {
    FieldsAreTyped(dev, ms, alive);
    UpdateSends(Watched(dev, ms, alive), m, up);
    hide Update, Watched, TypedAhead, TypedInto;
  }

  // ---- The worker thread ----

  /** Where the worker thread is blocked: on its command queue, on the handshake of a fresh
      connection, on the next step of a conversation, or on the reply to a prompt. */
  datatype LockWorker = Idle | Greeting | Reading | AwaitingReply | Dead

  /** What it reads next, with whether dialling and the write that follows succeed. */
  datatype Read =
    | FromUi(c: Command, dialOk: bool, sendOk: bool)
    | FromDaemon(r: Incoming<ReauthResponse>, sendOk: bool)

  predicate Expects(w: LockWorker, i: Read) {
    match w
    case Idle => i.FromUi?
    case AwaitingReply => i.FromUi?
    case Dead => false
    case _ => i.FromDaemon?
  }

  /** `dials` opens a fresh connection; what is back at rest has dropped its own. */
  datatype WorkerStep = WorkerStep(
    next: LockWorker,
    dials: bool,
    requests: seq<ReauthRequest>,
    emits: seq<Message>)

  function GivesUp(m: Message): WorkerStep {
    WorkerStep(Idle, false, [], [m])
  }

  function Step(w: LockWorker, i: Read): WorkerStep
    requires Expects(w, i)
  {
    match w
    case Idle =>
      if i.c.Reply? then WorkerStep(Idle, false, [], [])
      else if !i.dialOk then WorkerStep(Idle, false, [], [Fatal])
      else if !i.sendOk then WorkerStep(Idle, true, [], [Fatal])
      else WorkerStep(Greeting, true, [ReauthRequest.Hello(PROTOCOL_VERSION)], [])
    case Greeting =>
      if i.r.Got? && i.r.msg.Welcome? then
        if i.sendOk then WorkerStep(Reading, false, [ReauthRequest.Begin], [])
        else GivesUp(DaemonError)
      else GivesUp(Fatal)
    case Reading =>
      (match i.r
       case Got(Prompt(Question(text, secret))) =>
         WorkerStep(AwaitingReply, false, [], [Message.Prompt(text, secret)])
       case Got(Prompt(Info(text))) => WorkerStep(Reading, false, [], [Notice(text)])
       case Got(Prompt(Error(text))) => WorkerStep(Reading, false, [], [Notice(text)])
       case Got(Allow) => GivesUp(AuthSucceeded)
       case Got(Deny(reason)) => GivesUp(AuthFailed(reason))
       case _ => GivesUp(Fatal))
    case AwaitingReply =>
      if i.c.Reply? then
        if i.sendOk then WorkerStep(Reading, false, [ReauthRequest.Reply(i.c.secret)], [])
        else GivesUp(DaemonError)
      else WorkerStep(Idle, false, [], [])
  }

  /** Messages that reach the UI from the person, not from the worker. */
  predicate FromPerson(m: Message) {
    m.PromptChanged? || m.PromptSubmitted? || m.PasswordChanged? || m.UnlockPressed? || m.Ambient?
  }

  // ---- The imperative forms ----

  /** The UI's end of the command channel. */
  class CommandSender {
    var queue: seq<Command>
    var alive: bool

    method Send(c: Command) returns (ok: bool)
      modifies this`queue
      ensures ok == alive && queue == old(queue) + Delivered(ok, [c])
    {
      ok := alive;
      if ok {
        queue := queue + [c];
      }
    }
  }

  class State {
    var phase: Phase
    var dev: bool
    var cmdTx: CommandSender?
    var password: string
    var prompt: Option<PromptField>
    var cue: Option<string>
    var status: Status
    var statusError: bool

    function Value(): Ui
      reads this
    {
      Ui(phase, dev, cmdTx != null, password, prompt, cue, status, statusError)
    }

    constructor (dev: bool)
      ensures Value() == Boot(dev) && cmdTx == null
    {
      phase, this.dev, cmdTx, password, prompt, cue, status, statusError :=
        Locked, dev, null, "", None, None, Blank, false;
    }

    method SendCommand(c: Command)
      modifies this`status, this`statusError, this`phase, cmdTx
      ensures var (ui, sent) := Send(old(Value()), c, cmdTx != null && old(cmdTx.alive));
              && Value() == ui
              && (cmdTx != null ==> cmdTx.queue == old(cmdTx.queue) + sent && cmdTx.alive == old(cmdTx.alive))
    {
      if cmdTx != null {
        var ok := cmdTx.Send(c);
        if !ok {
          status, statusError, phase := WorkerIsGone, true, Locked;
        }
      } else {
        status := NotReady;
      }
    }

    /** A question: answered at once with a password typed ahead, or put to the person. */
    method OnPrompt(text: string, secret: bool) returns (task: Task)
      modifies this, cmdTx
      ensures cmdTx == old(cmdTx)
      ensures var h := Update(old(Value()), Message.Prompt(text, secret), cmdTx != null && old(cmdTx.alive));
              && Value() == h.ui && task == h.task
              && (cmdTx != null ==> cmdTx.queue == old(cmdTx.queue) + h.sent)
    {
      task := NoTask;
      cue := None;
      if secret && password != "" {
        status := Text(text);
        var reply := password;
        password := "";
        SendCommand(Command.Reply(reply));
      } else {
        status, statusError := Blank, false;
        prompt := Some(PromptField(text, secret, ""));
        task := FocusPrompt;
      }
    }

    /** The person submits the open prompt. */
    method OnSubmitted()
      modifies this, cmdTx
      ensures cmdTx == old(cmdTx)
      ensures var h := Update(old(Value()), PromptSubmitted, cmdTx != null && old(cmdTx.alive));
              && Value() == h.ui && h.task == NoTask
              && (cmdTx != null ==> cmdTx.queue == old(cmdTx.queue) + h.sent)
    {
      if prompt.Some? {
        var reply := prompt.value.value;
        prompt := None;
        SendCommand(Command.Reply(reply));
        status := Busy;
      }
    }

    /** The person asks for the screen to be unlocked. */
    method OnUnlockPressed()
      modifies this, cmdTx
      ensures cmdTx == old(cmdTx)
      ensures var h := Update(old(Value()), UnlockPressed, cmdTx != null && old(cmdTx.alive));
              && Value() == h.ui && h.task == NoTask
              && (cmdTx != null ==> cmdTx.queue == old(cmdTx.queue) + h.sent)
    {
      if phase == Locked {
        statusError, phase, status := false, Authenticating, Busy;
        prompt, cue := None, None;
        SendCommand(Authenticate);
      }
    }

    /** One message. `tx` is the command channel a `WorkerReady` hands over. A secret leaves the
        fields in two ways only: the password typed ahead, for a question that hides its answer,
        and the open question's own text, when it is submitted; what the worker thread no longer
        takes is not queued. Every end of an attempt blanks them, and only success unlocks. */
    method HandleMessage(m: Message, tx: CommandSender) returns (task: Task)
      modifies this, cmdTx
      ensures cmdTx == if m.WorkerReady? then tx else old(cmdTx)
      ensures var h := Update(old(Value()), m, old(cmdTx) != null && old(cmdTx.alive));
              && Value() == h.ui && task == h.task
              && (old(cmdTx) != null ==> old(cmdTx).queue == old(cmdTx.queue) + h.sent)
      ensures var before, after, alive := old(Value()), Value(), old(cmdTx) != null && old(cmdTx.alive);
              && Secrets(before, m, after) && Progress(before, m, old(cmdTx) != null && !alive, after, task)
              && Says(before, m, old(cmdTx) != null && !alive, after)
              && (old(cmdTx) != null ==>
                    old(cmdTx).queue == old(cmdTx.queue) + Delivered(alive, Leaves(before, m)))
    {
      hide Secrets, Progress, Leaves, Says, Send;
      UpdateMeans(Value(), m, cmdTx != null && cmdTx.alive);
      task := NoTask;
      match m {
        case WorkerReady =>
          cmdTx := tx;
        case Prompt(text, secret) =>
          task := OnPrompt(text, secret);
        case Notice(text) =>
          if phase == Authenticating && prompt.None? {
            cue := Some(text);
            status := Blank;
          } else {
            status := Text(text);
          }
        case PromptChanged(value) =>
          if prompt.Some? {
            prompt := Some(prompt.value.(value := value));
          }
        case PromptSubmitted =>
          OnSubmitted();
        case AuthSucceeded =>
          password, prompt, cue := "", None, None;
          phase, status, statusError := Unlocking, Unlocked, false;
          task := EmitUnLock;
        case AuthFailed(reason) =>
          password, prompt, cue := "", None, None;
          status, statusError, phase := Refused(reason), true, Locked;
          task := FocusPassword;
        case DaemonError =>
          password, prompt, cue := "", None, None;
          status, statusError, phase := Trouble, true, Locked;
        case Fatal =>
          password, prompt, cue := "", None, None;
          status, statusError, phase := Trouble, true, Locked;
        case PasswordChanged(value) =>
          password := value;
        case UnlockPressed =>
          OnUnlockPressed();
        case UnLock =>
          task := if dev then Exit else EmitUnLock;
        case Ambient =>
      }
    }
  }

  // ---- The worker thread, imperatively ----

  /** What the worker thread has done: everything sent on each connection it dialled, in
      order, and every message it emitted. */
  datatype Drove = Drove(worker: LockWorker, dialled: seq<seq<ReauthRequest>>, emitted: seq<Message>)

  predicate Connected(w: LockWorker) {
    w.Greeting? || w.Reading? || w.AwaitingReply?
  }

  function Sent(dialled: seq<seq<ReauthRequest>>, w: LockWorker, s: WorkerStep): seq<seq<ReauthRequest>>
    requires Connected(w) ==> dialled != []
  {
    if s.dials then dialled + [s.requests]
    else if Connected(w) then dialled[..|dialled| - 1] + [dialled[|dialled| - 1] + s.requests]
    else dialled
  }

  /** Drives the worker automaton over a log of reads. */
  function Drive(log: seq<Read>): (d: Option<Drove>)
    ensures d.Some? && Connected(d.value.worker) ==> d.value.dialled != []
  {
    if log == [] then Some(Drove(Idle, [], []))
    else
      var d := Drive(log[..|log| - 1]);
      var i := log[|log| - 1];
      if d.None? || !Expects(d.value.worker, i) then None
      else
        var s := Step(d.value.worker, i);
        Some(Drove(s.next, Sent(d.value.dialled, d.value.worker, s), d.value.emitted + s.emits))
  }

  /** The commands a log took off the queue, and what it read from the daemon. */
  function Took(log: seq<Read>): seq<Command> {
    if log == [] then []
    else Took(log[..|log| - 1]) + if log[|log| - 1].FromUi? then [log[|log| - 1].c] else []
  }

  function Answers(log: seq<Read>): seq<Incoming<ReauthResponse>> {
    if log == [] then []
    else Answers(log[..|log| - 1]) + if log[|log| - 1].FromDaemon? then [log[|log| - 1].r] else []
  }

  /** How many frames each dial's peer accepts, none where nobody answers. */
  type Net = seq<Option<nat>>

  predicate Dials(net: Net, tries: nat) {
    tries < |net| && net[tries].Some?
  }

  /** Whether a frame gets through: on the current connection, or as the first of the next. */
  predicate Sends(net: Net, tries: nat, w: LockWorker, sent: seq<ReauthRequest>) {
    if Connected(w) then tries > 0 && Dials(net, tries - 1) && |sent| < net[tries - 1].value
    else Dials(net, tries) && net[tries].value > 0
  }

  function Current(d: Drove): seq<ReauthRequest>
    requires Connected(d.worker) ==> d.dialled != []
  {
    if Connected(d.worker) then d.dialled[|d.dialled| - 1] else []
  }

  /** The read has the fate of its dial and its write right. */
  predicate Rightly(net: Net, tries: nat, d: Drove, i: Read)
    requires Connected(d.worker) ==> d.dialled != []
  {
    i.sendOk == Sends(net, tries, d.worker, Current(d)) && (i.FromUi? ==> i.dialOk == Dials(net, tries))
  }

  /** How often a log dials. */
  function Tries(log: seq<Read>): nat {
    if log == [] then 0
    else
      var d := Drive(log[..|log| - 1]);
      Tries(log[..|log| - 1]) +
      if d.Some? && d.value.worker.Idle? && log[|log| - 1].FromUi? && log[|log| - 1].c == Authenticate then 1 else 0
  }

  /** All reads of the log have it right: given what was read, there is only one such log. */
  predicate Truthful(net: Net, log: seq<Read>) {
    log != [] ==>
      var before := log[..|log| - 1];
      Truthful(net, before) && Drive(before).Some? && Rightly(net, Tries(before), Drive(before).value, log[|log| - 1])
  }

  /** The automaton, having truly read `log` and dialled so often, is in `w`, having sent
      `requests` over its connections and emitted `emitted`. */
  ghost predicate Ran(net: Net, log: seq<Read>, tries: nat, w: LockWorker, requests: seq<seq<ReauthRequest>>,
                      emitted: seq<Message>)
  {
    Drive(log) == Some(Drove(w, requests, emitted)) && Truthful(net, log) && Tries(log) == tries
  }

  lemma ReadsSnoc(log: seq<Read>, i: Read)
    ensures i.FromUi? ==> Took(log + [i]) == Took(log) + [i.c] && Answers(log + [i]) == Answers(log)
    ensures i.FromDaemon? ==> Took(log + [i]) == Took(log) && Answers(log + [i]) == Answers(log) + [i.r]
  {
    assert (log + [i])[..|log|] == log;
  }

  lemma DriveSnoc(net: Net, log: seq<Read>, tries: nat, w: LockWorker, requests: seq<seq<ReauthRequest>>,
                  emitted: seq<Message>, i: Read)
    requires Ran(net, log, tries, w, requests, emitted) && Expects(w, i)
    requires Connected(w) ==> requests != []
    requires Rightly(net, tries, Drove(w, requests, emitted), i)
    ensures var s := Step(w, i);
            var tried := w.Idle? && i.c == Authenticate;
            Ran(net, log + [i], if tried then tries + 1 else tries, s.next, Sent(requests, w, s), emitted + s.emits)
  {
    hide Step, Rightly, Sent;
    assert (log + [i])[..|log|] == log;
  }

  lemma NoDial(w: LockWorker, i: Read)
    requires Connected(w) && Expects(w, i)
    ensures !Step(w, i).dials
  {
  }

  /** A read on a connection over which `sent` was sent. */
  lemma ConversationStep(net: Net, log: seq<Read>, tries: nat, w: LockWorker, done: seq<seq<ReauthRequest>>,
                         sent: seq<ReauthRequest>, emitted: seq<Message>, i: Read, s: WorkerStep)
    requires Ran(net, log, tries, w, done + [sent], emitted) && Connected(w)
    requires Expects(w, i) && Step(w, i) == s
    requires i.sendOk == Sends(net, tries, w, sent) && (i.FromUi? ==> i.dialOk == Dials(net, tries))
    ensures Ran(net, log + [i], tries, s.next, done + [sent + s.requests], emitted + s.emits)
    ensures s.requests == [] ==> sent + s.requests == sent
    ensures s.emits == [] ==> emitted + s.emits == emitted
    ensures i.FromUi? ==> Took(log + [i]) == Took(log) + [i.c] && Answers(log + [i]) == Answers(log)
    ensures i.FromDaemon? ==> Took(log + [i]) == Took(log) && Answers(log + [i]) == Answers(log) + [i.r]
  {
    hide Drive, Took, Answers, Step, Ran, Sends, Dials;
    ReadsSnoc(log, i);
    NoDial(w, i);
    assert (done + [sent])[..|done|] == done && (done + [sent])[|done|] == sent;
    DriveSnoc(net, log, tries, w, done + [sent], emitted, i);
  }

  /** A log's last read, and what went before it. */
  lemma LastOf(net: Net, log: seq<Read>)
    requires log != [] && Drive(log).Some? && Truthful(net, log)
    ensures var before, i := log[..|log| - 1], log[|log| - 1];
            && Drive(before).Some? && Truthful(net, before)
            && Expects(Drive(before).value.worker, i) && Rightly(net, Tries(before), Drive(before).value, i)
            && Took(log) == Took(before) + (if i.FromUi? then [i.c] else [])
            && Answers(log) == Answers(before) + (if i.FromDaemon? then [i.r] else [])
  {
    hide Rightly, Expects, Step, Sent;
  }

  lemma {:induction false} ReadsCounted(log: seq<Read>)
    ensures |Took(log)| + |Answers(log)| == |log|
  {
    if log != [] {
      ReadsCounted(log[..|log| - 1]);
    }
  }

  lemma SameRead(net: Net, d: Drove, tries: nat, i: Read, j: Read,
                 took: seq<Command>, answers: seq<Incoming<ReauthResponse>>,
                 allTook: seq<Command>, allAnswers: seq<Incoming<ReauthResponse>>)
    requires Connected(d.worker) ==> d.dialled != []
    requires Expects(d.worker, i) && Expects(d.worker, j) && Rightly(net, tries, d, i) && Rightly(net, tries, d, j)
    requires i.FromUi? ==> took + [i.c] <= allTook
    requires j.FromUi? ==> took + [j.c] <= allTook
    requires i.FromDaemon? ==> answers + [i.r] <= allAnswers
    requires j.FromDaemon? ==> answers + [j.r] <= allAnswers
    ensures i == j
  {
    hide Sends, Dials, Current;
    if i.FromUi? {
      assert allTook[|took|] == i.c && allTook[|took|] == j.c;
    } else {
      assert allAnswers[|answers|] == i.r && allAnswers[|answers|] == j.r;
    }
  }

  /** Two logs that read the same, as far as both go, are the same as far as both go. */
  lemma {:induction false} SamePrefix(net: Net, a: seq<Read>, b: seq<Read>,
                                      took: seq<Command>, answers: seq<Incoming<ReauthResponse>>)
    requires Truthful(net, a) && Drive(a).Some? && Truthful(net, b) && Drive(b).Some?
    requires Took(a) <= took && Took(b) <= took && Answers(a) <= answers && Answers(b) <= answers && |a| <= |b|
    ensures a <= b
    decreases |a| + |b|
  {
    hide Drive, Truthful, Took, Answers, Tries, Rightly, Expects;
    if a != [] {
      var a', b' := a[..|a| - 1], b[..|b| - 1];
      LastOf(net, a);
      LastOf(net, b);
      if |a| < |b| {
        SamePrefix(net, a, b', took, answers);
      } else {
        SamePrefix(net, a', b', took, answers);
        assert a' == b';
        SameRead(net, Drive(a').value, Tries(a'), a[|a'|], b[|b'|], Took(a'), Answers(a'), took, answers);
      }
    }
  }

  /** The commands taken and the responses read leave one log only, and so one set of requests
      and messages. */
  lemma ReadsDetermineLog(net: Net, a: seq<Read>, b: seq<Read>)
    requires Truthful(net, a) && Drive(a).Some? && Truthful(net, b) && Drive(b).Some?
    requires Took(a) == Took(b) && Answers(a) == Answers(b)
    ensures a == b
  {
    hide Drive, Truthful, Took, Answers;
    ReadsCounted(a);
    ReadsCounted(b);
    SamePrefix(net, a, b, Took(a), Answers(a));
  }

  /** The connection dialled last is this one. */
  ghost predicate Reaches(net: Net, tries: nat, stream: Wire<ReauthResponse, ReauthRequest>) {
    0 < tries <= |net| && net[tries - 1] == Some(stream.room)
  }

  // ---- What passes through a conversation ----

  /** One conversation as the socket, the queue and the screen saw it: frames read, messages
      emitted, commands taken, replies delivered. */
  datatype Talk = Talk(
    heard: seq<Incoming<ReauthResponse>>,
    told: seq<Message>,
    taken: seq<Command>,
    replies: seq<ReauthRequest>)

  /** What the screen is told of a frame. */
  predicate Tells(r: Incoming<ReauthResponse>, m: Message) {
    match r
    case Got(Prompt(Question(text, secret))) => m == Message.Prompt(text, secret)
    case Got(Prompt(Info(text))) => m == Notice(text)
    case Got(Prompt(Error(text))) => m == Notice(text)
    case Got(Allow) => m == AuthSucceeded
    case Got(Deny(reason)) => m == AuthFailed(reason)
    case _ => m == Fatal
  }

  function Questions(heard: seq<Incoming<ReauthResponse>>): nat {
    if heard == [] then 0
    else
      var last := heard[|heard| - 1];
      Questions(heard[..|heard| - 1]) +
      if last.Got? && last.msg.Prompt? && last.msg.prompt.Question? then 1 else 0
  }

  /** Every frame is told, in order, and each question met by the next command: a reply goes over
      the socket as it is. */
  predicate InStep(t: Talk) {
    && |t.told| == |t.heard| && (forall k :: 0 <= k < |t.heard| ==> Tells(t.heard[k], t.told[k]))
    && |t.replies| == |t.taken|
    && forall k :: 0 <= k < |t.replies| ==> t.replies[k].Reply? && t.taken[k] == Command.Reply(t.replies[k].response)
  }

  predicate EndsAsking(heard: seq<Incoming<ReauthResponse>>) {
    heard != [] && heard[|heard| - 1].Got? && heard[|heard| - 1].msg.Prompt? && heard[|heard| - 1].msg.prompt.Question?
  }

  /** A verdict, or what is taken for one, ends the conversation. */
  predicate Concluded(t: Talk) {
    InStep(t) && Questions(t.heard) == |t.taken| && t.heard != [] && !EndsAsking(t.heard)
  }

  /** The last question waits for a command that does not come. */
  predicate Starved(t: Talk) {
    InStep(t) && Questions(t.heard) == |t.taken| + 1 && EndsAsking(t.heard)
  }

  /** The last question met a command that is no reply, or a reply that could not be delivered,
      which the screen is told. */
  predicate BrokenOff(t: Talk, full: bool) {
    && t.taken != [] && EndsAsking(t.heard) && Questions(t.heard) == |t.taken|
    && var last := t.taken[|t.taken| - 1];
    && if last.Reply? then
         full && t.told != [] && t.told[|t.told| - 1] == DaemonError &&
         InStep(t.(taken := t.taken[..|t.taken| - 1], told := t.told[..|t.told| - 1]))
       else InStep(t.(taken := t.taken[..|t.taken| - 1]))
  }

  lemma NoTalk()
    ensures InStep(Talk([], [], [], [])) && Questions([]) == 0
  {
  }

  lemma HeardMore(t: Talk, r: Incoming<ReauthResponse>, sendOk: bool)
    requires InStep(t) && Questions(t.heard) == |t.taken|
    ensures var emits := Step(Reading, FromDaemon(r, sendOk)).emits;
            var u := t.(heard := t.heard + [r], told := t.told + emits);
            && |emits| == 1 && InStep(u)
            && (EndsAsking(u.heard) <==> r.Got? && r.msg.Prompt? && r.msg.prompt.Question?)
            && (EndsAsking(u.heard) ==> Starved(u))
            && (!EndsAsking(u.heard) ==> Questions(u.heard) == |t.taken| && Concluded(u))
  {
    assert (t.heard + [r])[..|t.heard|] == t.heard;
  }

  /** A frame of the conversation is read, and told. */
  lemma FrameHeard(net: Net, log: seq<Read>, tries: nat, done: seq<seq<ReauthRequest>>, sent: seq<ReauthRequest>,
                   emitted: seq<Message>, i: Read, t: Talk)
      returns (m: Message)
    requires Ran(net, log, tries, Reading, done + [sent], emitted)
    requires i.FromDaemon? && i.sendOk == Sends(net, tries, Reading, sent)
    requires InStep(t) && Questions(t.heard) == |t.taken|
    ensures Tells(i.r, m)
    ensures var next := if m.Prompt? then AwaitingReply else if m.Notice? then Reading else Idle;
            Ran(net, log + [i], tries, next, done + [sent], emitted + [m])
    ensures Took(log + [i]) == Took(log) && Answers(log + [i]) == Answers(log) + [i.r]
    ensures var u := t.(heard := t.heard + [i.r], told := t.told + [m]);
            if m.Prompt? then Starved(u)
            else Concluded(u) && InStep(u) && Questions(u.heard) == |u.taken|
  {
    hide Drive, Took, Answers, Ran, Sends, InStep, Questions, Starved, Concluded;
    var s := Step(Reading, i);
    ConversationStep(net, log, tries, Reading, done, sent, emitted, i, s);
    HeardMore(t, i.r, i.sendOk);
    m := s.emits[0];
    assert s.emits == [m];
  }

  lemma TookMore(t: Talk, c: Command, full: bool)
    requires Starved(t)
    ensures c.Reply? ==>
              && var u := t.(taken := t.taken + [c], replies := t.replies + [ReauthRequest.Reply(c.secret)]);
              && InStep(u) && Questions(u.heard) == |u.taken|
    ensures c.Reply? ==> BrokenOff(t.(taken := t.taken + [c], told := t.told + [DaemonError]), true)
    ensures !c.Reply? ==> BrokenOff(t.(taken := t.taken + [c]), full)
  {
    hide Tells, Questions, EndsAsking;
    assert (t.taken + [c])[..|t.taken|] == t.taken && (t.told + [DaemonError])[..|t.told|] == t.told;
  }

  class Client {
    const stream: Wire<ReauthResponse, ReauthRequest>

    constructor (stream: Wire<ReauthResponse, ReauthRequest>)
      ensures this.stream == stream
    {
      this.stream := stream;
    }

    /** Reads the daemon's greeting and begins an attempt. */
    method Begin(emitted: seq<Message>, ghost net: Net, ghost tries: nat,
                 ghost log: seq<Read>, ghost done: seq<seq<ReauthRequest>>)
        returns (open: bool, emitted': seq<Message>, ghost log': seq<Read>)
      requires stream.Valid() && stream.got == [] && Reaches(net, tries, stream)
      requires Ran(net, log, tries, Greeting, done + [stream.sent], emitted)
      modifies stream
      ensures stream.Valid() && Took(log') == Took(log) && Answers(log') == Answers(log) + stream.got
      ensures Ran(net, log', tries, if open then Reading else Idle, done + [stream.sent], emitted')
      ensures var first, full := ReadOf(stream.script, 0), |old(stream.sent)| == stream.room;
              var greeted := first.Got? && first.msg.Welcome?;
              && stream.got == [first] && (open <==> greeted && !full)
              && stream.sent == old(stream.sent) + Delivered(open, [ReauthRequest.Begin])
              && emitted' == emitted + if !greeted then [Fatal] else if full then [DaemonError] else []
    {
      hide Drive, Took, Answers, Ran;
      ghost var sent := stream.sent;
      ghost var sendOk := Sends(net, tries, Greeting, sent);
      var r := stream.Read();
      var ok := true;
      open := r.Got? && r.msg.Welcome?;
      if open {
        ok := stream.Write(ReauthRequest.Begin);
      }
      ghost var i := FromDaemon(r, sendOk);
      ConversationStep(net, log, tries, Greeting, done, sent, emitted, i, Step(Greeting, i));
      log' := log + [i];
      emitted' := emitted + if !open then [Fatal] else if !ok then [DaemonError] else [];
      open := open && ok;
    }

    /** The open question meets the next command. `over` says that this breaks the conversation
        off. */
    method TakeReply(commands: seq<Command>, emitted: seq<Message>, ghost net: Net, ghost tries: nat,
                     ghost log: seq<Read>, ghost done: seq<seq<ReauthRequest>>, ghost talk: Talk,
                     ghost sent0: seq<ReauthRequest>, ghost emitted0: seq<Message>)
        returns (over: bool, rest: seq<Command>, emitted': seq<Message>, ghost log': seq<Read>, ghost talk': Talk)
      requires stream.Valid() && commands != [] && Reaches(net, tries, stream)
      requires Ran(net, log, tries, AwaitingReply, done + [stream.sent], emitted) && Starved(talk)
      requires stream.sent == sent0 + talk.replies && emitted == emitted0 + talk.told
      modifies stream`sent
      ensures stream.Valid() && stream.Left() == old(stream.Left()) && rest == commands[1..]
      ensures Took(log') == Took(log) + [commands[0]] && Answers(log') == Answers(log)
      ensures Ran(net, log', tries, if over then Idle else Reading, done + [stream.sent], emitted')
      ensures talk'.heard == talk.heard && talk'.taken == talk.taken + [commands[0]]
      ensures stream.sent == sent0 + talk'.replies && emitted' == emitted0 + talk'.told
      ensures if over then BrokenOff(talk', |stream.sent| == stream.room)
              else InStep(talk') && Questions(talk'.heard) == |talk'.taken|
    {
      hide Drive, Took, Answers, Ran, InStep, Questions, Starved, BrokenOff, EndsAsking;
      ghost var sent := stream.sent;
      var c, ok := commands[0], true;
      rest, emitted' := commands[1..], emitted;
      if c.Reply? {
        ok := stream.Write(ReauthRequest.Reply(c.secret));
      }
      ghost var i := FromUi(c, Dials(net, tries), Sends(net, tries, AwaitingReply, sent));
      ConversationStep(net, log, tries, AwaitingReply, done, sent, emitted', i, Step(AwaitingReply, i));
      log' := log + [i];
      TookMore(talk, c, |stream.sent| == stream.room);
      talk' := talk.(taken := talk.taken + [c]);
      if !ok {
        talk' := talk'.(told := talk.told + [DaemonError]);
        emitted' := emitted' + [DaemonError];
      } else if c.Reply? {
        talk' := talk'.(replies := talk.replies + [ReauthRequest.Reply(c.secret)]);
      }
      over := !ok || !c.Reply?;
    }

    /** Relays one conversation: each question becomes a prompt message answered by the
        next command. Returns the commands left unread; `log` records its reads, and `talk` what
        passed through it. */
    method RunConversation(commands: seq<Command>, emitted: seq<Message>, ghost net: Net, ghost tries: nat,
                           ghost log: seq<Read>, ghost done: seq<seq<ReauthRequest>>)
        returns (rest: seq<Command>, emitted': seq<Message>, ghost log': seq<Read>, ghost talk: Talk)
      requires stream.Valid() && Ran(net, log, tries, Reading, done + [stream.sent], emitted)
      requires Reaches(net, tries, stream)
      modifies stream
      ensures stream.Valid()
      ensures Took(log') == Took(log) + talk.taken && Answers(log') == Answers(log) + talk.heard
      ensures Ran(net, log', tries, Idle, done + [stream.sent], emitted') ||
              (rest == [] && Ran(net, log', tries, AwaitingReply, done + [stream.sent], emitted'))
      ensures stream.got == old(stream.got) + talk.heard && stream.sent == old(stream.sent) + talk.replies
      ensures commands == talk.taken + rest && emitted' == emitted + talk.told
      ensures Concluded(talk) || (Starved(talk) && rest == []) || BrokenOff(talk, |stream.sent| == stream.room)
    {
      hide Drive, Took, Answers, Ran, Step, InStep, Questions, Concluded, Starved, BrokenOff, EndsAsking;
      rest, emitted', log', talk := commands, emitted, log, Talk([], [], [], []);
      ghost var sent0 := stream.sent;
      NoTalk();
      while true
        invariant stream.Valid()
        invariant Took(log') == Took(log) + talk.taken && Answers(log') == Answers(log) + talk.heard
        invariant Ran(net, log', tries, Reading, done + [stream.sent], emitted')
        invariant stream.got == old(stream.got) + talk.heard && stream.sent == sent0 + talk.replies
        invariant commands == talk.taken + rest && emitted' == emitted + talk.told
        invariant InStep(talk) && Questions(talk.heard) == |talk.taken|
        decreases stream.Left()
      {
        ghost var sent := stream.sent;
        var r := stream.Read();
        ghost var i := FromDaemon(r, Sends(net, tries, Reading, sent));
        ghost var m := FrameHeard(net, log', tries, done, sent, emitted', i, talk);
        log', talk := log' + [i], talk.(heard := talk.heard + [r], told := talk.told + [m]);
        match r {
          case Got(Prompt(Question(text, secret))) =>
            emitted' := emitted' + [Message.Prompt(text, secret)];
            if rest == [] {
              return;
            }
            var over;
            over, rest, emitted', log', talk := TakeReply(rest, emitted', net, tries, log', done, talk, sent0, emitted);
            if over {
              return;
            }
          case Got(Prompt(Info(text))) =>
            emitted' := emitted' + [Notice(text)];
          case Got(Prompt(Error(text))) =>
            emitted' := emitted' + [Notice(text)];
          case Got(Allow) =>
            emitted' := emitted' + [AuthSucceeded];
            return;
          case Got(Deny(reason)) =>
            emitted' := emitted' + [AuthFailed(reason)];
            return;
          case _ =>
            emitted' := emitted' + [Fatal];
            return;
        }
      }
    }
  }

  /** A socket the worker can dial: null where the daemon cannot be reached. */
  type Dial = Wire?<ReauthResponse, ReauthRequest>

  /** This is what the next dial reaches. */
  ghost predicate Offers(net: Net, tries: nat, dial: Dial) {
    if dial == null then !Dials(net, tries) else tries < |net| && net[tries] == Some(dial.room)
  }

  /** One more dial, and what its first frame comes to. */
  lemma DialStep(net: Net, log: seq<Read>, tries: nat, done: seq<seq<ReauthRequest>>, emitted: seq<Message>, i: Read)
    requires Ran(net, log, tries, Idle, done, emitted)
    requires i == FromUi(Authenticate, Dials(net, tries), Sends(net, tries, Idle, []))
    ensures if !i.dialOk then Ran(net, log + [i], tries + 1, Idle, done, emitted + [Fatal])
            else if !i.sendOk then Ran(net, log + [i], tries + 1, Idle, done + [[]], emitted + [Fatal])
            else Ran(net, log + [i], tries + 1, Greeting, done + [[ReauthRequest.Hello(PROTOCOL_VERSION)]], emitted)
    ensures Took(log + [i]) == Took(log) + [Authenticate] && Answers(log + [i]) == Answers(log)
  {
    hide Drive, Took, Answers, Ran, Sends, Dials;
    ReadsSnoc(log, i);
    DriveSnoc(net, log, tries, Idle, done, emitted, i);
    assert emitted + [] == emitted;
  }

  /** Dials, greets and begins: `Client::connect` and `begin`. */
  method Open(dial: Dial, emitted: seq<Message>, ghost net: Net, ghost tries: nat,
              ghost log: seq<Read>, ghost done: seq<seq<ReauthRequest>>)
      returns (client: Client?, open: bool, emitted': seq<Message>, ghost log': seq<Read>)
    requires Ran(net, log, tries, Idle, done, emitted) && Offers(net, tries, dial)
    requires dial != null ==> dial.Valid() && dial.Untouched()
    modifies dial
    ensures if dial == null then client == null else client != null && client.stream == dial && dial.Valid()
    ensures dial == null ==> !open && Ran(net, log', tries + 1, Idle, done, emitted')
    ensures dial != null ==>
              Ran(net, log', tries + 1, if open then Reading else Idle, done + [dial.sent], emitted')
    ensures dial == null || dial.room == 0 ==> !open && emitted' == emitted + [Fatal]
    ensures dial != null && dial.room == 0 ==> dial.got == [] && dial.sent == []
    ensures dial != null && dial.room > 0 ==>
              var first := ReadOf(dial.script, 0);
              var greeted := first.Got? && first.msg.Welcome?;
              && dial.got == [first] && (open <==> greeted && dial.room > 1)
              && dial.sent == [ReauthRequest.Hello(3)] + Delivered(open, [ReauthRequest.Begin])
              && emitted' == emitted + if !greeted then [Fatal] else if dial.room == 1 then [DaemonError] else []
    ensures Took(log') == Took(log) + [Authenticate]
    ensures Answers(log') == Answers(log) + if dial == null then [] else dial.got
  {
    hide Drive, Took, Answers, Ran;
    ghost var i := FromUi(Authenticate, Dials(net, tries), Sends(net, tries, Idle, []));
    DialStep(net, log, tries, done, emitted, i);
    log' := log + [i];
    if dial == null {
      return null, false, emitted + [Fatal], log';
    }
    var stream := dial;
    client := new Client(stream);
    var ok := stream.Write(ReauthRequest.Hello(PROTOCOL_VERSION));
    if !ok {
      assert stream.sent == [];
      return client, false, emitted + [Fatal], log';
    }
    assert stream.sent == [ReauthRequest.Hello(PROTOCOL_VERSION)];
    open, emitted', log' := client.Begin(emitted, net, tries + 1, log', done);
  }

  /** What came of one dial: the stray replies ignored before it, whether anybody answered, what
      was read and what was delivered, and the conversation with what the screen was told. */
  datatype Dialled = Dialled(
    strays: seq<Command>,
    connected: bool,
    got: seq<Incoming<ReauthResponse>>,
    sent: seq<ReauthRequest>,
    talk: Talk)

  /** One attempt, going by what was dialled: nobody there, nothing delivered, no greeting, no room
      for the second frame, or a conversation; the screen is told of every one but the last in one
      word, and of that word by word. */
  predicate Came(room: Option<nat>, d: Dialled) {
    if room == None then !d.connected && d.got == [] && d.sent == [] && d.talk == Talk([], [Fatal], [], [])
    else if room == Some(0) then d.connected && d.got == [] && d.sent == [] && d.talk == Talk([], [Fatal], [], [])
    else
      && d.connected && d.got != []
      && var greeted := d.got[0].Got? && d.got[0].msg.Welcome?;
      && if !greeted || room == Some(1) then
           && |d.got| == 1 && d.sent == [ReauthRequest.Hello(3)]
           && d.talk == Talk([], [if greeted then DaemonError else Fatal], [], [])
         else
           && d.got == [d.got[0]] + d.talk.heard
           && d.sent == [ReauthRequest.Hello(3), ReauthRequest.Begin] + d.talk.replies
           && (Concluded(d.talk) || Starved(d.talk) || BrokenOff(d.talk, room == Some(|d.sent|)))
  }

  ghost function Sockets(network: seq<Dial>): set<Dial> {
    set w | w in network && w != null
  }

  /** No socket is dialled twice, and from `next` on none has been used. */
  ghost predicate Ready(network: seq<Dial>, next: nat)
    reads Sockets(network)
  {
    && (forall i, j :: 0 <= i < j < |network| && network[i] != null ==> network[i] != network[j])
    && (forall i :: next <= i < |network| && network[i] != null ==> network[i].Untouched() && network[i].Valid())
  }

  /** This is what came of the first dials; past the network's end nobody answers. */
  ghost predicate Dialling(network: seq<Dial>, dialled: seq<Dialled>)
    reads Sockets(network)
  {
    forall k :: 0 <= k < |dialled| ==>
      if k >= |network| || network[k] == null then Came(None, dialled[k])
      else
        && dialled[k].got == network[k].got && dialled[k].sent == network[k].sent && network[k].Valid()
        && Came(Some(network[k].room), dialled[k])
  }

  /** Everything read over these connections, one after the other. */
  function HeardOver(dialled: seq<Dialled>): seq<Incoming<ReauthResponse>> {
    if dialled == [] then [] else HeardOver(dialled[..|dialled| - 1]) + dialled[|dialled| - 1].got
  }

  /** What was delivered over each connection that came about. */
  function SentOver(dialled: seq<Dialled>): seq<seq<ReauthRequest>> {
    if dialled == [] then []
    else
      var last := dialled[|dialled| - 1];
      SentOver(dialled[..|dialled| - 1]) + if last.connected then [last.sent] else []
  }

  /** The commands these attempts took off the queue, and all that the screen was told. */
  function SpentOn(dialled: seq<Dialled>): seq<Command> {
    if dialled == [] then []
    else
      var last := dialled[|dialled| - 1];
      SpentOn(dialled[..|dialled| - 1]) + last.strays + [Authenticate] + last.talk.taken
  }

  function ToldOver(dialled: seq<Dialled>): seq<Message> {
    if dialled == [] then [] else ToldOver(dialled[..|dialled| - 1]) + dialled[|dialled| - 1].talk.told
  }

  /** Only replies are ignored, and of the conversations only the last can be left open. */
  predicate Orderly(dialled: seq<Dialled>) {
    forall k :: 0 <= k < |dialled| ==>
      (forall c :: c in dialled[k].strays ==> c.Reply?) && (Starved(dialled[k].talk) ==> k == |dialled| - 1)
  }

  lemma DialledSnoc(dialled: seq<Dialled>, d: Dialled)
    ensures HeardOver(dialled + [d]) == HeardOver(dialled) + d.got
    ensures SentOver(dialled + [d]) == SentOver(dialled) + if d.connected then [d.sent] else []
    ensures SpentOn(dialled + [d]) == SpentOn(dialled) + d.strays + [Authenticate] + d.talk.taken
    ensures ToldOver(dialled + [d]) == ToldOver(dialled) + d.talk.told
  {
    assert (dialled + [d])[..|dialled|] == dialled;
  }

  predicate NoneStarved(dialled: seq<Dialled>) {
    forall d :: d in dialled ==> !Starved(d.talk)
  }

  lemma OrderlySnoc(dialled: seq<Dialled>, d: Dialled)
    requires Orderly(dialled) && NoneStarved(dialled) && forall c :: c in d.strays ==> c.Reply?
    ensures Orderly(dialled + [d]) && (!Starved(d.talk) ==> NoneStarved(dialled + [d]))
  {
    hide Starved;
    var all := dialled + [d];
    assert forall k :: 0 <= k < |dialled| ==> all[k] == dialled[k] && dialled[k] in dialled;
  }

  /** At rest between commands, or starved of a reply at the very end. */
  ghost predicate Rests(net: Net, log: seq<Read>, tries: nat, rest: seq<Command>,
                        requests: seq<seq<ReauthRequest>>, emitted: seq<Message>)
  {
    || Ran(net, log, tries, Idle, requests, emitted)
    || (rest == [] && Ran(net, log, tries, AwaitingReply, requests, emitted))
  }

  /** What the network has to offer. */
  ghost function Offered(network: seq<Dial>): Net {
    seq(|network|, i requires 0 <= i < |network| => if network[i] == null then None else Some(network[i].room))
  }

  /** One `Authenticate`: a fresh connection, and the conversation over it. */
  method Attempt(dial: Dial, commands: seq<Command>, emitted: seq<Message>, ghost net: Net, ghost tries: nat,
                 ghost log: seq<Read>, ghost done: seq<seq<ReauthRequest>>, ghost strays: seq<Command>)
      returns (rest: seq<Command>, emitted': seq<Message>, ghost log': seq<Read>, ghost d: Dialled)
    requires Ran(net, log, tries, Idle, done, emitted) && Offers(net, tries, dial)
    requires dial != null ==> dial.Valid() && dial.Untouched()
    modifies dial
    ensures dial != null ==> d.got == dial.got && d.sent == dial.sent && dial.Valid()
    ensures d.strays == strays && Came(if dial == null then None else Some(dial.room), d)
    ensures commands == d.talk.taken + rest && emitted' == emitted + d.talk.told && (Starved(d.talk) ==> rest == [])
    ensures |rest| <= |commands| && Took(log') + rest == Took(log) + [Authenticate] + commands
    ensures Answers(log') == Answers(log) + d.got
    ensures Rests(net, log', tries + 1, rest, done + if d.connected then [d.sent] else [], emitted')
  {
    hide Drive, Took, Answers, Ran, InStep, Questions, EndsAsking;
    var client, open;
    ghost var talk;
    NoTalk();
    rest := commands;
    client, open, emitted', log' := Open(dial, emitted, net, tries, log, done);
    if client == null {
      assert done + [] == done;
      return rest, emitted', log', Dialled(strays, false, [], [], Talk([], [Fatal], [], []));
    }
    talk := Talk([], emitted'[|emitted|..], [], []);
    if open {
      ghost var took, heard, got := Took(log'), Answers(log'), dial.got;
      rest, emitted', log', talk := client.RunConversation(rest, emitted', net, tries + 1, log', done);
      assert took + talk.taken + rest == took + commands;
      assert Answers(log) + got + talk.heard == Answers(log) + (got + talk.heard);
    }
    d := Dialled(strays, true, dial.got, dial.sent, talk);
  }

  /** The blocking worker: one fresh connection per `Authenticate`, stray replies ignored,
      until the command channel closes. The log is what was taken off the queue and read off
      the connections that were dialled, with the true fate of every dial and write, so it is
      the only one there can be; and everything sent over each of them and every message
      emitted is what the automaton makes of it. */
  method WorkerLoop(commands: seq<Command>, network: seq<Dial>)
      returns (emitted: seq<Message>, ghost log: seq<Read>, ghost dialled: seq<Dialled>, ghost strays: seq<Command>)
    requires Ready(network, 0)
    modifies Sockets(network)
    ensures Ready(network, |dialled|) && Dialling(network, dialled)
    ensures Took(log) == commands && Answers(log) == HeardOver(dialled)
    ensures Truthful(Offered(network), log) && Tries(log) == |dialled|
    ensures || Drive(log) == Some(Drove(Idle, SentOver(dialled), emitted))
            || Drive(log) == Some(Drove(AwaitingReply, SentOver(dialled), emitted))
    ensures AuthSucceeded in emitted ==> Allowed(network)
    ensures commands == SpentOn(dialled) + strays && (forall c :: c in strays ==> c.Reply?)
    ensures emitted == ToldOver(dialled) && Orderly(dialled)
  {
    hide Drive, Took, Answers, Rests, HeardOver, SentOver, Ran, Offers, Truthful, Tries, SpentOn, ToldOver;
    hide Came, Orderly, Starved, NoneStarved, Offered;
    var rest, next := commands, 0;
    ghost var net := Offered(network);
    emitted, log, dialled, strays := [], [], [], [];
    DriveNothing(net);
    while rest != []
      invariant Took(log) + rest == commands && Answers(log) == HeardOver(dialled)
      invariant |dialled| == next && Ready(network, next) && Dialling(network, dialled)
      invariant Rests(net, log, next, rest, SentOver(dialled), emitted)
      invariant commands == SpentOn(dialled) + strays + rest && (forall c :: c in strays ==> c.Reply?)
      invariant emitted == ToldOver(dialled) && Orderly(dialled) && (rest != [] ==> NoneStarved(dialled))
      decreases |rest|
    {
      AtRest(net, log, next, rest, SentOver(dialled), emitted);
      var c := rest[0];
      NextTaken(SpentOn(dialled), strays, Took(log), rest);
      rest := rest[1..];
      if c.Reply? {
        ghost var i := FromUi(c, Dials(net, next), Sends(net, next, Idle, []));
        StrayReply(net, log, next, i, rest, SentOver(dialled), emitted);
        log := log + [i];
        strays := strays + [c];
      } else {
        var dial := if next < |network| then network[next] else null;
        NextOffered(network, next, dial);
        ghost var d;
        rest, emitted, log, d := Attempt(dial, rest, emitted, net, next, log, SentOver(dialled), strays);
        AttemptTaken(SpentOn(dialled) + strays, d.talk.taken, rest);
        next := next + 1;
        DialledSnoc(dialled, d);
        OrderlySnoc(dialled, d);
        dialled, strays := dialled + [d], [];
      }
    }
    AtTheEnd(net, log, next, rest, SentOver(dialled), emitted);
    SuccessIsAllowed(network, dialled, log);
  }

  lemma NextTaken(spent: seq<Command>, strays: seq<Command>, took: seq<Command>, rest: seq<Command>)
    requires rest != []
    ensures spent + strays + rest == spent + (strays + [rest[0]]) + rest[1..]
    ensures spent + strays + rest == spent + strays + [rest[0]] + rest[1..]
    ensures took + rest == took + [rest[0]] + rest[1..]
  {
  }

  lemma AttemptTaken(before: seq<Command>, taken: seq<Command>, rest: seq<Command>)
    ensures before + [Authenticate] + (taken + rest) == before + [Authenticate] + taken + [] + rest
  {
  }

  lemma NextOffered(network: seq<Dial>, next: nat, dial: Dial)
    requires dial == if next < |network| then network[next] else null
    ensures Offers(Offered(network), next, dial)
  {
  }

  lemma AtRest(net: Net, log: seq<Read>, tries: nat, rest: seq<Command>, requests: seq<seq<ReauthRequest>>,
               emitted: seq<Message>)
    requires Rests(net, log, tries, rest, requests, emitted) && rest != []
    ensures Ran(net, log, tries, Idle, requests, emitted)
  {
  }

  lemma AtTheEnd(net: Net, log: seq<Read>, tries: nat, rest: seq<Command>, requests: seq<seq<ReauthRequest>>,
                 emitted: seq<Message>)
    requires Rests(net, log, tries, rest, requests, emitted)
    ensures || Drive(log) == Some(Drove(Idle, requests, emitted))
            || Drive(log) == Some(Drove(AwaitingReply, requests, emitted))
    ensures Truthful(net, log) && Tries(log) == tries
  {
  }

  /** A reply outside a conversation is ignored. */
  lemma StrayReply(net: Net, log: seq<Read>, tries: nat, i: Read, rest: seq<Command>,
                   requests: seq<seq<ReauthRequest>>, emitted: seq<Message>)
    requires Ran(net, log, tries, Idle, requests, emitted) && i.FromUi? && i.c.Reply?
    requires i.dialOk == Dials(net, tries) && i.sendOk == Sends(net, tries, Idle, [])
    ensures Rests(net, log + [i], tries, rest, requests, emitted)
    ensures Took(log + [i]) == Took(log) + [i.c] && Answers(log + [i]) == Answers(log)
  {
    hide Drive, Took, Answers, Ran, Sends, Dials;
    ReadsSnoc(log, i);
    DriveSnoc(net, log, tries, Idle, requests, emitted, i);
    assert emitted + [] == emitted;
  }

  /** Some daemon that was dialled really sent an `Allow`. */
  ghost predicate Allowed(network: seq<Dial>)
    reads Sockets(network)
  {
    exists k :: 0 <= k < |network| && network[k] != null && Got(ReauthResponse.Allow) in network[k].got
  }

  lemma {:induction false} SuccessHeard(log: seq<Read>)
    requires Drive(log).Some? && AuthSucceeded in Drive(log).value.emitted
    ensures Got(ReauthResponse.Allow) in Answers(log)
  {
    var before, i := log[..|log| - 1], log[|log| - 1];
    var d := Drive(before).value;
    assert AuthSucceeded in d.emitted || AuthSucceeded in Step(d.worker, i).emits;
    assert Answers(log) == Answers(before) + if i.FromDaemon? then [i.r] else [];
    hide Drive, Step, Answers;
    if AuthSucceeded in d.emitted {
      SuccessHeard(before);
    } else {
      SuccessStep(d.worker, i);
    }
  }

  lemma SuccessStep(w: LockWorker, i: Read)
    requires Expects(w, i) && AuthSucceeded in Step(w, i).emits
    ensures i.FromDaemon? && i.r == Got(ReauthResponse.Allow)
  {
  }

  lemma {:induction false} HeardOverSome(dialled: seq<Dialled>, r: Incoming<ReauthResponse>) returns (k: nat)
    requires r in HeardOver(dialled)
    ensures k < |dialled| && r in dialled[k].got
  {
    k := |dialled| - 1;
    if r !in dialled[k].got {
      k := HeardOverSome(dialled[..k], r);
    }
  }

  lemma SuccessIsAllowed(network: seq<Dial>, dialled: seq<Dialled>, log: seq<Read>)
    requires Dialling(network, dialled) && Answers(log) == HeardOver(dialled) && Drive(log).Some?
    ensures AuthSucceeded in Drive(log).value.emitted ==> Allowed(network)
  {
    hide Drive;
    if AuthSucceeded in Drive(log).value.emitted {
      SuccessHeard(log);
      var k := HeardOverSome(dialled, Got(ReauthResponse.Allow));
    }
  }

  lemma DriveNothing(net: Net)
    ensures Took([]) == [] && Answers([]) == [] && SentOver([]) == [] && HeardOver([]) == []
    ensures SpentOn([]) == [] && ToldOver([]) == [] && Orderly([]) && NoneStarved([])
    ensures forall rest :: Rests(net, [], 0, rest, [], [])
  {
  }
}

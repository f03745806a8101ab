/** The per-login session worker: the process that holds the PAM transaction. It is
    modelled by its control states; PAM itself is the arbitrary source of `PamMove`s. */
module PamWorker {
  import opened Protocol

  /** The two faults a conversation can latch. */
  type Fault = v: Verdict | v == Verdict.Cancelled || v == Verdict.Transport
    witness Verdict.Transport

  /** `account` says that the password check has passed and the account check is under way. */
  datatype Worker =
    | Idle(authed: Option<string>)
    | Conversing(user: string, authed: Option<string>, fault: Option<Fault>, account: bool)
    | Asking(user: string, authed: Option<string>, account: bool)
    | Exited

  /** What the PAM stack does next. `Return` is the check at hand having returned, the
      password's or the account's; `Broken` is a worker that could not even set the
      conversation up. */
  datatype PamMove =
    | Ask(text: string, secret: bool)
    | NotifyInfo(text: string)
    | NotifyError(text: string)
    | Return(passed: bool)
    | Broken

  datatype Moved = Moved(next: Worker, out: seq<WorkerEvent>)

  /** The verdict of an attempt once a check has returned, if there is one yet. A latched
      cancel or transport fault wins over whatever the password check returned; one that is
      only latched during the account check is not looked at any more. */
  function VerdictOf(w: Worker, passed: bool): (v: Option<Verdict>)
    requires w.Conversing?
    ensures v == Some(Verdict.Success) <==> passed && w.account
    ensures v == None <==> passed && !w.account && w.fault.None?
  {
    if w.account then Some(if passed then Verdict.Success else Verdict.Failure)
    else if w.fault.Some? then Some(w.fault.value)
    else if passed then None
    else Some(Verdict.Failure)
  }

  /** One PAM call made while the worker converses; `ok` says whether the daemon's end
      of the control socket accepts the frame. */
  function Move(w: Worker, m: PamMove, ok: bool): Moved
    requires w.Conversing?
  {
    match m
    case Ask(text, secret) =>
      if w.fault.Some? then Moved(w, [])
      else if ok then Moved(Asking(w.user, w.authed, w.account), [WorkerEvent.Prompt(text, secret)])
      else Moved(w.(fault := Some(Verdict.Transport)), [])
    case NotifyInfo(text) =>
      Moved(w, Delivered(ok && w.fault.None?, [WorkerEvent.Info(text)]))
    case NotifyError(text) =>
      Moved(w, Delivered(ok && w.fault.None?, [WorkerEvent.Error(text)]))
    case Return(passed) =>
      var v := VerdictOf(w, passed);
      if v.None? then Moved(Conversing(w.user, w.authed, None, true), [])
      else
        var authed := if v.value == Verdict.Success then Some(w.user) else w.authed;
        Moved(if ok then Idle(authed) else Exited, Delivered(ok, [WorkerEvent.Auth(v.value)]))
    case Broken =>
      Moved(if ok then Idle(w.authed) else Exited,
            Delivered(ok, [WorkerEvent.Auth(Verdict.Transport)]))
  }

  /** The worker blocks reading the control socket in exactly these states. */
  predicate Reading(w: Worker) {
    w.Idle? || w.Asking?
  }

  /** A command (or the end of the control socket) reaches a reading worker. The reauth
      path never sends `Start`; `launches` says whether opening the session worked. */
  function Receive(w: Worker, c: Incoming<WorkerCommand>, launches: bool): Moved
    requires Reading(w)
  {
    match w
    case Idle(authed) =>
      (match c
       case Got(Auth(u)) => Moved(Conversing(u, authed, None, false), [])
       case Got(Start(_)) =>
         if authed.Some? && launches then Moved(Exited, [WorkerEvent.Started])
         else Moved(w, [WorkerEvent.StartFailed])
       case Got(_) => Moved(w, [])
       case _ => Moved(Exited, []))
    case Asking(user, authed, account) =>
      (match c
       case Got(Reply(_)) => Moved(Conversing(user, authed, None, account), [])
       case Got(Cancel) => Moved(Conversing(user, authed, Some(Verdict.Cancelled), account), [])
       case _ => Moved(Conversing(user, authed, Some(Verdict.Transport), account), []))
  }

  /** A cancel or a lost connection decides the attempt exactly if it came during the password
      check. One that comes during the account check may even be followed by success. */
  lemma FaultDecidesIff(w: Worker, passed: bool)
    requires w.Conversing? && w.fault.Some?
    ensures VerdictOf(w, passed) == Some(w.fault.value) <==> !w.account
    ensures var cancelled := Receive(Asking(w.user, w.authed, true), Got(WorkerCommand.Cancel), false).next;
            Move(cancelled, Return(true), true).out == [WorkerEvent.Auth(Verdict.Success)]
  {
  }

  // ---- A check from its start ----

  /** What PAM does during one check, and what comes of it: a question, delivered or not, with what
      is read in answer, or a notice. */
  datatype Call =
    | Asks(text: string, secret: bool, ok: bool, answer: Incoming<WorkerCommand>)
    | Notes(text: string, error: bool, ok: bool)

  function Called(w: Worker, call: Call): Moved
    requires w.Conversing?
    ensures Called(w, call).next.Conversing?
  {
    match call
    case Asks(text, secret, ok, answer) =>
      var m := Move(w, Ask(text, secret), ok);
      if m.next.Asking? then Moved(Receive(m.next, answer, false).next, m.out) else m
    case Notes(text, error, ok) => Move(w, if error then NotifyError(text) else NotifyInfo(text), ok)
  }

  /** The worker after these calls, and the frames it got delivered. */
  function Checked(w: Worker, calls: seq<Call>): Moved
    requires w.Conversing?
    ensures Checked(w, calls).next.Conversing?
  {
    if calls == [] then Moved(w, [])
    else
      var before := Checked(w, calls[..|calls| - 1]);
      var last := Called(before.next, calls[|calls| - 1]);
      Moved(last.next, before.out + last.out)
  }

  /** A question that is delivered and met by a reply. */
  predicate Fine(call: Call) {
    call.Notes? || (call.ok && call.answer.Got? && call.answer.msg.Reply?)
  }

  /** How far the check goes before the first question that goes wrong. */
  function FineCalls(calls: seq<Call>): (n: nat)
    ensures n <= |calls| && (forall k :: 0 <= k < n ==> Fine(calls[k])) && (n < |calls| ==> !Fine(calls[n]))
  {
    if calls == [] || !Fine(calls[0]) then 0 else 1 + FineCalls(calls[1..])
  }

  /** What the daemon is told of a call made while nothing has gone wrong. */
  function Frame(call: Call): seq<WorkerEvent> {
    if !call.ok then []
    else if call.Asks? then [WorkerEvent.Prompt(call.text, call.secret)]
    else if call.error then [WorkerEvent.Error(call.text)]
    else [WorkerEvent.Info(call.text)]
  }

  function Frames(calls: seq<Call>): seq<WorkerEvent> {
    if calls == [] then [] else Frames(calls[..|calls| - 1]) + Frame(calls[|calls| - 1])
  }

  /** A whole check: every question and notice up to the first question that goes wrong is passed
      on, that question included, and nothing after it. What is latched is that first failure: a
      cancel if that was the answer, a transport fault in every other case. */
  lemma {:induction false} CheckMeans(user: string, authed: Option<string>, account: bool, calls: seq<Call>)
    ensures var n := FineCalls(calls);
            var m := Checked(Conversing(user, authed, None, account), calls);
            if n == |calls| then m == Moved(Conversing(user, authed, None, account), Frames(calls))
            else
              && m.out == Frames(calls[..n + 1])
              && m.next == Conversing(user, authed,
                                      if calls[n].ok && calls[n].answer == Got(WorkerCommand.Cancel)
                                      then Some(Verdict.Cancelled) else Some(Verdict.Transport), account)
  {
    hide Called, Frame, Fine, FineCalls;
    NoCalls();
    if calls != [] {
      var front, last := calls[..|calls| - 1], calls[|calls| - 1];
      CheckMeans(user, authed, account, front);
      FineFront(calls);
      CallMeans(user, authed, None, account, last);
      CallMeans(user, authed, Some(Verdict.Cancelled), account, last);
      CallMeans(user, authed, Some(Verdict.Transport), account, last);
      assert calls[..|calls|] == calls;
      assert Frames(calls) == Frames(front) + Frame(last);
      assert forall out: seq<WorkerEvent> :: out + [] == out;
    }
  }

  lemma CallMeans(user: string, authed: Option<string>, fault: Option<Fault>, account: bool, call: Call)
    ensures var w := Conversing(user, authed, fault, account);
            Called(w, call) ==
            if fault.Some? then Moved(w, [])
            else if Fine(call) then Moved(w, Frame(call))
            else
              Moved(w.(fault := if call.ok && call.answer == Got(WorkerCommand.Cancel) then Some(Verdict.Cancelled)
                                else Some(Verdict.Transport)), Frame(call))
  {
  }

  lemma NoCalls()
    ensures FineCalls([]) == 0
  {
  }

  lemma {:induction false} FineFront(calls: seq<Call>)
    requires calls != []
    ensures var front, n := calls[..|calls| - 1], FineCalls(calls);
            if n < |front| then FineCalls(front) == n && front[..n + 1] == calls[..n + 1]
            else FineCalls(front) == |front|
  {
    if |calls| > 1 && Fine(calls[0]) {
      FineFront(calls[1..]);
      assert calls[1..][..|calls| - 2] == calls[..|calls| - 1][1..];
    }
  }

  /** How a check that has gone so far ends. The password check must pass with nothing latched for
      the account check to follow; every other end is a verdict, and only the account check's can
      be success. After a verdict that cannot be delivered the worker is gone. */
  lemma ReturnMeans(user: string, authed: Option<string>, fault: Option<Fault>, account: bool, passed: bool, ok: bool)
    ensures var m := Move(Conversing(user, authed, fault, account), Return(passed), ok);
            if passed && !account && fault == None then m == Moved(Conversing(user, authed, None, true), [])
            else
              var v := if account then if passed then Verdict.Success else Verdict.Failure
                       else if fault.Some? then fault.value
                       else Verdict.Failure;
              m == if ok then Moved(Idle(if account && passed then Some(user) else authed), [WorkerEvent.Auth(v)])
                   else Moved(Exited, [])
    ensures Move(Conversing(user, authed, fault, account), Broken, ok) ==
            if ok then Moved(Idle(authed), [WorkerEvent.Auth(Verdict.Transport)]) else Moved(Exited, [])
  {
  }

  /** Between conversations: a name to test starts one, a session is started for an accepted user
      only and only if it can be, stray answers are ignored, and anything else ends the worker. */
  lemma IdleReads(authed: Option<string>, c: Incoming<WorkerCommand>, launches: bool)
    ensures var m := Receive(Idle(authed), c, launches);
            if c.Got? && c.msg.Auth? then m == Moved(Conversing(c.msg.username, authed, None, false), [])
            else if c.Got? && c.msg.Start? then
              if authed != None && launches then m == Moved(Exited, [WorkerEvent.Started])
              else m == Moved(Idle(authed), [WorkerEvent.StartFailed])
            else if c.Got? then m == Moved(Idle(authed), [])
            else m == Moved(Exited, [])
  {
  }
}

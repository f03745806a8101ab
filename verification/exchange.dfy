/** One attempt as its two sockets saw it: what the worker said and was written, and which of the
    client's frames and the client's screen that was. */
module Exchanges {
  import opened Protocol

  /** Everything read from the worker and delivered to it, the client's frames read in between,
      and the frames the client was shown. */
  datatype Exchange = Exchange(
    got: seq<Incoming<WorkerEvent>>,
    sent: seq<WorkerCommand>,
    answers: seq<Incoming<ReauthRequest>>,
    shown: seq<ReauthResponse>)

  function Min(a: nat, b: nat): nat {
    if a < b then a else b
  }

  /** How many questions the worker put. */
  function Prompts(got: seq<Incoming<WorkerEvent>>): nat {
    if got == [] then 0
    else
      var last := got[|got| - 1];
      Prompts(got[..|got| - 1]) + if last.Got? && last.msg.Prompt? then 1 else 0
  }

  /** What the worker has to say to the person, as the client is to be told. */
  function Chatter(got: seq<Incoming<WorkerEvent>>): seq<ReauthResponse> {
    if got == [] then []
    else
      Chatter(got[..|got| - 1]) +
      match got[|got| - 1]
      case Got(Prompt(text, secret)) => [ReauthResponse.Prompt(Question(text, secret))]
      case Got(Info(text)) => [ReauthResponse.Prompt(AuthPrompt.Info(text))]
      case Got(Error(text)) => [ReauthResponse.Prompt(AuthPrompt.Error(text))]
      case _ => []
  }

  lemma GotMore(got: seq<Incoming<WorkerEvent>>, ev: Incoming<WorkerEvent>)
    ensures Prompts(got + [ev]) == Prompts(got) + if ev.Got? && ev.msg.Prompt? then 1 else 0
    ensures ev.Got? && ev.msg.Prompt? ==>
              Chatter(got + [ev]) == Chatter(got) + [ReauthResponse.Prompt(Question(ev.msg.text, ev.msg.secret))]
    ensures ev.Got? && ev.msg.Info? ==>
              Chatter(got + [ev]) == Chatter(got) + [ReauthResponse.Prompt(AuthPrompt.Info(ev.msg.text))]
    ensures ev.Got? && ev.msg.Error? ==>
              Chatter(got + [ev]) == Chatter(got) + [ReauthResponse.Prompt(AuthPrompt.Error(ev.msg.text))]
    ensures !ev.Got? || ev.msg.Auth? || ev.msg.Started? || ev.msg.StartFailed? ==> Chatter(got + [ev]) == Chatter(got)
  {
    assert (got + [ev])[..|got|] == got;
    assert Chatter(got) + [] == Chatter(got);
  }

  predicate IsMove(req: Incoming<ReauthRequest>) {
    req.Got? && (req.msg.Reply? || req.msg.Cancel?)
  }

  /** Prompt by prompt: the worker is told to test this name, and then, for each of its questions,
      the very text of the client's frame that met it if that was a reply, and to cancel in every
      other case; as far as it accepts frames. */
  predicate Commanded(name: string, room: nat, x: Exchange, due: nat) {
    && |x.sent| == Min(room, due)
    && (x.sent != [] ==> x.sent[0] == WorkerCommand.Auth(name))
    && forall j :: 1 <= j < |x.sent| ==>
         x.sent[j] == if j - 1 < |x.answers| && x.answers[j - 1].Got? && x.answers[j - 1].msg.Reply?
                      then WorkerCommand.Reply(x.answers[j - 1].msg.response)
                      else WorkerCommand.Cancel
  }

  /** The client is shown what the worker says, word for word and in order, as far as it accepts
      frames. */
  predicate Shown(left: nat, x: Exchange) {
    x.shown <= Chatter(x.got) && |x.shown| == Min(left, |Chatter(x.got)|)
  }

  /** No question is open: each was shown, and met by a move of the client's. */
  predicate Settled(name: string, room: nat, left: nat, x: Exchange) {
    && Commanded(name, room, x, 1 + Prompts(x.got)) && Shown(left, x)
    && |x.answers| == Prompts(x.got) && forall a :: a in x.answers ==> IsMove(a)
  }

  /** The last question was shown, and awaits the client's move. */
  predicate Asking(name: string, room: nat, left: nat, x: Exchange) {
    && Commanded(name, room, x, Prompts(x.got)) && Shown(left, x)
    && |x.answers| + 1 == Prompts(x.got) && forall a :: a in x.answers ==> IsMove(a)
  }

  /** A whole attempt. All questions but the last were met by a move; the last may have been met
      by anything, or have found no client to be shown to. */
  predicate Carried(name: string, room: nat, left: nat, x: Exchange) {
    && Commanded(name, room, x, 1 + Prompts(x.got)) && Shown(left, x)
    && |x.answers| <= Prompts(x.got) <= |x.answers| + 1
    && (|x.answers| < Prompts(x.got) ==> |x.shown| < |Chatter(x.got)|)
    && forall j :: 0 <= j < |x.answers| - 1 ==> IsMove(x.answers[j])
  }

  /** The client was not there for the last question, or broke off. */
  predicate Vanished(x: Exchange) {
    |x.answers| < Prompts(x.got) || (x.answers != [] && !IsMove(x.answers[|x.answers| - 1]))
  }

  lemma Opened(name: string, room: nat, left: nat)
    ensures room > 0 ==> Settled(name, room, left, Exchange([], [WorkerCommand.Auth(name)], [], []))
    ensures room == 0 ==> Carried(name, room, left, Exchange([], [], [], []))
  {
  }

  lemma SettledIsCarried(name: string, room: nat, left: nat, x: Exchange)
    requires Settled(name, room, left, x)
    ensures Carried(name, room, left, x) && !Vanished(x)
  {
    hide Commanded, Prompts, Chatter;
    assert forall j :: 0 <= j < |x.answers| ==> x.answers[j] in x.answers;
  }

  lemma CommandedAlike(name: string, room: nat, x: Exchange, y: Exchange, due: nat)
    requires Commanded(name, room, x, due) && y.sent == x.sent && y.answers == x.answers
    ensures Commanded(name, room, y, due)
  {
  }

  /** The worker says something that is no question. */
  lemma Noticed(name: string, room: nat, left: nat, x: Exchange, ev: Incoming<WorkerEvent>, more: seq<ReauthResponse>)
    requires Settled(name, room, left, x) && !(ev.Got? && ev.msg.Prompt?)
    requires Chatter(x.got + [ev]) == Chatter(x.got) + more && |more| <= 1
    ensures Settled(name, room, left, x.(got := x.got + [ev], shown := x.shown + Delivered(|x.shown| < left, more)))
  {
    hide Commanded, Chatter, Prompts;
    GotMore(x.got, ev);
    var y := x.(got := x.got + [ev], shown := x.shown + Delivered(|x.shown| < left, more));
    CommandedAlike(name, room, x, y, 1 + Prompts(x.got));
  }

  /** The worker puts a question, and it is shown or not. */
  lemma Put(name: string, room: nat, left: nat, x: Exchange, text: string, secret: bool)
    requires Settled(name, room, left, x)
    ensures var got := x.got + [Got(WorkerEvent.Prompt(text, secret))];
            var question := ReauthResponse.Prompt(Question(text, secret));
            if |x.shown| < left then Asking(name, room, left, x.(got := got, shown := x.shown + [question]))
            else
              var y := x.(got := got, sent := x.sent + Delivered(|x.sent| < room, [WorkerCommand.Cancel]));
              Carried(name, room, left, y) && Vanished(y)
  {
    hide Chatter, Prompts;
    GotMore(x.got, Got(WorkerEvent.Prompt(text, secret)));
    assert forall j :: 0 <= j < |x.answers| ==> x.answers[j] in x.answers;
  }

  /** The client's frame meets the question. */
  lemma Met(name: string, room: nat, left: nat, x: Exchange, req: Incoming<ReauthRequest>)
    requires Asking(name, room, left, x)
    ensures var reply := req.Got? && req.msg.Reply?;
            var cmd := if reply then WorkerCommand.Reply(req.msg.response) else WorkerCommand.Cancel;
            var y := x.(sent := x.sent + Delivered(|x.sent| < room, [cmd]), answers := x.answers + [req]);
            if IsMove(req) then Settled(name, room, left, y) else Carried(name, room, left, y) && Vanished(y)
  {
    hide Chatter, Prompts;
    assert forall j :: 0 <= j < |x.answers| ==> x.answers[j] in x.answers;
  }
}

/** What becomes of an answer on its way: from the screen through the command queue, the
    connection, the handler and the control channel to the worker whose question it is. */
module Answers {
  import opened Protocol
  import opened PamWorker
  import opened Reauth
  import opened UnlockSystem
  import L = Locker

  /** A question of PAM's, and what was given in answer to it. */
  datatype Query = Query(text: string, secret: bool)
  datatype Given = Given(query: Query, answer: string)

  /** What a run leaves behind: for each attempt of the lock screen the answers given on the
      screen, and for each connection the questions its worker has put and the replies it has
      received. */
  datatype History = History(given: seq<seq<Given>>, asked: seq<seq<Query>>, received: seq<seq<string>>)

  function Noted<T>(all: seq<seq<T>>, k: nat, x: T): seq<seq<T>> {
    if k < |all| then all[k := all[k] + [x]] else all
  }

  /** A press begins an attempt; an answer is given by submitting the field of the open question,
      or by a password typed ahead of a question that hides its answer. */
  function OnScreen(ui: L.Ui, m: L.Message, alive: bool, given: seq<seq<Given>>): seq<seq<Given>> {
    if m == L.UnlockPressed && ui.phase == L.Locked && ui.ready && alive then given + [[]]
    else if given == [] then given
    else if m == L.PromptSubmitted && ui.prompt.Some? then
      var field := ui.prompt.value;
      Noted(given, |given| - 1, Given(Query(field.text, field.secret), field.value))
    else if m.Prompt? && m.secret && ui.password != "" then
      Noted(given, |given| - 1, Given(Query(m.text, true), ui.password))
    else given
  }

  function Record(s: Sys, a: Act, h: History, dials: bool): History {
    match a
    case Person(m) => h.(given := OnScreen(s.ui, m, s.thread != L.Dead, h.given))
    case Deliver =>
      if s.messages == [] then h else h.(given := OnScreen(s.ui, s.messages[0], s.thread != L.Dead, h.given))
    case ThreadReads(_) => if dials then h.(asked := h.asked + [[]], received := h.received + [[]]) else h
    case Connects(_) => h.(asked := h.asked + [[]], received := h.received + [[]])
    case WorkerReads(k, c) =>
      if k < |s.conns| && s.conns[k].worker.Asking? && c.Got? && c.msg.Reply?
      then h.(received := Noted(h.received, k, c.msg.response)) else h
    case PamMoves(k, m, ok) =>
      if k < |s.conns| && s.conns[k].worker.Conversing? && s.conns[k].worker.fault.None? && m.Ask? && ok
      then h.(asked := Noted(h.asked, k, Query(m.text, m.secret))) else h
    case _ => h
  }

  /** The history of a run. */
  function Told(w: World, dev: bool, acts: seq<Act>): History
    requires Run(w, Init(dev), acts).Some?
  {
    if acts == [] then History([], [], [])
    else
      var before := acts[..|acts| - 1];
      var s := Run(w, Init(dev), before).value;
      Record(s, acts[|acts| - 1], Told(w, dev, before),
             |Run(w, Init(dev), acts).value.conns| > |s.conns|)
  }

  // ---- What is under way ----

  /** What a frame or message carries: the replies among the commands and requests, the questions
      among the events, responses and messages. */
  function OfCommand(c: L.Command): seq<string> {
    if c.Reply? then [c.secret] else []
  }

  function OfRequest(r: ReauthRequest): seq<string> {
    if r.Reply? then [r.response] else []
  }

  function OfWorkerCommand(c: WorkerCommand): seq<string> {
    if c.Reply? then [c.response] else []
  }

  function OfEvent(e: WorkerEvent): seq<Query> {
    if e.Prompt? then [Query(e.text, e.secret)] else []
  }

  function OfResponse(r: ReauthResponse): seq<Query> {
    if r.Prompt? && r.prompt.Question? then [Query(r.prompt.text, r.prompt.secret)] else []
  }

  function OfMessage(m: L.Message): seq<Query> {
    if m.Prompt? then [Query(m.text, m.secret)] else []
  }

  function CommandReplies(s: seq<L.Command>): seq<string> {
    if s == [] then [] else OfCommand(s[0]) + CommandReplies(s[1..])
  }

  lemma {:induction false} CommandRepliesMore(s: seq<L.Command>, x: L.Command)
    ensures CommandReplies(s + [x]) == CommandReplies(s) + OfCommand(x)
  {
    if s == [] {
      assert s + [x] == [x] && [x][1..] == [];
    } else {
      assert (s + [x])[0] == s[0] && (s + [x])[1..] == s[1..] + [x];
      CommandRepliesMore(s[1..], x);
    }
  }

  function RequestReplies(s: seq<ReauthRequest>): seq<string> {
    if s == [] then [] else OfRequest(s[0]) + RequestReplies(s[1..])
  }

  lemma {:induction false} RequestRepliesMore(s: seq<ReauthRequest>, x: ReauthRequest)
    ensures RequestReplies(s + [x]) == RequestReplies(s) + OfRequest(x)
  {
    if s == [] {
      assert s + [x] == [x] && [x][1..] == [];
    } else {
      assert (s + [x])[0] == s[0] && (s + [x])[1..] == s[1..] + [x];
      RequestRepliesMore(s[1..], x);
    }
  }

  function WorkerReplies(s: seq<WorkerCommand>): seq<string> {
    if s == [] then [] else OfWorkerCommand(s[0]) + WorkerReplies(s[1..])
  }

  lemma {:induction false} WorkerRepliesMore(s: seq<WorkerCommand>, x: WorkerCommand)
    ensures WorkerReplies(s + [x]) == WorkerReplies(s) + OfWorkerCommand(x)
  {
    if s == [] {
      assert s + [x] == [x] && [x][1..] == [];
    } else {
      assert (s + [x])[0] == s[0] && (s + [x])[1..] == s[1..] + [x];
      WorkerRepliesMore(s[1..], x);
    }
  }

  function EventQueries(s: seq<WorkerEvent>): seq<Query> {
    if s == [] then [] else OfEvent(s[0]) + EventQueries(s[1..])
  }

  lemma {:induction false} EventQueriesMore(s: seq<WorkerEvent>, x: WorkerEvent)
    ensures EventQueries(s + [x]) == EventQueries(s) + OfEvent(x)
  {
    if s == [] {
      assert s + [x] == [x] && [x][1..] == [];
    } else {
      assert (s + [x])[0] == s[0] && (s + [x])[1..] == s[1..] + [x];
      EventQueriesMore(s[1..], x);
    }
  }

  lemma EventQueriesFirst(s: seq<WorkerEvent>)
    requires s != []
    ensures EventQueries(s) == OfEvent(s[0]) + EventQueries(s[1..])
  {
  }

  function ResponseQueries(s: seq<ReauthResponse>): seq<Query> {
    if s == [] then [] else OfResponse(s[0]) + ResponseQueries(s[1..])
  }

  lemma {:induction false} ResponseQueriesMore(s: seq<ReauthResponse>, x: ReauthResponse)
    ensures ResponseQueries(s + [x]) == ResponseQueries(s) + OfResponse(x)
  {
    if s == [] {
      assert s + [x] == [x] && [x][1..] == [];
    } else {
      assert (s + [x])[0] == s[0] && (s + [x])[1..] == s[1..] + [x];
      ResponseQueriesMore(s[1..], x);
    }
  }

  lemma ResponseQueriesFirst(s: seq<ReauthResponse>)
    requires s != []
    ensures ResponseQueries(s) == OfResponse(s[0]) + ResponseQueries(s[1..])
  {
  }

  function MessageQueries(s: seq<L.Message>): seq<Query> {
    if s == [] then [] else OfMessage(s[0]) + MessageQueries(s[1..])
  }

  lemma {:induction false} MessageQueriesMore(s: seq<L.Message>, x: L.Message)
    ensures MessageQueries(s + [x]) == MessageQueries(s) + OfMessage(x)
  {
    if s == [] {
      assert s + [x] == [x] && [x][1..] == [];
    } else {
      assert (s + [x])[0] == s[0] && (s + [x])[1..] == s[1..] + [x];
      MessageQueriesMore(s[1..], x);
    }
  }

  lemma MessageQueriesFirst(s: seq<L.Message>)
    requires s != []
    ensures MessageQueries(s) == OfMessage(s[0]) + MessageQueries(s[1..])
  {
  }

  /** The replies on their way to the worker, foremost first. */
  function ReplyFlight(c: Conn): seq<string> {
    WorkerReplies(c.cmds) + RequestReplies(c.up)
  }

  /** The questions on their way from it. */
  function QueryFlight(c: Conn): seq<Query> {
    ResponseQueries(c.down) + EventQueries(c.events)
  }

  function AtScreen(prompt: Option<L.PromptField>, messages: seq<L.Message>): seq<Query> {
    (if prompt.Some? then [Query(prompt.value.text, prompt.value.secret)] else []) + MessageQueries(messages)
  }

  function Answers(g: seq<Given>): seq<string> {
    seq(|g|, j requires 0 <= j < |g| => g[j].answer)
  }

  function Queries(g: seq<Given>): seq<Query> {
    seq(|g|, j requires 0 <= j < |g| => g[j].query)
  }

  /** Each of these replies is what was given in answer to the question in its place. */
  predicate Meets(g: seq<Given>, asked: seq<Query>, replies: seq<string>) {
    && |replies| <= |g| && |replies| <= |asked|
    && forall j :: 0 <= j < |replies| ==> g[j] == Given(asked[j], replies[j])
  }

  /** The attempt's worker may still put questions. */
  predicate Live(c: Conn) {
    || c.begun == 0
    || (InAttempt(c.handler) &&
        (AuthUnderway(c) || c.worker.Asking? || (c.worker.Conversing? && c.worker.fault.None?)))
  }

  predicate ConnTells(c: Conn, g: seq<Given>, asked: seq<Query>, received: seq<string>) {
    && Meets(g, asked, received)
    && (Live(c) ==> Meets(g, asked, received + ReplyFlight(c)) && |asked| == |received| + Num(c.worker.Asking?))
    && (!InAttempt(c.handler) ==> c.worker.Exited?)
    && (c.begun == 0 ==> !InAttempt(c.handler) && c.cmds == [] && c.events == [] && asked == [] && received == []
                         && ReplyFlight(c) == [] && QueryFlight(c) == [])
  }

  /** Nothing is lost between screen and worker. */
  predicate Chain(c: Conn, g: seq<Given>, asked: seq<Query>, received: seq<string>,
                  replies: seq<string>, open: seq<Query>)
  {
    Live(c) ==>
      received + ReplyFlight(c) + replies == Answers(g) && asked == Queries(g) + (open + QueryFlight(c))
  }

  lemma ChainMeets(c: Conn, g: seq<Given>, asked: seq<Query>, received: seq<string>,
                   replies: seq<string>, open: seq<Query>)
    requires Chain(c, g, asked, received, replies, open) && Live(c)
    ensures Meets(g, asked, received + ReplyFlight(c))
  {
    hide ReplyFlight, QueryFlight, Live;
    var told := received + ReplyFlight(c);
    assert told + replies == Answers(g);
    forall j | 0 <= j < |told|
      ensures g[j] == Given(asked[j], told[j])
    {
      assert told[j] == (told + replies)[j] == Answers(g)[j] && asked[j] == Queries(g)[j];
    }
  }

  lemma MeetsLonger(g: seq<Given>, asked: seq<Query>, replies: seq<string>, g': seq<Given>, asked': seq<Query>)
    requires Meets(g, asked, replies) && g <= g' && asked <= asked'
    ensures Meets(g', asked', replies)
  {
  }

  // ---- The daemon's side ----

  /** What the handler passes on while an attempt goes on, and between attempts. */
  lemma HandlerPasses(h: Handler, who: Option<string>, i: Heard)
    requires Expects(h, i)
    ensures var s := React(h, who, i);
            && (!InAttempt(h) ==> |s.toClient| <= 1 && (s.toClient != [] ==> !s.toClient[0].Prompt?))
            && (!InAttempt(h) && InAttempt(s.next) ==> i.FromClient? && i.req.Got? && s.toClient == [] &&
                                                       s.toWorker == [WorkerCommand.Auth(s.next.name)])
            && (InAttempt(h) && InAttempt(s.next) && i.FromClient? ==>
                  && s.toClient == [] && i.req.Got?
                  && (|| (i.req.msg.Reply? && s.toWorker == [WorkerCommand.Reply(i.req.msg.response)])
                      || (i.req.msg.Cancel? && (s.toWorker == [] || s.toWorker == [WorkerCommand.Cancel]))))
            && (InAttempt(h) && InAttempt(s.next) && i.FromWorker? ==>
                  && s.toWorker == [] && i.ev.Got?
                  && (|| (i.ev.msg.Prompt? &&
                          s.toClient == [ReauthResponse.Prompt(AuthPrompt.Question(i.ev.msg.text, i.ev.msg.secret))])
                      || ((i.ev.msg.Info? || i.ev.msg.Error?) && |s.toClient| <= 1 &&
                          (s.toClient != [] ==> s.toClient[0].Prompt? && !s.toClient[0].prompt.Question?))))
  {
  }

  lemma HandlerCarries(w: World, c: Conn, i: Heard, g: seq<Given>, asked: seq<Query>, received: seq<string>,
                       replies: seq<string>, open: seq<Query>)
    requires Expects(c.handler, i) && SingleBegin(c) && ConnTells(c, g, asked, received)
    requires i.FromClient? ==> Available(i.req, c.up)
    requires i.FromWorker? ==> Available(i.ev, c.events)
    ensures ConnTells(HandlerNext(w, c, i), g, asked, received)
    ensures Chain(c, g, asked, received, replies, open) ==>
              Chain(HandlerNext(w, c, i), g, asked, received, replies, open)
  {
    var d := HandlerNext(w, c, i);
    HandlerFlight(w, c, i);
    HandlerLives(w, c, i);
    hide HandlerNext, ReplyFlight, QueryFlight, Live, Meets, SingleBegin;
  }

  lemma HandlerLives(w: World, c: Conn, i: Heard)
    requires Expects(c.handler, i) && SingleBegin(c)
    requires i.FromClient? ==> Available(i.req, c.up)
    requires i.FromWorker? ==> Available(i.ev, c.events)
    requires c.begun == 0 ==> !InAttempt(c.handler) && c.cmds == [] && c.events == []
    ensures var d := HandlerNext(w, c, i);
            && (Live(d) ==> Live(c))
            && (d.begun == 0 ==> c.begun == 0 && !InAttempt(d.handler) && d.cmds == [] && d.events == [])
  {
    HandlerKeepsSingleBegin(w, c, i);
    HandlerPasses(c.handler, Resolve(w, c.uid), i);
    hide React, SingleBegin;
  }

  /** Nothing on its way is lost, doubled or overtaken in the handler, as long as the worker may
      still ask. */
  lemma HandlerFlight(w: World, c: Conn, i: Heard)
    requires Expects(c.handler, i) && SingleBegin(c)
    requires i.FromClient? ==> Available(i.req, c.up)
    requires i.FromWorker? ==> Available(i.ev, c.events)
    requires c.begun == 0 ==> !InAttempt(c.handler) && c.cmds == [] && c.events == [] && ReplyFlight(c) == []
    ensures var d := HandlerNext(w, c, i);
            Live(d) ==> ReplyFlight(d) == ReplyFlight(c) && QueryFlight(d) == QueryFlight(c)
  {
    hide HandlerNext, ReplyFlight, QueryFlight, React;
    HandlerLives(w, c, i);
    if Live(HandlerNext(w, c, i)) {
      if !InAttempt(c.handler) {
        FlightOutside(w, c, i);
      } else if InAttempt(HandlerNext(w, c, i).handler) {
        if i.FromClient? {
          FlightFromClient(w, c, i);
        } else {
          FlightFromWorker(w, c, i);
        }
      } else {
        NeverBegun(w, c, i);
      }
    }
  }

  lemma NeverBegun(w: World, c: Conn, i: Heard)
    requires Expects(c.handler, i) && InAttempt(c.handler) && c.begun > 0
    requires i.FromClient? ==> Available(i.req, c.up)
    requires i.FromWorker? ==> Available(i.ev, c.events)
    ensures !InAttempt(HandlerNext(w, c, i).handler) ==> !Live(HandlerNext(w, c, i))
  {
    hide React;
  }

  lemma FlightOutside(w: World, c: Conn, i: Heard)
    requires Expects(c.handler, i) && i.FromClient? && Available(i.req, c.up)
    requires !InAttempt(c.handler) && c.cmds == [] && c.events == [] && ReplyFlight(c) == []
    ensures var d := HandlerNext(w, c, i);
            ReplyFlight(d) == ReplyFlight(c) && QueryFlight(d) == QueryFlight(c)
  {
    hide React;
    var s := React(c.handler, Resolve(w, c.uid), i);
    HandlerPasses(c.handler, Resolve(w, c.uid), i);
    if s.toClient != [] {
      ResponseQueriesMore(c.down, s.toClient[0]);
      assert s.toClient == [s.toClient[0]];
    } else {
      assert c.down + s.toClient == c.down;
    }
    ReactionWrites(c.handler, Resolve(w, c.uid), i);
    if s.toWorker != [] {
      WorkerRepliesMore([], s.toWorker[0]);
      assert s.toWorker == [s.toWorker[0]];
    } else {
      assert [] + s.toWorker == [];
    }
    assert [] + s.toWorker == s.toWorker;
  }

  lemma FlightFromClient(w: World, c: Conn, i: Heard)
    requires Expects(c.handler, i) && i.FromClient? && Available(i.req, c.up)
    requires InAttempt(c.handler) && InAttempt(HandlerNext(w, c, i).handler)
    ensures var d := HandlerNext(w, c, i);
            ReplyFlight(d) == ReplyFlight(c) && QueryFlight(d) == QueryFlight(c)
  {
    hide React;
    var s := React(c.handler, Resolve(w, c.uid), i);
    HandlerPasses(c.handler, Resolve(w, c.uid), i);
    if s.toWorker != [] {
      WorkerRepliesMore(c.cmds, s.toWorker[0]);
      assert s.toWorker == [s.toWorker[0]];
    } else {
      assert c.cmds + s.toWorker == c.cmds;
    }
    assert c.down + [] == c.down;
  }

  lemma FlightFromWorker(w: World, c: Conn, i: Heard)
    requires Expects(c.handler, i) && i.FromWorker? && Available(i.ev, c.events)
    requires InAttempt(c.handler) && InAttempt(HandlerNext(w, c, i).handler)
    ensures var d := HandlerNext(w, c, i);
            ReplyFlight(d) == ReplyFlight(c) && QueryFlight(d) == QueryFlight(c)
  {
    hide React, EventQueries, ResponseQueries, WorkerReplies, RequestReplies;
    var s := React(c.handler, Resolve(w, c.uid), i);
    HandlerPasses(c.handler, Resolve(w, c.uid), i);
    EventQueriesFirst(c.events);
    if s.toClient != [] {
      ResponseQueriesMore(c.down, s.toClient[0]);
      assert s.toClient == [s.toClient[0]];
    } else {
      assert c.down + s.toClient == c.down;
    }
    assert c.cmds + [] == c.cmds;
  }

  // ---- The worker's side ----

  function Receives(c: Conn, cmd: Incoming<WorkerCommand>): seq<string> {
    if c.worker.Asking? && cmd.Got? && cmd.msg.Reply? then [cmd.msg.response] else []
  }

  function Puts(c: Conn, m: PamMove, ok: bool): seq<Query> {
    if c.worker.Conversing? && c.worker.fault.None? && m.Ask? && ok then [Query(m.text, m.secret)] else []
  }

  lemma WorkerCarries(w: World, c: Conn, cmd: Incoming<WorkerCommand>, g: seq<Given>, asked: seq<Query>,
                      received: seq<string>, replies: seq<string>, open: seq<Query>)
    requires ConnInv(w, c) && Reading(c.worker) && Available(cmd, c.cmds) && ConnTells(c, g, asked, received)
    ensures ConnTells(WorkerNext(c, cmd), g, asked, received + Receives(c, cmd))
    ensures Chain(c, g, asked, received, replies, open) ==>
              Chain(WorkerNext(c, cmd), g, asked, received + Receives(c, cmd), replies, open)
  {
    hide ConnInv, WorkerNext, ReplyFlight, QueryFlight, Live, Receives, Answers, Queries;
    WorkerFlight(w, c, cmd);
    var more, d := Receives(c, cmd), WorkerNext(c, cmd);
    assert received + more + ReplyFlight(d) == received + (more + ReplyFlight(d));
    if more == [] {
      assert received + more == received;
    } else {
      MeetsShorter(g, asked, received + more, ReplyFlight(d));
    }
  }

  lemma MeetsShorter(g: seq<Given>, asked: seq<Query>, replies: seq<string>, more: seq<string>)
    requires Meets(g, asked, replies + more)
    ensures Meets(g, asked, replies)
  {
    assert forall j :: 0 <= j < |replies| ==> (replies + more)[j] == replies[j];
  }

  lemma WorkerFlight(w: World, c: Conn, cmd: Incoming<WorkerCommand>)
    requires ConnInv(w, c) && Reading(c.worker) && Available(cmd, c.cmds) && InAttempt(c.handler) && c.begun > 0
    ensures var d := WorkerNext(c, cmd);
            && (Live(d) ==> Live(c))
            && (Receives(c, cmd) != [] ==> Live(c))
            && (Live(d) ==> |Receives(c, cmd)| + Num(d.worker.Asking?) == Num(c.worker.Asking?))
            && d.begun == c.begun && d.handler == c.handler
            && (Live(d) || Receives(c, cmd) != [] ==>
                  Receives(c, cmd) + ReplyFlight(d) == ReplyFlight(c) && QueryFlight(d) == QueryFlight(c))
  {
    var d := WorkerNext(c, cmd);
    assert AuthUnderway(d) ==> AuthUnderway(c);
    assert d.events == c.events + [] == c.events;
    if cmd.Got? {
      assert forall x :: x in d.cmds ==> IsAnswer(x);
    }
  }

  lemma PamCarries(w: World, c: Conn, m: PamMove, ok: bool, g: seq<Given>, asked: seq<Query>,
                   received: seq<string>, replies: seq<string>, open: seq<Query>)
    requires ConnInv(w, c) && c.worker.Conversing? && ConnTells(c, g, asked, received)
    ensures ConnTells(PamNext(c, m, ok), g, asked + Puts(c, m, ok), received)
    ensures Chain(c, g, asked, received, replies, open) ==>
              Chain(PamNext(c, m, ok), g, asked + Puts(c, m, ok), received, replies, open)
  {
    hide ConnInv, PamNext, ReplyFlight, QueryFlight, Live, Meets, Puts, Answers, Queries;
    PamFlight(w, c, m, ok);
    var more := Puts(c, m, ok);
    MeetsLonger(g, asked, received, g, asked + more);
    if Live(PamNext(c, m, ok)) {
      MeetsLonger(g, asked, received + ReplyFlight(c), g, asked + more);
      assert Queries(g) + (open + QueryFlight(c)) + more == Queries(g) + (open + (QueryFlight(c) + more));
    }
  }

  lemma PamFlight(w: World, c: Conn, m: PamMove, ok: bool)
    requires ConnInv(w, c) && c.worker.Conversing? && InAttempt(c.handler) && c.begun > 0
    ensures var d := PamNext(c, m, ok);
            && (Live(d) ==> Live(c))
            && d.begun == c.begun && d.handler == c.handler && ReplyFlight(d) == ReplyFlight(c)
            && (Live(d) ==> QueryFlight(d) == QueryFlight(c) + Puts(c, m, ok))
            && (Live(d) ==> |Puts(c, m, ok)| == Num(d.worker.Asking?))
  {
    var d := PamNext(c, m, ok);
    assert AuthUnderway(d) ==> AuthUnderway(c);
    if Move(c.worker, m, ok).out != [] {
      EventQueriesMore(c.events, Move(c.worker, m, ok).out[0]);
      assert Move(c.worker, m, ok).out == [Move(c.worker, m, ok).out[0]];
    } else {
      assert c.events + Move(c.worker, m, ok).out == c.events;
    }
  }

  // ---- The whole system ----

  predicate Carrying(s: Sys, h: History) {
    && |h.given| == s.attempts && |h.asked| == |s.conns| == |h.received|
    && (forall k :: 0 <= k < |s.conns| && s.conns[k].owner.LockScreen? ==>
          && 1 <= s.conns[k].owner.attempt <= s.attempts
          && ConnTells(s.conns[k], h.given[s.conns[k].owner.attempt - 1], h.asked[k], h.received[k]))
    && (L.Connected(s.thread) ==>
          && s.current < |s.conns| && s.conns[s.current].owner == LockScreen(s.attempts)
          && Chain(s.conns[s.current], h.given[s.attempts - 1], h.asked[s.current], h.received[s.current],
                   CommandReplies(s.commands), AtScreen(s.ui.prompt, s.messages)))
    && (s.commands == [L.Authenticate] ==> s.attempts >= 1 && h.given[s.attempts - 1] == [])
  }

  lemma OneConnCarries(s: Sys, h: History, k: nat, c: Conn, asked: seq<Query>, received: seq<string>)
    requires Carrying(s, h) && k < |s.conns| && c.owner == s.conns[k].owner
    requires c.owner.LockScreen? ==> ConnTells(c, h.given[c.owner.attempt - 1], asked, received)
    requires c.owner.LockScreen? ==>
               var g := h.given[c.owner.attempt - 1];
               forall replies, open {:trigger Chain(c, g, asked, received, replies, open)} ::
                 Chain(s.conns[k], g, h.asked[k], h.received[k], replies, open) ==>
                 Chain(c, g, asked, received, replies, open)
    ensures Carrying(s.(conns := s.conns[k := c]),
                     h.(asked := h.asked[k := asked], received := h.received[k := received]))
  {
    hide ConnTells, Chain, AtScreen;
  }

  lemma HandlerStepCarries(w: World, s: Sys, h: History, k: nat, i: Heard)
    requires Inv(w, s) && Carrying(s, h) && Enabled(s, HandlerReads(k, i))
    ensures Carrying(Next(w, s, HandlerReads(k, i)), h)
  {
    hide Turn, UnlocksGranted, ConnInv, SingleBegin, Fresh, HandlerNext, Chain, ConnTells, Expects;
    var c, d := s.conns[k], HandlerNext(w, s.conns[k], i);
    HandlerKeepsSingleBegin(w, c, i);
    if c.owner.LockScreen? {
      var g := h.given[c.owner.attempt - 1];
      forall replies, open
        ensures ConnTells(d, g, h.asked[k], h.received[k])
        ensures Chain(c, g, h.asked[k], h.received[k], replies, open) ==>
                  Chain(d, g, h.asked[k], h.received[k], replies, open)
      {
        HandlerCarries(w, c, i, g, h.asked[k], h.received[k], replies, open);
      }
      HandlerCarries(w, c, i, g, h.asked[k], h.received[k], [], []);
    }
    OneConnCarries(s, h, k, d, h.asked[k], h.received[k]);
    assert h.asked[k := h.asked[k]] == h.asked && h.received[k := h.received[k]] == h.received;
  }

  lemma WorkerStepCarries(w: World, s: Sys, h: History, k: nat, cmd: Incoming<WorkerCommand>)
    requires Inv(w, s) && Carrying(s, h) && Enabled(s, WorkerReads(k, cmd))
    ensures Carrying(Next(w, s, WorkerReads(k, cmd)), Record(s, WorkerReads(k, cmd), h, false))
  {
    hide Turn, UnlocksGranted, ConnInv, SingleBegin, Fresh, WorkerNext, Chain, ConnTells;
    var c, d := s.conns[k], WorkerNext(s.conns[k], cmd);
    var received := h.received[k] + Receives(c, cmd);
    SameOwner(c, cmd);
    if c.owner.LockScreen? {
      var g := h.given[c.owner.attempt - 1];
      forall replies, open
        ensures Chain(c, g, h.asked[k], h.received[k], replies, open) ==>
                  Chain(d, g, h.asked[k], received, replies, open)
      {
        WorkerCarries(w, c, cmd, g, h.asked[k], h.received[k], replies, open);
      }
      WorkerCarries(w, c, cmd, g, h.asked[k], h.received[k], [], []);
    }
    OneConnCarries(s, h, k, d, h.asked[k], received);
    assert h.asked[k := h.asked[k]] == h.asked;
    assert h.received[k] + [] == h.received[k] && h.received[k := h.received[k]] == h.received;
  }

  lemma SameOwner(c: Conn, cmd: Incoming<WorkerCommand>)
    requires Reading(c.worker) && Available(cmd, c.cmds)
    ensures WorkerNext(c, cmd).owner == c.owner
  {
  }

  lemma PamStepCarries(w: World, s: Sys, h: History, k: nat, m: PamMove, ok: bool)
    requires Inv(w, s) && Carrying(s, h) && Enabled(s, PamMoves(k, m, ok))
    ensures Carrying(Next(w, s, PamMoves(k, m, ok)), Record(s, PamMoves(k, m, ok), h, false))
  {
    hide Turn, UnlocksGranted, ConnInv, SingleBegin, Fresh, PamNext, Chain, ConnTells;
    var c, d := s.conns[k], PamNext(s.conns[k], m, ok);
    var asked := h.asked[k] + Puts(c, m, ok);
    SameOwnerToo(c, m, ok);
    if c.owner.LockScreen? {
      var g := h.given[c.owner.attempt - 1];
      forall replies, open
        ensures Chain(c, g, h.asked[k], h.received[k], replies, open) ==>
                  Chain(d, g, asked, h.received[k], replies, open)
      {
        PamCarries(w, c, m, ok, g, h.asked[k], h.received[k], replies, open);
      }
      PamCarries(w, c, m, ok, g, h.asked[k], h.received[k], [], []);
    }
    OneConnCarries(s, h, k, d, asked, h.received[k]);
    assert h.asked[k] + [] == h.asked[k] && h.asked[k := h.asked[k]] == h.asked;
    assert h.received[k := h.received[k]] == h.received;
  }

  lemma SameOwnerToo(c: Conn, m: PamMove, ok: bool)
    requires c.worker.Conversing?
    ensures PamNext(c, m, ok).owner == c.owner
  {
  }

  // ---- The screen's side ----

  function LastGiven(given: seq<seq<Given>>): seq<Given> {
    if given == [] then [] else given[|given| - 1]
  }

  /** What one message does on the screen while the worker thread is in an attempt: nothing that
      matters here, or the question in front is answered, and the answer goes to the queue. */
  ghost predicate Answered(given: seq<seq<Given>>, replies: seq<string>, open: seq<Query>,
                           given': seq<seq<Given>>, replies': seq<string>, open': seq<Query>)
    requires given != []
  {
    || (given' == given && replies' == replies && open' == open)
    || exists q, x :: Hands(given, given', replies, replies', open, open', q, x)
  }

  predicate Hands(given: seq<seq<Given>>, given': seq<seq<Given>>, replies: seq<string>, replies': seq<string>,
                  open: seq<Query>, open': seq<Query>, q: Query, x: string)
    requires given != []
  {
    given' == Noted(given, |given| - 1, Given(q, x)) && replies' == replies + [x] && open == [q] + open'
  }

  /** How the screen and its queues stand while the thread is in an attempt. */
  lemma InTheAttempt(s: Sys)
    requires Turn(s) && L.Connected(s.thread)
    ensures s.ui.ready && s.ui.phase == L.Authenticating && (s.ui.prompt.Some? ==> s.commands == [])
    ensures s.messages != [] ==>
              if s.messages[0].Prompt? then s.ui.prompt.None? && s.commands == [] else Hushed(s.messages[0])
  {
    hide Quiet, Front, Last;
    if s.messages != [] {
      TakeFirst(s.messages);
    }
  }

  lemma PersonAnswers(ui: L.Ui, m: L.Message, messages: seq<L.Message>, commands: seq<L.Command>,
                      given: seq<seq<Given>>)
    requires ui.ready && ui.phase == L.Authenticating && L.FromPerson(m) && given != []
    ensures var h := L.Update(ui, m, true);
            Answered(given, CommandReplies(commands), AtScreen(ui.prompt, messages),
                     OnScreen(ui, m, true, given), CommandReplies(commands + h.sent), AtScreen(h.ui.prompt, messages))
  {
    hide MessageQueries, CommandReplies;
    var h := L.Update(ui, m, true);
    if m == L.PromptSubmitted && ui.prompt.Some? {
      var field := ui.prompt.value;
      CommandRepliesMore(commands, L.Command.Reply(field.value));
      assert Hands(given, OnScreen(ui, m, true, given), CommandReplies(commands), CommandReplies(commands + h.sent),
                   AtScreen(ui.prompt, messages), AtScreen(h.ui.prompt, messages),
                   Query(field.text, field.secret), field.value);
    } else {
      assert commands + [] == commands;
    }
  }

  lemma DeliveryAnswers(ui: L.Ui, messages: seq<L.Message>, commands: seq<L.Command>, given: seq<seq<Given>>)
    requires ui.ready && ui.phase == L.Authenticating && given != [] && messages != []
    requires if messages[0].Prompt? then ui.prompt.None? else Hushed(messages[0])
    ensures var m := messages[0];
            var h := L.Update(ui, m, true);
            Answered(given, CommandReplies(commands), AtScreen(ui.prompt, messages), OnScreen(ui, m, true, given),
                     CommandReplies(commands + h.sent), AtScreen(h.ui.prompt, messages[1..]))
  {
    hide MessageQueries, CommandReplies;
    var m, rest := messages[0], messages[1..];
    var h := L.Update(ui, m, true);
    MessageQueriesFirst(messages);
    if m.Prompt? && m.secret && ui.password != "" {
      CommandRepliesMore(commands, L.Command.Reply(ui.password));
      assert Hands(given, OnScreen(ui, m, true, given), CommandReplies(commands), CommandReplies(commands + h.sent),
                   AtScreen(ui.prompt, messages), AtScreen(h.ui.prompt, rest), Query(m.text, true), ui.password);
    } else {
      assert commands + [] == commands;
    }
  }

  /** The question in front is answered, and the answer joins the replies under way. */
  lemma ChainShifts(c: Conn, given: seq<seq<Given>>, given': seq<seq<Given>>, asked: seq<Query>, received: seq<string>,
                    replies: seq<string>, replies': seq<string>, open: seq<Query>, open': seq<Query>,
                    q: Query, x: string)
    requires given != [] && Hands(given, given', replies, replies', open, open', q, x)
    requires Chain(c, LastGiven(given), asked, received, replies, open)
    ensures Chain(c, LastGiven(given'), asked, received, replies', open')
  {
    hide Live, ReplyFlight, QueryFlight;
    var g, g' := LastGiven(given), LastGiven(given');
    assert g' == g + [Given(q, x)];
    assert Answers(g') == Answers(g) + [x] && Queries(g') == Queries(g) + [q];
    if Live(c) {
      assert received + ReplyFlight(c) + replies' == received + ReplyFlight(c) + replies + [x];
      assert Queries(g) + (([q] + open') + QueryFlight(c)) == Queries(g) + [q] + (open' + QueryFlight(c));
    }
  }

  lemma ChainAnswered(c: Conn, given: seq<seq<Given>>, given': seq<seq<Given>>, asked: seq<Query>,
                      received: seq<string>, replies: seq<string>, replies': seq<string>,
                      open: seq<Query>, open': seq<Query>)
    requires given != [] && Answered(given, replies, open, given', replies', open')
    requires Chain(c, LastGiven(given), asked, received, replies, open)
    ensures Chain(c, LastGiven(given'), asked, received, replies', open')
  {
    hide Chain, Hands;
    if q, x :| Hands(given, given', replies, replies', open, open', q, x) {
      ChainShifts(c, given, given', asked, received, replies, replies', open, open', q, x);
    }
  }

  predicate Press(ui: L.Ui, m: L.Message, alive: bool) {
    m == L.UnlockPressed && ui.phase == L.Locked && ui.ready && alive
  }

  lemma OnScreenGrows(ui: L.Ui, m: L.Message, alive: bool, given: seq<seq<Given>>)
    ensures var given' := OnScreen(ui, m, alive, given);
            && |given'| == |given| + Num(Press(ui, m, alive))
            && (Press(ui, m, alive) ==> given' == given + [[]])
            && (forall k :: 0 <= k < |given| ==> given[k] <= given'[k])
            && (ui.prompt.None? && !m.Prompt? && !Press(ui, m, alive) ==> given' == given)
  {
  }

  lemma ShowsCounted(s: Sys, m: L.Message)
    ensures var s' := Shows(s, m);
            && s'.attempts == s.attempts + Num(Press(s.ui, m, s.thread != L.Dead))
            && s'.conns == s.conns && s'.thread == s.thread && s'.current == s.current
            && (s'.commands == [L.Authenticate] ==> Press(s.ui, m, s.thread != L.Dead) || s'.commands == s.commands)
  {
  }

  lemma ShowsMoves(s: Sys, m: L.Message)
    ensures var s', h := Shows(s, m), L.Update(s.ui, m, s.thread != L.Dead);
            s'.ui == h.ui && s'.commands == s.commands + h.sent && s'.messages == s.messages
  {
  }

  /** While the command to begin is queued, nothing is asked. */
  lemma NothingAskedYet(s: Sys)
    requires Turn(s) && s.commands == [L.Authenticate]
    ensures s.ui.prompt.None? && forall m :: m in s.messages ==> !m.Prompt?
    ensures s.thread.Idle? && s.ui.phase == L.Authenticating
  {
    hide Front, Last;
    assert Quiet(s.messages);
  }

  lemma TellsLonger(s: Sys, h: History, given': seq<seq<Given>>)
    requires Carrying(s, h) && |given'| >= |h.given|
    requires forall k :: 0 <= k < |h.given| ==> h.given[k] <= given'[k]
    ensures forall k :: 0 <= k < |s.conns| && s.conns[k].owner.LockScreen? ==>
              ConnTells(s.conns[k], given'[s.conns[k].owner.attempt - 1], h.asked[k], h.received[k])
  {
    hide Chain, Live, ReplyFlight, QueryFlight, AtScreen;
    forall k | 0 <= k < |s.conns| && s.conns[k].owner.LockScreen?
      ensures ConnTells(s.conns[k], given'[s.conns[k].owner.attempt - 1], h.asked[k], h.received[k])
    {
      var a, c := s.conns[k].owner.attempt - 1, s.conns[k];
      MeetsLonger(h.given[a], h.asked[k], h.received[k], given'[a], h.asked[k]);
      if Live(c) {
        MeetsLonger(h.given[a], h.asked[k], h.received[k] + ReplyFlight(c), given'[a], h.asked[k]);
      }
    }
  }

  lemma ScreenCarries(s: Sys, h: History, m: L.Message, before: Sys)
    requires Carrying(s, h) && before == s.(messages := before.messages)
    requires var given := OnScreen(s.ui, m, s.thread != L.Dead, h.given);
             && (L.Connected(s.thread) && h.given != [] ==>
                   var s' := Shows(before, m);
                   Answered(h.given, CommandReplies(s.commands), AtScreen(s.ui.prompt, s.messages),
                            given, CommandReplies(s'.commands), AtScreen(s'.ui.prompt, s'.messages)))
             && (L.Connected(s.thread) ==> Shows(before, m).attempts == s.attempts)
             && (s.commands == [L.Authenticate] ==> s.ui.prompt.None? && !m.Prompt? && s.ui.phase == L.Authenticating)
    ensures Carrying(Shows(before, m), h.(given := OnScreen(s.ui, m, s.thread != L.Dead, h.given)))
  {
    hide Shows, OnScreen, ConnTells, Chain, AtScreen, CommandReplies, Answered, Press;
    var s', given' := Shows(before, m), OnScreen(s.ui, m, s.thread != L.Dead, h.given);
    ShowsCounted(before, m);
    OnScreenGrows(s.ui, m, s.thread != L.Dead, h.given);
    TellsLonger(s, h, given');
    if L.Connected(s.thread) {
      var open, open' := AtScreen(s.ui.prompt, s.messages), AtScreen(s'.ui.prompt, s'.messages);
      var replies, replies' := CommandReplies(s.commands), CommandReplies(s'.commands);
      ChainAnswered(s.conns[s.current], h.given, given', h.asked[s.current], h.received[s.current],
                    replies, replies', open, open');
    }
  }

  lemma ScreenStepCarries(w: World, s: Sys, h: History, a: Act)
    requires Inv(w, s) && Carrying(s, h) && Enabled(s, a) && (a.Person? || a.Deliver?)
    ensures Carrying(Next(w, s, a), Record(s, a, h, false))
  {
    hide Linked, UnlocksGranted, Shows, OnScreen, ConnTells, Chain, AtScreen, UiOnly, Quiet, Turn;
    if s.commands == [L.Authenticate] {
      NothingAskedYet(s);
    }
    if a.Person? {
      PersonIsUiOnly(s, a.m);
      OnlyUi(s, Next(w, s, a));
      if L.Connected(s.thread) && h.given != [] {
        InTheAttempt(s);
        PersonAnswers(s.ui, a.m, s.messages, s.commands, h.given);
        ShowsMoves(s, a.m);
      }
      ScreenCarries(s, h, a.m, s);
    } else {
      DeliveryIsUiOnly(s);
      OnlyUi(s, Next(w, s, a));
      if L.Connected(s.thread) && h.given != [] {
        InTheAttempt(s);
        DeliveryAnswers(s.ui, s.messages, s.commands, h.given);
        ShowsMoves(s.(messages := s.messages[1..]), s.messages[0]);
      }
      assert s.messages[0] in s.messages;
      ScreenCarries(s, h, s.messages[0], s.(messages := s.messages[1..]));
    }
  }

  lemma OnlyUi(s: Sys, s': Sys)
    requires UiOnly(s, s')
    ensures L.Connected(s.thread) ==> s'.attempts == s.attempts
  {
  }

  // ---- The worker thread ----

  lemma {:induction false} NoQuestions(ms: seq<L.Message>)
    requires forall m :: m in ms ==> !m.Prompt?
    ensures MessageQueries(ms) == []
  {
    if ms != [] {
      assert ms[0] in ms;
      NoQuestions(ms[1..]);
    }
  }

  lemma FreshConn(c: Conn)
    requires c.begun == 0 && c.handler.AwaitHello? && c.worker.Exited? && c.cmds == [] && c.events == [] && c.down == []
    requires c.up == [] || c.up == [ReauthRequest.Hello(PROTOCOL_VERSION)]
    ensures ConnTells(c, [], [], []) && Chain(c, [], [], [], [], [])
  {
    assert RequestReplies(c.up) == [] by {
      assert c.up != [] ==> c.up[1..] == [];
    }
    assert Answers([]) == [] && Queries([]) == [];
  }

  /** What a dial does. */
  lemma DialMoves(w: World, s: Sys, i: L.Read)
    requires Turn(s) && Enabled(s, ThreadReads(i)) && L.Step(s.thread, i).dials
    ensures s.commands == [L.Authenticate]
    ensures var s' := ThreadNext(w, s, i);
            && |s'.conns| == |s.conns| + 1 && s'.conns[..|s.conns|] == s.conns
            && s'.current == |s.conns| && s'.attempts == s.attempts && s'.commands == []
            && var c := s'.conns[|s.conns|];
            && c.owner == LockScreen(s.attempts)
            && c == Dialled(w.lockUid, LockScreen(s.attempts), c.up)
            && (c.up == [] || c.up == [ReauthRequest.Hello(PROTOCOL_VERSION)])
            && (L.Connected(s'.thread) ==> s'.ui == s.ui && s'.messages == s.messages)
  {
    hide Quiet, Front, Last;
    assert s.messages + [] == s.messages;
  }

  lemma DialCarries(w: World, s: Sys, h: History, i: L.Read)
    requires Inv(w, s) && Carrying(s, h) && Enabled(s, ThreadReads(i)) && L.Step(s.thread, i).dials
    ensures Carrying(ThreadNext(w, s, i), Record(s, ThreadReads(i), h, true))
  {
    hide Linked, UnlocksGranted, Turn, ThreadNext, ConnTells, Chain, MessageQueries;
    var s' := ThreadNext(w, s, i);
    DialMoves(w, s, i);
    NothingAskedYet(s);
    NoQuestions(s.messages);
    FreshConn(s'.conns[|s.conns|]);
    var h' := h.(asked := h.asked + [[]], received := h.received + [[]]);
    assert forall k :: 0 <= k < |s.conns| ==>
             s'.conns[k] == s.conns[k] && h'.asked[k] == h.asked[k] && h'.received[k] == h.received[k];
    assert CommandReplies([]) == [];
    assert s.attempts >= 1 && h'.given[s.attempts - 1] == [];
    assert h'.asked[|s.conns|] == [] && h'.received[|s.conns|] == [];
    assert AtScreen(s.ui.prompt, s.messages) == [];
  }

  /** What the thread's move does to its connection while it is in an attempt. */
  lemma ThreadPasses(thread: L.LockWorker, i: L.Read)
    requires L.Connected(thread) && L.Expects(thread, i)
    ensures var t := L.Step(thread, i);
            && !t.dials && |t.requests| <= 1 && |t.emits| <= 1
            && (!L.Connected(t.next) ==> t.requests == [])
            && (i.FromUi? && L.Connected(t.next) ==>
                  i.c.Reply? && t.requests == [ReauthRequest.Reply(i.c.secret)] && t.emits == [])
            && (i.FromDaemon? ==> t.requests == [] || t.requests == [ReauthRequest.Begin])
            && (i.FromDaemon? && L.Connected(t.next) ==>
                  && i.r.Got?
                  && (|| (i.r.msg.Welcome? && t.emits == [])
                      || (i.r.msg.Prompt? && i.r.msg.prompt.Question? &&
                          t.emits == [L.Message.Prompt(i.r.msg.prompt.text, i.r.msg.prompt.secret)])
                      || (i.r.msg.Prompt? && !i.r.msg.prompt.Question? && |t.emits| == 1 && t.emits[0].Notice?)))
  {
  }

  lemma ThreadFlight(c: Conn, thread: L.LockWorker, i: L.Read, g: seq<Given>, asked: seq<Query>, received: seq<string>,
                     commands: seq<L.Command>, prompt: Option<L.PromptField>, messages: seq<L.Message>)
    requires L.Connected(thread) && L.Expects(thread, i)
    requires i.FromUi? ==> commands != [] && commands[0] == i.c
    requires i.FromDaemon? ==> Available(i.r, c.down)
    requires ConnTells(c, g, asked, received)
    requires Chain(c, g, asked, received, CommandReplies(commands), AtScreen(prompt, messages))
    ensures var t := L.Step(thread, i);
            var d := c.(up := c.up + t.requests, down := if i.FromDaemon? then Rest(i.r, c.down) else c.down);
            && ConnTells(d, g, asked, received)
            && (L.Connected(t.next) ==>
                  Chain(d, g, asked, received, CommandReplies(if i.FromUi? then commands[1..] else commands),
                        AtScreen(prompt, messages + t.emits)))
  {
    ThreadPasses(thread, i);
    var t := L.Step(thread, i);
    if !L.Connected(t.next) {
      ThreadLeaves(c, i, g, asked, received);
      assert c.up + [] == c.up;
    } else if i.FromUi? {
      assert messages + [] == messages;
      ReplyPassed(c, i.c.secret, g, asked, received, commands, AtScreen(prompt, messages));
    } else {
      FramePassed(c, i.r.msg, g, asked, received, CommandReplies(commands), prompt, messages, t.requests, t.emits);
    }
  }

  lemma SameLive(c: Conn, d: Conn)
    requires d == c.(up := d.up, down := d.down)
    ensures Live(d) == Live(c)
  {
    assert AuthUnderway(d) == AuthUnderway(c);
  }

  lemma ThreadLeaves(c: Conn, i: L.Read, g: seq<Given>, asked: seq<Query>, received: seq<string>)
    requires ConnTells(c, g, asked, received) && (i.FromDaemon? ==> Available(i.r, c.down))
    ensures ConnTells(c.(down := if i.FromDaemon? then Rest(i.r, c.down) else c.down), g, asked, received)
  {
    hide Live;
    SameLive(c, c.(down := if i.FromDaemon? then Rest(i.r, c.down) else c.down));
  }

  lemma {:induction false} ReplyPassed(c: Conn, x: string, g: seq<Given>, asked: seq<Query>, received: seq<string>,
                    commands: seq<L.Command>, open: seq<Query>)
    requires commands != [] && commands[0] == L.Command.Reply(x) && ConnTells(c, g, asked, received)
    requires Chain(c, g, asked, received, CommandReplies(commands), open)
    ensures var d := c.(up := c.up + [ReauthRequest.Reply(x)]);
            && ConnTells(d, g, asked, received)
            && Chain(d, g, asked, received, CommandReplies(commands[1..]), open)
  {
    hide Live;
    var d := c.(up := c.up + [ReauthRequest.Reply(x)]);
    SameLive(c, d);
    RequestRepliesMore(c.up, ReauthRequest.Reply(x));
    BeginsQuiet(c, g, asked, received, CommandReplies(commands), open);
    var later := CommandReplies(commands[1..]);
    assert ReplyFlight(d) == ReplyFlight(c) + [x];
    assert received + ReplyFlight(d) + later == received + ReplyFlight(c) + ([x] + later);
    hide ReplyFlight, QueryFlight;
    if Live(d) {
      ChainMeets(d, g, asked, received, later, open);
    }
  }

  /** Before its attempt nothing passes over a connection. */
  lemma BeginsQuiet(c: Conn, g: seq<Given>, asked: seq<Query>, received: seq<string>,
                    replies: seq<string>, open: seq<Query>)
    requires ConnTells(c, g, asked, received) && Chain(c, g, asked, received, replies, open)
    ensures c.begun == 0 ==> replies == [] && open == []
  {
    hide ReplyFlight, QueryFlight;
    if c.begun == 0 {
      assert |Queries(g)| == 0 && |Answers(g)| == 0;
    }
  }

  lemma FramePassed(c: Conn, frame: ReauthResponse, g: seq<Given>, asked: seq<Query>, received: seq<string>,
                    replies: seq<string>, prompt: Option<L.PromptField>, messages: seq<L.Message>,
                    requests: seq<ReauthRequest>, emits: seq<L.Message>)
    requires c.down != [] && c.down[0] == frame && ConnTells(c, g, asked, received)
    requires Chain(c, g, asked, received, replies, AtScreen(prompt, messages))
    requires |emits| <= 1 && (requests == [] || requests == [ReauthRequest.Begin])
    requires OfResponse(frame) == if emits == [] then [] else OfMessage(emits[0])
    ensures var d := c.(up := c.up + requests, down := c.down[1..]);
            && ConnTells(d, g, asked, received)
            && Chain(d, g, asked, received, replies, AtScreen(prompt, messages + emits))
  {
    hide Live, ResponseQueries, MessageQueries, RequestReplies, WorkerReplies, EventQueries, ConnTells, Chain;
    ResponseQueriesFirst(c.down);
    var d := c.(up := c.up + requests, down := c.down[1..]);
    SameLive(c, d);
    if requests != [] {
      RequestRepliesMore(c.up, requests[0]);
      assert requests == [requests[0]];
    } else {
      assert c.up + requests == c.up;
    }
    if emits != [] {
      MessageQueriesMore(messages, emits[0]);
      assert emits == [emits[0]];
    } else {
      assert messages + emits == messages;
    }
    assert ReplyFlight(d) == ReplyFlight(c);
    assert c.begun == 0 && QueryFlight(c) == [] ==> QueryFlight(d) == [];
    assert AtScreen(prompt, messages + emits) + QueryFlight(d) == AtScreen(prompt, messages) + QueryFlight(c);
    FlightAlike(c, d, g, asked, received, replies, AtScreen(prompt, messages), AtScreen(prompt, messages + emits));
  }

  lemma FlightAlike(c: Conn, d: Conn, g: seq<Given>, asked: seq<Query>, received: seq<string>,
                    replies: seq<string>, open: seq<Query>, open': seq<Query>)
    requires ConnTells(c, g, asked, received) && Chain(c, g, asked, received, replies, open)
    requires d == c.(up := d.up, down := d.down) && Live(d) == Live(c)
    requires ReplyFlight(d) == ReplyFlight(c) && open' + QueryFlight(d) == open + QueryFlight(c)
    requires c.begun == 0 && QueryFlight(c) == [] ==> QueryFlight(d) == []
    ensures ConnTells(d, g, asked, received) && Chain(d, g, asked, received, replies, open')
  {
    hide ReplyFlight, QueryFlight, Live, Meets, Answers, Queries;
  }

  lemma RelayCarries(w: World, s: Sys, h: History, i: L.Read)
    requires Inv(w, s) && Carrying(s, h) && Enabled(s, ThreadReads(i)) && !L.Step(s.thread, i).dials
    ensures Carrying(ThreadNext(w, s, i), h)
  {
    hide UnlocksGranted, ConnInv, SingleBegin, Fresh, Quiet, ConnTells, Chain, Turn, AtScreen;
    var s', t := ThreadNext(w, s, i), L.Step(s.thread, i);
    NotBeginning(s, i);
    if L.Connected(s.thread) {
      var k := s.current;
      ThreadFlight(s.conns[k], s.thread, i, h.given[s.attempts - 1], h.asked[k], h.received[k], s.commands,
                   s.ui.prompt, s.messages);
      assert s'.conns == s.conns[k := s'.conns[k]];
    } else {
      assert s.current < |s.conns| ==> s.conns[s.current].up + [] == s.conns[s.current].up;
      assert s'.conns == s.conns;
    }
  }

  lemma NotBeginning(s: Sys, i: L.Read)
    requires Turn(s) && L.Expects(s.thread, i) && (i.FromUi? ==> s.commands != [] && s.commands[0] == i.c)
    requires !L.Step(s.thread, i).dials
    ensures var t, s' := L.Step(s.thread, i), ThreadQueues(s, i);
            && (!L.Connected(s.thread) ==> !L.Connected(t.next) && t.requests == [] && i.FromUi?)
            && s'.commands == []
  {
  }

  lemma ThreadStepCarries(w: World, s: Sys, h: History, i: L.Read)
    requires Inv(w, s) && Carrying(s, h) && Enabled(s, ThreadReads(i))
    ensures Carrying(Next(w, s, ThreadReads(i)), Record(s, ThreadReads(i), h, |ThreadNext(w, s, i).conns| > |s.conns|))
  {
    DialsAdd(w, s, i);
    hide Inv, Carrying, ThreadNext;
    if L.Step(s.thread, i).dials {
      DialCarries(w, s, h, i);
    } else {
      RelayCarries(w, s, h, i);
    }
  }

  lemma DialsAdd(w: World, s: Sys, i: L.Read)
    requires Enabled(s, ThreadReads(i))
    ensures |ThreadNext(w, s, i).conns| > |s.conns| <==> L.Step(s.thread, i).dials
  {
  }

  // ---- The theorem ----

  lemma OtherStepCarries(w: World, s: Sys, h: History, a: Act)
    requires Inv(w, s) && Carrying(s, h) && Enabled(s, a)
    requires a.UnLockReturns? || a.ShellUnlocks? || a.ThreadDies? || a.Connects? || a.StrangerSends?
    ensures Carrying(Next(w, s, a), Record(s, a, h, false))
  {
    hide Turn, Linked, UnlocksGranted, ConnTells, Chain, AtScreen;
    if a.Connects? {
      var s', h' := Next(w, s, a), Record(s, a, h, false);
      assert forall k :: 0 <= k < |s.conns| ==>
               s'.conns[k] == s.conns[k] && h'.asked[k] == h.asked[k] && h'.received[k] == h.received[k];
    }
  }

  /** Every step of every party keeps the answers on their way in order. */
  lemma StepCarries(w: World, s: Sys, h: History, a: Act)
    requires Inv(w, s) && Carrying(s, h) && Enabled(s, a)
    ensures Carrying(Next(w, s, a), Record(s, a, h, |Next(w, s, a).conns| > |s.conns|))
  {
    match a {
      case Person(_) => ScreenStepCarries(w, s, h, a);
      case Deliver => ScreenStepCarries(w, s, h, a);
      case ThreadReads(i) => ThreadStepCarries(w, s, h, i);
      case HandlerReads(k, i) => HandlerStepCarries(w, s, h, k, i);
      case WorkerReads(k, c) => WorkerStepCarries(w, s, h, k, c);
      case PamMoves(k, m, ok) => PamStepCarries(w, s, h, k, m, ok);
      case _ => OtherStepCarries(w, s, h, a);
    }
  }

  lemma {:induction false} RunCarries(w: World, dev: bool, acts: seq<Act>)
    requires Run(w, Init(dev), acts).Some?
    ensures Carrying(Run(w, Init(dev), acts).value, Told(w, dev, acts))
  {
    if acts != [] {
      var before := acts[..|acts| - 1];
      RunCarries(w, dev, before);
      RunKeeps(w, dev, before);
      hide Carrying, Inv, Next, Enabled, Record;
      StepCarries(w, Run(w, Init(dev), before).value, Told(w, dev, before), acts[|acts| - 1]);
    }
  }

  /** Whatever happens in between, and whoever else is connected: the replies a worker receives on
      a connection of the lock screen are, one by one, the very texts that were given on the
      screen, in that attempt, in answer to the very questions, in the same words and with the
      same secrecy, that this worker put; and as long as it may still ask, it has received one
      for each of its questions but the one it is waiting on. */
  lemma AnswersMeetTheirQuestions(w: World, dev: bool, acts: seq<Act>, k: nat, attempt: nat)
    requires Run(w, Init(dev), acts).Some? && k < |Run(w, Init(dev), acts).value.conns|
    requires Run(w, Init(dev), acts).value.conns[k].owner == LockScreen(attempt)
    ensures var h := Told(w, dev, acts);
            && 1 <= attempt <= |h.given| && k < |h.received| == |h.asked|
            && |h.received[k]| <= |h.given[attempt - 1]| && |h.received[k]| <= |h.asked[k]|
            && (forall j :: 0 <= j < |h.received[k]| ==>
                  h.given[attempt - 1][j] == Given(h.asked[k][j], h.received[k][j]))
            && (Live(Run(w, Init(dev), acts).value.conns[k]) ==>
                  |h.asked[k]| == |h.received[k]| + Num(Run(w, Init(dev), acts).value.conns[k].worker.Asking?))
  {
    hide *;
    RunCarries(w, dev, acts);
    CarriedTo(Run(w, Init(dev), acts).value, Told(w, dev, acts), k, attempt);
  }

  lemma CarriedTo(s: Sys, h: History, k: nat, attempt: nat)
    requires Carrying(s, h) && k < |s.conns| && s.conns[k].owner == LockScreen(attempt)
    ensures 1 <= attempt <= |h.given| && k < |h.received| == |h.asked|
    ensures |h.received[k]| <= |h.given[attempt - 1]| && |h.received[k]| <= |h.asked[k]|
    ensures forall j :: 0 <= j < |h.received[k]| ==>
              h.given[attempt - 1][j] == Given(h.asked[k][j], h.received[k][j])
    ensures Live(s.conns[k]) ==> |h.asked[k]| == |h.received[k]| + Num(s.conns[k].worker.Asking?)
  {
    hide Chain, Live, ReplyFlight, QueryFlight;
  }

  // ---- Back to the person ----

  /** The person typed this in the run, or it is empty. */
  ghost predicate Typed(acts: seq<Act>, x: string) {
    x == "" || Person(L.PasswordChanged(x)) in acts || Person(L.PromptChanged(x)) in acts
  }

  ghost predicate AllTyped(acts: seq<Act>, given: seq<seq<Given>>) {
    forall a: nat, j: nat :: a < |given| && j < |given[a]| ==> Typed(acts, given[a][j].answer)
  }

  ghost predicate FieldsTyped(acts: seq<Act>, ui: L.Ui) {
    Typed(acts, ui.password) && (ui.prompt.Some? ==> Typed(acts, ui.prompt.value.value))
  }

  lemma TypedStill(acts: seq<Act>, a: Act)
    ensures forall x :: Typed(acts, x) ==> Typed(acts + [a], x)
  {
  }

  /** What a message does to what is typed and given. */
  lemma MessageTypes(acts: seq<Act>, ui: L.Ui, m: L.Message, alive: bool, given: seq<seq<Given>>)
    requires FieldsTyped(acts, ui) && AllTyped(acts, given)
    requires m.PasswordChanged? || m.PromptChanged? ==> Typed(acts, m.value)
    ensures FieldsTyped(acts, L.Update(ui, m, alive).ui) && AllTyped(acts, OnScreen(ui, m, alive, given))
  {
    hide L.Update, Typed;
    L.UpdateSends(ui, m, alive);
    var given': seq<seq<Given>> := OnScreen(ui, m, alive, given);
    assert Typed(acts, "") by {
      NothingTyped(acts);
    }
    forall a: nat, j: nat | a < |given'| && j < |given'[a]|
      ensures Typed(acts, given'[a][j].answer)
    {
      var g: seq<seq<Given>> := given;
      if a < |g| && j < |g[a]| {
        assert given'[a][j] == g[a][j];
      }
    }
  }

  lemma NothingTyped(acts: seq<Act>)
    ensures Typed(acts, "")
  {
  }

  lemma ScreenTypes(s: Sys, m: L.Message, acts: seq<Act>, given: seq<seq<Given>>)
    requires FieldsTyped(acts, s.ui) && AllTyped(acts, given)
    requires m.PasswordChanged? || m.PromptChanged? ==> Typed(acts, m.value)
    ensures FieldsTyped(acts, Shows(s, m).ui) && AllTyped(acts, OnScreen(s.ui, m, s.thread != L.Dead, given))
  {
    hide Typed, L.Update, OnScreen;
    MessageTypes(acts, s.ui, m, s.thread != L.Dead, given);
    ShowsMoves(s, m);
  }

  lemma StepTypes(w: World, s: Sys, h: History, a: Act, acts: seq<Act>, dials: bool)
    requires FieldsTyped(acts, s.ui) && AllTyped(acts, h.given) && Posted(s) && Enabled(s, a)
    ensures FieldsTyped(acts + [a], Next(w, s, a).ui) && AllTyped(acts + [a], Record(s, a, h, dials).given)
  {
    hide Shows, OnScreen;
    TypedStill(acts, a);
    match a {
      case Person(m) =>
        hide Typed;
        ValueTyped(acts, a);
        ScreenTypes(s, m, acts + [a], h.given);
      case Deliver =>
        assert s.messages[0] in s.messages;
        hide Typed;
        ScreenTypes(s.(messages := s.messages[1..]), s.messages[0], acts + [a], h.given);
      case ThreadReads(i) =>
        ThreadNextIs(w, s, i);
      case _ =>
    }
  }

  lemma ValueTyped(acts: seq<Act>, a: Act)
    requires a.Person?
    ensures a.m.PasswordChanged? || a.m.PromptChanged? ==> Typed(acts + [a], a.m.value)
  {
    assert (acts + [a])[|acts|] == a;
  }

  lemma NothingTypedYet(w: World, dev: bool)
    ensures FieldsTyped([], Run(w, Init(dev), []).value.ui) && AllTyped([], Told(w, dev, []).given)
  {
  }

  lemma {:induction false} GivenIsTyped(w: World, dev: bool, acts: seq<Act>)
    requires Run(w, Init(dev), acts).Some?
    ensures FieldsTyped(acts, Run(w, Init(dev), acts).value.ui) && AllTyped(acts, Told(w, dev, acts).given)
  {
    if acts != [] {
      var before, a := acts[..|acts| - 1], acts[|acts| - 1];
      assert acts == before + [a];
      GivenIsTyped(w, dev, before);
      RunKeepsPosted(w, dev, before);
      hide Posted, Next, Enabled, Record, FieldsTyped, AllTyped, Typed, Init;
      var s := Run(w, Init(dev), before).value;
      StepTypes(w, s, Told(w, dev, before), a, before, |Next(w, s, a).conns| > |s.conns|);
    } else {
      hide *;
      NothingTypedYet(w, dev);
    }
  }

  /** So a reply that a worker receives from the lock screen is what the person typed. */
  lemma RepliesWereTyped(w: World, dev: bool, acts: seq<Act>, k: nat, attempt: nat)
    requires Run(w, Init(dev), acts).Some? && k < |Run(w, Init(dev), acts).value.conns|
    requires Run(w, Init(dev), acts).value.conns[k].owner == LockScreen(attempt)
    ensures k < |Told(w, dev, acts).received|
    ensures forall x :: x in Told(w, dev, acts).received[k] ==>
              x == "" || Person(L.PasswordChanged(x)) in acts || Person(L.PromptChanged(x)) in acts
  {
    hide Told, Run;
    AnswersMeetTheirQuestions(w, dev, acts, k, attempt);
    GivenIsTyped(w, dev, acts);
    var h := Told(w, dev, acts);
    forall x | x in h.received[k]
      ensures Typed(acts, x)
    {
      var j :| 0 <= j < |h.received[k]| && h.received[k][j] == x;
      assert h.given[attempt - 1][j].answer == x;
    }
  }
}

/** The vocabularies spoken on door's three seams: greeter to daemon, lock screen to
    daemon, and daemon to the per-login PAM worker. */
module Protocol {
  const PROTOCOL_VERSION: nat := 3

  datatype Option<+T> = None | Some(value: T)

  /** What one blocking frame read yields: a message, a frame that does not parse, or a
      peer that is gone (closed, broken or past the read timeout). */
  datatype Incoming<+T> = Got(msg: T) | Garbled | Gone

  /** The fixed, deliberately coarse texts the daemon sends: why an attempt did not pass,
      and what was wrong with a request. */
  datatype Reason = AuthenticationFailed | AuthenticationCancelled
  datatype Complaint =
    | HandshakeRequired
    | MalformedRequest
    | NothingInProgress
    | AuthenticateFirst
    | NoSuchSession
    | CouldNotStart
    | Unavailable
    | Internal

  /** One step of a PAM conversation, as shown to the person at the screen. */
  datatype AuthPrompt =
    | Question(text: string, secret: bool)
    | Info(text: string)
    | Error(text: string)

  /** Greeter to daemon. */
  datatype Request =
    | Hello(version: nat)
    | ListSessions
    | BeginAuth(username: string)
    | AuthReply(response: string)
    | CancelAuth
    | Start(sessionId: string)
    | Power

  /** Daemon to greeter. */
  datatype Response =
    | Welcome(version: nat)
    | Incompatible(version: nat)
    | Sessions(ids: seq<string>)
    | Auth(prompt: AuthPrompt)
    | AuthSuccess
    | Started
    | AuthFailure(reason: Reason)
    | Error(complaint: Complaint)

  /** Lock screen to daemon. No request carries an identity. */
  datatype ReauthRequest =
    | Hello(version: nat)
    | Begin
    | Reply(response: string)
    | Cancel

  /** Daemon to lock screen. */
  datatype ReauthResponse =
    | Welcome(version: nat)
    | Incompatible(version: nat)
    | Prompt(prompt: AuthPrompt)
    | Allow
    | Deny(reason: Reason)
    | Error(complaint: Complaint)

  datatype Verdict = Success | Failure | Cancelled | Transport

  /** A startable session as the worker is told about it: the id and the argv that
      discovery resolved. */
  datatype WorkerSession = WorkerSession(id: string, exec: seq<string>, sessionType: string)

  /** Daemon to PAM worker. */
  datatype WorkerCommand =
    | Auth(username: string)
    | Reply(response: string)
    | Cancel
    | Start(session: WorkerSession)

  /** PAM worker to daemon. */
  datatype WorkerEvent =
    | Prompt(text: string, secret: bool)
    | Info(text: string)
    | Error(text: string)
    | Auth(verdict: Verdict)
    | Started
    | StartFailed

  /** Frames that are delivered only when the write succeeds. */
  function Delivered<T>(ok: bool, frames: seq<T>): seq<T> {
    if ok then frames else []
  }
}

/** One end of a connected socket. The peer is arbitrary, but fixed from the start: `script` is
    whatever it will ever send, after which it is gone, and `room` is how many writes it
    accepts before the connection breaks for writing. */
module Wires {
  import opened Protocol

  datatype Frame<+T> = Message(msg: T) | Junk

  /** What the read number `k` of a peer with this script yields. */
  function ReadOf<T>(script: seq<Frame<T>>, k: nat): Incoming<T> {
    if k >= |script| then Gone
    else match script[k]
         case Message(m) => Got(m)
         case Junk => Garbled
  }

  /** `got` is everything read so far, `sent` everything delivered. */
  class Wire<In, Out> {
    const script: seq<Frame<In>>
    const room: nat
    var got: seq<Incoming<In>>
    var sent: seq<Out>

    constructor (script: seq<Frame<In>>, room: nat)
      ensures this.script == script && this.room == room
      ensures Untouched()
    {
      this.script, this.room, got, sent := script, room, [], [];
    }

    /** Nothing was read but what the peer sent, in order, and no more was delivered than it
        accepts. */
    ghost predicate Valid()
      reads this
    {
      |sent| <= room && forall k :: 0 <= k < |got| ==> got[k] == ReadOf(script, k)
    }

    ghost predicate Untouched()
      reads this
    {
      got == [] && sent == []
    }

    /** How many frames are yet to be read. */
    function Left(): nat
      reads this
    {
      if |got| < |script| then |script| - |got| else 0
    }

    /** Takes the next frame off the wire. */
    method Read() returns (r: Incoming<In>)
      requires Valid()
      modifies this`got
      ensures Valid() && got == old(got) + [r] && r == ReadOf(script, |old(got)|)
      ensures Left() <= old(Left()) && (r != Gone ==> Left() < old(Left()))
    {
      r := ReadOf(script, |got|);
      got := got + [r];
    }

    /** Writes one frame; a broken connection stays broken. */
    method Write(x: Out) returns (ok: bool)
      requires Valid()
      modifies this`sent
      ensures Valid() && ok == (|old(sent)| < room)
      ensures sent == old(sent) + Delivered(ok, [x])
    {
      ok := |sent| < room;
      if ok {
        sent := sent + [x];
      }
    }
  }
}

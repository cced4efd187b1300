/** The reader, bridge and writer tasks of a terminal session over two bounded queues, in every interleaving. */
module Terminal {
  import opened Basics

  const CAPACITY := 64

  datatype ClientMsg = Input(data: string) | Resize(cols: nat, rows: nat) | FileUpload(path: string, data: string)

  datatype ServerMsg =
    | Opened
    | Output(data: string)
    | Closed
    | Error(message: string)
    | FileUploaded(path: string)
    | FileUploadError(path: string, message: string)

  /** What the socket yields: text with the message or error it parses to, binary as text, a ping or pong, or the end. */
  datatype Frame = TextFrame(msg: Result<ClientMsg, string>) | BinaryFrame(data: string) | ControlFrame | HangUp

  datatype Reader = AwaitFirst | Announce | Reading | Forwarding(msg: ClientMsg) | Left

  /** What the bridge does once its event is queued, or the queue turns out closed. */
  datatype After = Resume | ResumeIfQueued | Finish

  datatype End = ByClient | ByServer | Unheard

  datatype Bridge =
    | NotSpawned
    | Connecting
    | Selecting
    | Uploading(path: string)
    | Queueing(event: ServerMsg, after: After)
    | Reporting(message: string)
    | Over(why: End)

  datatype Writer = Idle | Receiving | Delivering(event: ServerMsg) | Stopped

  /**
   * From `frames` on, histories: frames taken from the socket, bytes written to and chunks read from SSH, events queued for
   * the client, events delivered to it by the writer, and events sent to it directly.
   */
  datatype Session = Session(
    reader: Reader, bridge: Bridge, writer: Writer,
    toSsh: seq<ClientMsg>, toClient: seq<ServerMsg>, dims: (nat, nat),
    frames: seq<Frame>, written: string, read: seq<string>, emitted: seq<ServerMsg>, sent: seq<ServerMsg>,
    direct: seq<ServerMsg>)

  const INIT: Session := Session(AwaitFirst, NotSpawned, Idle, [], [], (80, 24), [], [], [], [], [], [])

  datatype SshMsg = Data(data: string) | Stop | Ignored

  datatype Event =
    | TakeFrame(frame: Frame)
    | Open
    | Forward
    | Connect(ok: bool, message: string)
    | FromSsh(msg: SshMsg)
    | FromClient(ok: bool, wrote: nat, message: string)
    | UploadDone(ok: bool, message: string)
    | Queue
    | Receive
    | Deliver(ok: bool)

  /** Both receivers are dropped with their tasks; a failed session drops its receiver before reporting the error. */
  predicate BridgeListens(s: Session) { !s.bridge.Reporting? && !s.bridge.Over? }

  predicate WriterListens(s: Session) { !s.writer.Stopped? }

  // --- The steps ------------------------------------------------------------------------

  function FirstFrame(s: Session, frame: Frame): Session {
    var s := s.(frames := s.frames + [frame]);
    match frame
    case TextFrame(Ok(Resize(cols, rows))) => s.(reader := Announce, dims := (cols, rows))
    case TextFrame(Ok(msg)) => s.(reader := Announce, toSsh := s.toSsh + [msg])
    case TextFrame(Err(e)) => s.(reader := Left, direct := s.direct + [Error("invalid message: " + e)])
    case _ => s.(reader := Announce)
  }

  function NextFrame(s: Session, frame: Frame): Session {
    var s := s.(frames := s.frames + [frame]);
    match frame
    case TextFrame(Ok(msg)) => s.(reader := Forwarding(msg))
    case TextFrame(Err(_)) => s
    case BinaryFrame(data) => s.(reader := Forwarding(Input(data)))
    case ControlFrame => s
    case HangUp => s.(reader := Left)
  }

  function FromClientStep(s: Session, ok: bool, wrote: nat, message: string): Session {
    if s.toSsh == [] then
      if s.reader.Left? then s.(bridge := Over(ByClient)) else s
    else
      var msg, s := s.toSsh[0], s.(toSsh := s.toSsh[1..]);
      match msg
      case Input(data) =>
        if ok then s.(written := s.written + data)
        else s.(written := s.written + data[..if wrote < |data| then wrote else |data|],
                bridge := Queueing(Error("SSH write error: " + message), Finish))
      case Resize(_, _) => s
      case FileUpload(path, _) => s.(bridge := Uploading(path))
  }

  function QueueStep(s: Session, event: ServerMsg, after: After): Session {
    var why := if after.ResumeIfQueued? then Unheard else ByServer;
    if !WriterListens(s) then s.(bridge := if after.Resume? then Selecting else Over(why))
    else if |s.toClient| >= CAPACITY then s
    else s.(toClient := s.toClient + [event], emitted := s.emitted + [event],
            bridge := if after.Finish? then Over(why) else Selecting)
  }

  /** One turn of one task; an event its task is not waiting for changes nothing. */
  function Apply(s: Session, e: Event): Session {
    match e
    case TakeFrame(frame) =>
      if s.reader.AwaitFirst? then FirstFrame(s, frame) else if s.reader.Reading? then NextFrame(s, frame) else s
    case Open =>
      if s.reader.Announce? then
        s.(toClient := s.toClient + [Opened], emitted := s.emitted + [Opened], bridge := Connecting, writer := Receiving,
           reader := Reading)
      else s
    case Forward =>
      if !s.reader.Forwarding? then s
      else if !BridgeListens(s) then s.(reader := Left)
      else if |s.toSsh| >= CAPACITY then s
      else s.(toSsh := s.toSsh + [s.reader.msg], reader := Reading)
    case Connect(ok, message) =>
      if s.bridge.Connecting? then s.(bridge := if ok then Selecting else Reporting(message)) else s
    case FromSsh(msg) =>
      if !s.bridge.Selecting? then s
      else (match msg
            case Data(data) => s.(read := s.read + [data], bridge := Queueing(Output(data), ResumeIfQueued))
            case Stop => s.(bridge := Queueing(Closed, Finish))
            case Ignored => s)
    case FromClient(ok, wrote, message) => if s.bridge.Selecting? then FromClientStep(s, ok, wrote, message) else s
    case UploadDone(ok, message) =>
      if !s.bridge.Uploading? then s
      else s.(bridge := Queueing(if ok then FileUploaded(s.bridge.path) else FileUploadError(s.bridge.path, message), Resume))
    case Queue =>
      if s.bridge.Queueing? then QueueStep(s, s.bridge.event, s.bridge.after)
      else if s.bridge.Reporting? then QueueStep(s, Error(s.bridge.message), Finish)
      else s
    case Receive =>
      if !s.writer.Receiving? then s
      else if s.toClient != [] then s.(writer := Delivering(s.toClient[0]), toClient := s.toClient[1..])
      else if s.bridge.Over? then s.(writer := Stopped)
      else s
    case Deliver(ok) =>
      if !s.writer.Delivering? then s
      else if !ok then s.(writer := Stopped)
      else s.(sent := s.sent + [s.writer.event], writer := if s.writer.event.Closed? then Stopped else Receiving)
  }

  function Run(es: seq<Event>): Session {
    if es == [] then INIT else Apply(Run(es[..|es| - 1]), es[|es| - 1])
  }

  // --- Towards SSH ------------------------------------------------------------------------

  function InputOf(msg: ClientMsg): string { if msg.Input? then msg.data else [] }

  function Inputs(q: seq<ClientMsg>): string {
    if q == [] then [] else Inputs(q[..|q| - 1]) + InputOf(q[|q| - 1])
  }

  /** The input a frame carries; only a text frame counts as the first. */
  function Payload(frame: Frame, first: bool): string {
    match frame
    case TextFrame(Ok(msg)) => InputOf(msg)
    case BinaryFrame(data) => if first then [] else data
    case _ => []
  }

  /** All input the client has sent. */
  function Typed(frames: seq<Frame>): string {
    if frames == [] then [] else Typed(frames[..|frames| - 1]) + Payload(frames[|frames| - 1], |frames| == 1)
  }

  function InHand(r: Reader): string { if r.Forwarding? then InputOf(r.msg) else [] }

  /** Input has been cut off only by a failing session. */
  predicate Flowing(b: Bridge) {
    match b
    case Queueing(event, _) => !event.Error?
    case Reporting(_) => false
    case Over(why) => why.ByClient?
    case _ => true
  }

  /** Where the tasks stand relative to each other. */
  ghost predicate TasksOk(s: Session) {
    && (s.reader.AwaitFirst? <==> s.frames == []) && (s.reader.AwaitFirst? ==> s.toSsh == [])
    && (s.reader.AwaitFirst? || s.reader.Announce? ==> s.bridge.NotSpawned?)
    && (s.reader.Reading? || s.reader.Forwarding? ==> !s.bridge.NotSpawned?)
    && (s.bridge == Over(ByClient) ==> s.reader.Left? && s.toSsh == [])
    && (s.bridge.NotSpawned? ==> |s.toSsh| <= 1)
    && |s.toSsh| <= CAPACITY
    && (s.bridge.Queueing? ==>
          !s.bridge.event.Opened? && (s.bridge.after.Finish? <==> Final(s.bridge.event))
          && (s.bridge.after.ResumeIfQueued? <==> s.bridge.event.Output?))
  }

  /** After this event nothing more is queued. */
  predicate Final(event: ServerMsg) { event.Closed? || event.Error? }


  ghost predicate InputOk(s: Session) {
    if Flowing(s.bridge) then Typed(s.frames) == s.written + (Inputs(s.toSsh) + InHand(s.reader)) else s.written <= Typed(s.frames)
  }

  lemma TypedSnoc(frames: seq<Frame>, frame: Frame)
    ensures Typed(frames + [frame]) == Typed(frames) + Payload(frame, frames == [])
  {
    assert (frames + [frame])[..|frames|] == frames;
  }

  lemma InputsSnoc(q: seq<ClientMsg>, msg: ClientMsg)
    ensures Inputs(q + [msg]) == Inputs(q) + InputOf(msg)
  {
    assert (q + [msg])[..|q|] == q;
  }

  lemma {:induction false} InputsHead(q: seq<ClientMsg>)
    requires q != []
    ensures Inputs(q) == InputOf(q[0]) + Inputs(q[1..])
  {
    hide Inputs;
    InputsEmpty();
    if |q| == 1 {
      assert q == [] + [q[0]] && q[1..] == [];
      InputsSnoc([], q[0]);
    } else {
      var front, last := q[..|q| - 1], q[|q| - 1];
      assert q == front + [last] && q[1..] == front[1..] + [last];
      InputsHead(front);
      InputsSnoc(front, last);
      InputsSnoc(front[1..], last);
    }
  }

  lemma StepKeepsTasks(s: Session, e: Event)
    requires TasksOk(s)
    ensures TasksOk(Apply(s, e))
  {
  }

  lemma FrameKeepsInput(s: Session, frame: Frame)
    requires TasksOk(s) && InputOk(s)
    ensures InputOk(Apply(s, TakeFrame(frame)))
  {
    hide Inputs, Typed;
    InputsEmpty();
    TypedSnoc(s.frames, frame);
    if frame.TextFrame? && frame.msg.Ok? { InputsSnoc(s.toSsh, frame.msg.value); }
  }

  lemma InputsEmpty()
    ensures Inputs([]) == [] && Typed([]) == []
  {
  }

  lemma ForwardKeepsInput(s: Session)
    requires TasksOk(s) && InputOk(s)
    ensures InputOk(Apply(s, Forward))
  {
    hide Inputs, Typed;
    if s.reader.Forwarding? { InputsSnoc(s.toSsh, s.reader.msg); }
  }

  lemma FromClientKeepsInput(s: Session, ok: bool, wrote: nat, message: string)
    requires InputOk(s)
    ensures InputOk(Apply(s, FromClient(ok, wrote, message)))
  {
    hide Inputs, Typed;
    if s.toSsh != [] { InputsHead(s.toSsh); }
  }

  lemma StepKeepsInput(s: Session, e: Event)
    requires TasksOk(s) && InputOk(s)
    ensures InputOk(Apply(s, e))
  {
    match e
    case TakeFrame(frame) => FrameKeepsInput(s, frame);
    case Forward => ForwardKeepsInput(s);
    case FromClient(ok, wrote, message) => FromClientKeepsInput(s, ok, wrote, message);
    case _ => OthersKeepInput(s, e);
  }

  lemma OthersKeepInput(s: Session, e: Event)
    requires TasksOk(s) && InputOk(s) && !e.TakeFrame? && !e.Forward? && !e.FromClient?
    ensures InputOk(Apply(s, e))
  {
    hide Inputs, Typed;
    assert s.written <= Typed(s.frames);
  }

  // --- Towards the client -----------------------------------------------------------------

  function Outputs(events: seq<ServerMsg>): seq<string> {
    if events == [] then []
    else
      var last := events[|events| - 1];
      Outputs(events[..|events| - 1]) + if last.Output? then [last.data] else []
  }

  function OutputInHand(b: Bridge): seq<string> { if b.Queueing? && b.event.Output? then [b.event.data] else [] }

  function EventInHand(w: Writer): seq<ServerMsg> { if w.Delivering? then [w.event] else [] }

  /** The events are a well-formed session: opened first, and nothing after closing or failing. */
  predicate OpensAndEndsOnce(events: seq<ServerMsg>) {
    && (forall i :: 0 <= i < |events| ==> (events[i].Opened? <==> i == 0))
    && (forall i :: 0 <= i < |events| - 1 ==> !Final(events[i]))
  }

  ghost predicate EmittedOk(s: Session) {
    && (s.bridge.NotSpawned? <==> s.emitted == [])
    && OpensAndEndsOnce(s.emitted)
    && (s.emitted != [] && Final(s.emitted[|s.emitted| - 1]) ==> s.bridge == Over(ByServer))
    && (if s.bridge == Over(Unheard) then Outputs(s.emitted) <= s.read else Outputs(s.emitted) + OutputInHand(s.bridge) == s.read)
  }

  /** Every queued event is delivered, in the writer's hand or still queued, in that order, until the writer stops. */
  ghost predicate DeliveredOk(s: Session) {
    && (s.writer.Idle? <==> s.bridge.NotSpawned?)
    && (s.bridge.NotSpawned? ==> s.emitted == [] && s.sent == [] && s.toClient == [])
    && (if s.writer.Stopped? then s.sent <= s.emitted else s.emitted == s.sent + (EventInHand(s.writer) + s.toClient))
    && |s.toClient| <= CAPACITY
  }

  lemma OutputsSnoc(events: seq<ServerMsg>, event: ServerMsg)
    ensures Outputs(events + [event]) == Outputs(events) + if event.Output? then [event.data] else []
  {
    assert (events + [event])[..|events|] == events;
  }

  lemma StepKeepsEmitted(s: Session, e: Event)
    requires TasksOk(s) && EmittedOk(s)
    ensures EmittedOk(Apply(s, e))
  {
    hide TasksOk, EmittedOk, Apply;
    match e
    case Open => OpenKeepsEmitted(s);
    case Queue => QueueKeepsEmitted(s);
    case _ => OthersKeepEmitted(s, e);
  }

  lemma OpenKeepsEmitted(s: Session)
    requires TasksOk(s) && EmittedOk(s)
    ensures EmittedOk(Apply(s, Open))
  {
    hide Outputs;
    OutputsEmpty();
    OutputsSnoc(s.emitted, Opened);
  }

  lemma QueueKeepsEmitted(s: Session)
    requires TasksOk(s) && EmittedOk(s)
    ensures EmittedOk(Apply(s, Queue))
  {
    hide Outputs, OpensAndEndsOnce;
    if s.bridge.Queueing? { EventKeepsShape(s.emitted, s.bridge.event); }
    if s.bridge.Reporting? { EventKeepsShape(s.emitted, Error(s.bridge.message)); }
  }

  /** One more event, after one that was not final. */
  lemma EventKeepsShape(events: seq<ServerMsg>, event: ServerMsg)
    ensures OpensAndEndsOnce(events) && events != [] && !event.Opened? && !Final(events[|events| - 1]) ==>
              OpensAndEndsOnce(events + [event])
    ensures Outputs(events + [event]) == Outputs(events) + if event.Output? then [event.data] else []
  {
    hide Outputs;
    OutputsSnoc(events, event);
  }

  lemma OthersKeepEmitted(s: Session, e: Event)
    requires TasksOk(s) && EmittedOk(s) && !e.Open? && !e.Queue?
    ensures EmittedOk(Apply(s, e))
  {
    hide Outputs, OpensAndEndsOnce;
  }

  lemma OutputsEmpty()
    ensures Outputs([]) == []
  {
  }

  lemma StepKeepsDelivered(s: Session, e: Event)
    requires TasksOk(s) && DeliveredOk(s)
    ensures DeliveredOk(Apply(s, e))
  {
    hide TasksOk, DeliveredOk, Apply;
    match e
    case Open => OpenKeepsDelivered(s);
    case Queue => QueueKeepsDelivered(s);
    case Receive => ReceiveKeepsDelivered(s);
    case Deliver(ok) => DeliverKeepsDelivered(s, ok);
    case _ => OthersKeepDelivered(s, e);
  }

  lemma OpenKeepsDelivered(s: Session)
    requires TasksOk(s) && DeliveredOk(s)
    ensures DeliveredOk(Apply(s, Open))
  {
  }

  lemma QueueKeepsDelivered(s: Session)
    requires DeliveredOk(s)
    ensures DeliveredOk(Apply(s, Queue))
  {
    hide EventInHand, Final;
    var hand := EventInHand(s.writer);
    if s.bridge.Queueing? { assert s.sent + (hand + s.toClient) + [s.bridge.event] == s.sent + (hand + (s.toClient + [s.bridge.event])); }
    if s.bridge.Reporting? {
      var event := Error(s.bridge.message);
      assert s.sent + (hand + s.toClient) + [event] == s.sent + (hand + (s.toClient + [event]));
    }
  }

  lemma ReceiveKeepsDelivered(s: Session)
    requires DeliveredOk(s)
    ensures DeliveredOk(Apply(s, Receive))
  {
  }

  lemma DeliverKeepsDelivered(s: Session, ok: bool)
    requires DeliveredOk(s)
    ensures DeliveredOk(Apply(s, Deliver(ok)))
  {
  }

  lemma OthersKeepDelivered(s: Session, e: Event)
    requires TasksOk(s) && DeliveredOk(s) && !e.Open? && !e.Queue? && !e.Receive? && !e.Deliver?
    ensures DeliveredOk(Apply(s, e))
  {
    hide EventInHand, Apply, TasksOk;
    OthersSendNothing(s, e);
  }

  lemma OthersSendNothing(s: Session, e: Event)
    requires TasksOk(s) && !e.Open? && !e.Queue? && !e.Receive? && !e.Deliver?
    ensures var after := Apply(s, e);
            && after.emitted == s.emitted && after.sent == s.sent && after.toClient == s.toClient && after.writer == s.writer
            && (after.bridge.NotSpawned? <==> s.bridge.NotSpawned?)
  {
  }

  lemma {:induction false} OutputsMonotone(events: seq<ServerMsg>, k: nat)
    requires k <= |events|
    ensures Outputs(events[..k]) <= Outputs(events)
  {
    if k < |events| {
      var front := events[..|events| - 1];
      OutputsMonotone(front, k);
      assert front[..k] == events[..k];
    } else {
      assert events[..k] == events;
    }
  }

  // --- Every interleaving -------------------------------------------------------------------

  ghost predicate SessionOk(s: Session) { TasksOk(s) && InputOk(s) && EmittedOk(s) && DeliveredOk(s) }

  lemma {:induction false} RunOk(es: seq<Event>)
    ensures SessionOk(Run(es))
  {
    hide TasksOk, InputOk, EmittedOk, DeliveredOk, Apply;
    if es == [] {
      InitOk();
    } else {
      var s := Run(es[..|es| - 1]);
      var e := es[|es| - 1];
      RunOk(es[..|es| - 1]);
      StepKeepsTasks(s, e);
      StepKeepsInput(s, e);
      StepKeepsEmitted(s, e);
      StepKeepsDelivered(s, e);
    }
  }

  lemma InitOk()
    ensures SessionOk(INIT)
  {
  }

  /**
   * In every interleaving, the bytes written to SSH are a prefix of all input the client sent after the rule for the first
   * frame, in order; all of it once the bridge ends because the client left. Both queues stay within their capacity.
   */
  lemma InputInOrder(es: seq<Event>)
    ensures var s := Run(es);
            && s.written <= Typed(s.frames)
            && (s.bridge == Over(ByClient) ==> s.written == Typed(s.frames))
            && |s.toSsh| <= 64 && |s.toClient| <= 64
  {
    hide Run;
    RunOk(es);
  }

  /**
   * In every interleaving, what the writer delivers to the client is opened first, then outputs in the order SSH produced
   * them, with nothing after a close or an error; when the close arrives, every output has.
   */
  lemma ClientView(es: seq<Event>)
    ensures var s := Run(es);
            && OpensAndEndsOnce(s.sent)
            && Outputs(s.sent) <= s.read
            && (s.sent != [] && s.sent[|s.sent| - 1].Closed? ==> Outputs(s.sent) == s.read)
  {
    hide Run, Outputs;
    RunOk(es);
    var s := Run(es);
    assert s.emitted[..|s.sent|] == s.sent;
    OutputsMonotone(s.emitted, |s.sent|);
    if s.sent != [] && s.sent[|s.sent| - 1].Closed? { assert s.sent == s.emitted; }
  }

  ghost predicate Refused(s: Session) { s.frames != [] && s.frames[0].TextFrame? && s.frames[0].msg.Err? }

  /** Neither task has been spawned and nothing has gone either way. */
  ghost predicate Untouched(s: Session) { s.bridge.NotSpawned? && s.writer.Idle? && s.sent == [] && s.written == [] }

  /** What the first frame decides. */
  ghost predicate FirstOk(s: Session) {
    && (s.reader.AwaitFirst? <==> s.frames == [])
    && s.dims == (if s.frames != [] && s.frames[0].TextFrame? && s.frames[0].msg.Ok? && s.frames[0].msg.value.Resize?
                  then (s.frames[0].msg.value.cols, s.frames[0].msg.value.rows) else (80, 24))
    && s.direct == (if Refused(s) then [Error("invalid message: " + s.frames[0].msg.error)] else [])
    && (Refused(s) ==> s.reader.Left? && |s.frames| == 1)
    && (s.frames == [] || Refused(s) ==> Untouched(s))
  }

  lemma {:induction false} RunFirstOk(es: seq<Event>)
    ensures FirstOk(Run(es))
  {
    hide Apply, FirstOk;
    if es == [] {
      assert FirstOk(INIT) by { NoFrames(); }
    } else {
      RunFirstOk(es[..|es| - 1]);
      StepKeepsFirst(Run(es[..|es| - 1]), es[|es| - 1]);
    }
  }

  lemma NoFrames()
    ensures FirstOk(INIT)
  {
  }

  lemma StepKeepsFirst(s: Session, e: Event)
    requires FirstOk(s)
    ensures FirstOk(Apply(s, e))
  {
    hide Apply, FirstOk;
    if e.TakeFrame? { FrameKeepsFirst(s, e.frame); } else { OthersKeepFirst(s, e); }
  }

  lemma FrameKeepsFirst(s: Session, frame: Frame)
    requires FirstOk(s)
    ensures FirstOk(Apply(s, TakeFrame(frame)))
  {
  }

  lemma OthersKeepFirst(s: Session, e: Event)
    requires FirstOk(s) && !e.TakeFrame?
    ensures FirstOk(Apply(s, e))
  {
    var after := Apply(s, e);
    assert after.frames == s.frames && after.dims == s.dims && after.direct == s.direct;
  }

  /**
   * The PTY is opened with the size the first frame gives if that is a resize, and 80 by 24 otherwise. A malformed first
   * text is answered with exactly one error, sent past the writer, and nothing else ever happens in the session.
   */
  lemma FirstFrameDecides(es: seq<Event>)
    requires Run(es).frames != []
    ensures var s := Run(es); var first := s.frames[0];
            && s.dims == (if first.TextFrame? && first.msg.Ok? && first.msg.value.Resize?
                          then (first.msg.value.cols, first.msg.value.rows) else (80, 24))
            && (if first.TextFrame? && first.msg.Err?
                then s.direct == [Error("invalid message: " + first.msg.error)] && s.sent == [] && s.written == [] && s.frames == [first]
                else s.direct == [])
  {
    hide Run, Apply;
    RunFirstOk(es);
  }
}

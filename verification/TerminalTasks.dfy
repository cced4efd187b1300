/** The session as an object whose tasks take turns, and the loops that drain an exec channel. */
module TerminalTasks {
  import opened Basics
  import opened Terminal

  class TerminalSession {
    var reader: Reader
    var bridge: Bridge
    var writer: Writer
    var clientQueue: seq<ClientMsg>
    var serverQueue: seq<ServerMsg>
    var dims: (nat, nat)
    ghost var frames: seq<Frame>
    ghost var written: string
    ghost var read: seq<string>
    ghost var emitted: seq<ServerMsg>
    ghost var sent: seq<ServerMsg>
    ghost var direct: seq<ServerMsg>

    ghost function View(): Session reads this {
      Session(reader, bridge, writer, clientQueue, serverQueue, dims, frames, written, read, emitted, sent, direct)
    }

    ghost predicate Valid() reads this { SessionOk(View()) }

    constructor ()
      ensures Valid() && View() == INIT
    {
      reader, bridge, writer, clientQueue, serverQueue, dims := AwaitFirst, NotSpawned, Idle, [], [], (80, 24);
      frames, written, read, emitted, sent, direct := [], [], [], [], [], [];
      new;
      InitOk();
    }

    twostate lemma Kept(e: Event)
      requires old(Valid()) && View() == Apply(old(View()), e)
      ensures Valid()
    {
      hide TasksOk, InputOk, EmittedOk, DeliveredOk, Apply;
      StepKeepsTasks(old(View()), e);
      StepKeepsInput(old(View()), e);
      StepKeepsEmitted(old(View()), e);
      StepKeepsDelivered(old(View()), e);
    }

    /** The first frame fixes the size; other messages are forwarded, other frames dropped, bad text ends the session. */
    method TakeFirst(frame: Frame)
      requires Valid() && reader.AwaitFirst?
      modifies this
      ensures Valid() && View() == Apply(old(View()), TakeFrame(frame))
    {
      frames := frames + [frame];
      reader := Announce;
      if frame.TextFrame? {
        match frame.msg
        case Err(e) => reader, direct := Left, direct + [Error("invalid message: " + e)];
        case Ok(Resize(cols, rows)) => dims := (cols, rows);
        case Ok(msg) => clientQueue := clientQueue + [msg];
      }
      Kept(TakeFrame(frame));
    }

    /** Queues the opening event and spawns the bridge and the writer. */
    method Open()
      requires Valid() && reader.Announce?
      modifies this
      ensures Valid() && View() == Apply(old(View()), Event.Open)
    {
      serverQueue, emitted := serverQueue + [Opened], emitted + [Opened];
      bridge, writer, reader := Connecting, Receiving, Reading;
      Kept(Event.Open);
    }

    method TakeNext(frame: Frame)
      requires Valid() && reader.Reading?
      modifies this
      ensures Valid() && View() == Apply(old(View()), TakeFrame(frame))
    {
      frames := frames + [frame];
      match frame {
        case TextFrame(msg) => if msg.Ok? { reader := Forwarding(msg.value); }
        case BinaryFrame(data) => reader := Forwarding(Input(data));
        case ControlFrame =>
        case HangUp => reader := Left;
      }
      Kept(TakeFrame(frame));
    }

    /** A send that waits while the queue is full and fails once the bridge has dropped its receiver. */
    method ForwardMessage()
      requires Valid() && reader.Forwarding?
      modifies this
      ensures Valid() && View() == Apply(old(View()), Forward)
    {
      if bridge.Reporting? || bridge.Over? {
        reader := Left;
      } else if |clientQueue| < CAPACITY {
        clientQueue, reader := clientQueue + [reader.msg], Reading;
      }
      Kept(Forward);
    }

    method ConnectSsh(ok: bool, message: string)
      requires Valid() && bridge.Connecting?
      modifies this
      ensures Valid() && View() == Apply(old(View()), Connect(ok, message))
    {
      bridge := if ok then Selecting else Reporting(message);
      Kept(Connect(ok, message));
    }

    /** The select branch for the SSH channel. */
    method OnSsh(msg: SshMsg)
      requires Valid() && bridge.Selecting?
      modifies this
      ensures Valid() && View() == Apply(old(View()), FromSsh(msg))
    {
      match msg {
        case Data(data) =>
          read := read + [data];
          bridge := Queueing(Output(data), ResumeIfQueued);
        case Stop => bridge := Queueing(Closed, Finish);
        case Ignored =>
      }
      Kept(FromSsh(msg));
    }

    /** The select branch for the client queue; a failing write may have written a part. */
    method OnClient(ok: bool, wrote: nat, message: string)
      requires Valid() && bridge.Selecting?
      modifies this
      ensures Valid() && View() == Apply(old(View()), FromClient(ok, wrote, message))
    {
      if clientQueue == [] {
        if reader.Left? { bridge := Over(ByClient); }
      } else {
        var msg := clientQueue[0];
        clientQueue := clientQueue[1..];
        match msg {
          case Input(data) =>
            if ok {
              written := written + data;
            } else {
              written := written + data[..if wrote < |data| then wrote else |data|];
              bridge := Queueing(Error("SSH write error: " + message), Finish);
            }
          case Resize(_, _) =>
          case FileUpload(path, _) => bridge := Uploading(path);
        }
      }
      Kept(FromClient(ok, wrote, message));
    }

    method FinishUpload(ok: bool, message: string)
      requires Valid() && bridge.Uploading?
      modifies this
      ensures Valid() && View() == Apply(old(View()), UploadDone(ok, message))
    {
      var event := if ok then FileUploaded(bridge.path) else FileUploadError(bridge.path, message);
      bridge := Queueing(event, Resume);
      Kept(UploadDone(ok, message));
    }

    /** The bridge's send: waits while the queue is full, is lost once the writer has stopped. */
    method QueueEvent()
      requires Valid() && (bridge.Queueing? || bridge.Reporting?)
      modifies this
      ensures Valid() && View() == Apply(old(View()), Event.Queue)
    {
      var event := if bridge.Queueing? then bridge.event else Error(bridge.message);
      var after := if bridge.Queueing? then bridge.after else Finish;
      if writer.Stopped? {
        bridge := if after.Resume? then Selecting else Over(if after.Finish? then ByServer else Unheard);
      } else if |serverQueue| < CAPACITY {
        serverQueue, emitted := serverQueue + [event], emitted + [event];
        bridge := if after.Finish? then Over(ByServer) else Selecting;
      }
      Kept(Event.Queue);
    }

    method ReceiveEvent()
      requires Valid() && writer.Receiving?
      modifies this
      ensures Valid() && View() == Apply(old(View()), Receive)
    {
      if serverQueue != [] {
        writer, serverQueue := Delivering(serverQueue[0]), serverQueue[1..];
      } else if bridge.Over? {
        writer := Stopped;
      }
      Kept(Receive);
    }

    method DeliverEvent(ok: bool)
      requires Valid() && writer.Delivering?
      modifies this
      ensures Valid() && View() == Apply(old(View()), Deliver(ok))
    {
      if ok { sent := sent + [writer.event]; }
      writer := if ok && !writer.event.Closed? then Receiving else Stopped;
      Kept(Deliver(ok));
    }
  }

  // --- Exec channels ------------------------------------------------------------------------

  datatype ChannelMsg = Bytes(data: string) | Extended(data: string, ext: nat) | Exit(status: nat) | Eof | OtherMsg

  /** The messages up to the first end of file. */
  function UntilEof(msgs: seq<ChannelMsg>): seq<ChannelMsg> {
    if msgs == [] || msgs[0].Eof? then [] else [msgs[0]] + UntilEof(msgs[1..])
  }

  function Stdout(msgs: seq<ChannelMsg>): string {
    if msgs == [] then [] else (if msgs[0].Bytes? then msgs[0].data else []) + Stdout(msgs[1..])
  }

  function Stderr(msgs: seq<ChannelMsg>): string {
    if msgs == [] then [] else (if msgs[0].Extended? && msgs[0].ext == 1 then msgs[0].data else []) + Stderr(msgs[1..])
  }

  /** The last exit status, or `none` without one. */
  function Status(msgs: seq<ChannelMsg>, none: Option<nat>): Option<nat> {
    if msgs == [] then none else Status(msgs[1..], if msgs[0].Exit? then Some(msgs[0].status) else none)
  }

  lemma StdoutHead(m: ChannelMsg, rest: seq<ChannelMsg>)
    ensures Stdout([m] + rest) == (if m.Bytes? then m.data else []) + Stdout(rest) && Stdout([]) == []
  {
    assert ([m] + rest)[1..] == rest;
  }

  lemma {:induction false} StdoutConcat(a: seq<ChannelMsg>, b: seq<ChannelMsg>)
    ensures Stdout(a + b) == Stdout(a) + Stdout(b)
  {
    hide Stdout;
    if a == [] {
      assert a + b == b;
      StdoutHead(Eof, []);
    } else {
      assert a == [a[0]] + a[1..] && a + b == [a[0]] + (a[1..] + b);
      StdoutHead(a[0], a[1..]);
      StdoutHead(a[0], a[1..] + b);
      StdoutConcat(a[1..], b);
    }
  }

  lemma StderrHead(m: ChannelMsg, rest: seq<ChannelMsg>)
    ensures Stderr([m] + rest) == (if m.Extended? && m.ext == 1 then m.data else []) + Stderr(rest) && Stderr([]) == []
  {
    assert ([m] + rest)[1..] == rest;
  }

  lemma {:induction false} StderrConcat(a: seq<ChannelMsg>, b: seq<ChannelMsg>)
    ensures Stderr(a + b) == Stderr(a) + Stderr(b)
  {
    hide Stderr;
    if a == [] {
      assert a + b == b;
      StderrHead(Eof, []);
    } else {
      assert a == [a[0]] + a[1..] && a + b == [a[0]] + (a[1..] + b);
      StderrHead(a[0], a[1..]);
      StderrHead(a[0], a[1..] + b);
      StderrConcat(a[1..], b);
    }
  }

  lemma {:induction false} StatusSnoc(msgs: seq<ChannelMsg>, m: ChannelMsg, none: Option<nat>)
    ensures Status(msgs + [m], none) == if m.Exit? then Some(m.status) else Status(msgs, none)
  {
    if msgs == [] {
      assert [m][1..] == [];
    } else {
      assert (msgs + [m])[1..] == msgs[1..] + [m];
      StatusSnoc(msgs[1..], m, if msgs[0].Exit? then Some(msgs[0].status) else none);
    }
  }

  /** What one message adds to the streams and to the status. */
  lemma OneMessage(msgs: seq<ChannelMsg>, i: nat, none: Option<nat>)
    requires i < |msgs|
    ensures var seen, now := msgs[..i], msgs[..i + 1]; var m := msgs[i];
            && Stdout(now) == Stdout(seen) + (if m.Bytes? then m.data else [])
            && Stderr(now) == Stderr(seen) + (if m.Extended? && m.ext == 1 then m.data else [])
            && Status(now, none) == if m.Exit? then Some(m.status) else Status(seen, none)
  {
    hide Stdout, Stderr, Status;
    assert msgs[..i + 1] == msgs[..i] + [msgs[i]];
    StdoutConcat(msgs[..i], [msgs[i]]);
    StderrConcat(msgs[..i], [msgs[i]]);
    StatusSnoc(msgs[..i], msgs[i], none);
    Single(msgs[i]);
  }

  lemma Single(m: ChannelMsg)
    ensures Stdout([m]) == if m.Bytes? then m.data else []
    ensures Stderr([m]) == if m.Extended? && m.ext == 1 then m.data else []
  {
    assert [m][1..] == [];
  }

  lemma {:induction false} EofEnds(msgs: seq<ChannelMsg>, i: nat)
    requires i <= |msgs| && (forall k :: 0 <= k < i ==> !msgs[k].Eof?) && (i < |msgs| ==> msgs[i].Eof?)
    ensures UntilEof(msgs) == msgs[..i]
  {
    if i > 0 {
      EofEnds(msgs[1..], i - 1);
      assert [msgs[0]] + msgs[1..][..i - 1] == msgs[..i];
    }
  }

  /** Message i is the channel's last exit status, and comes after an end of file. */
  ghost predicate LateStatus(msgs: seq<ChannelMsg>, i: nat) {
    i < |msgs| && msgs[i].Exit? && (forall k :: i < k < |msgs| ==> !msgs[k].Exit?) && exists k :: 0 <= k < i && msgs[k].Eof?
  }

  lemma {:induction false} LastStatus(msgs: seq<ChannelMsg>, i: nat, none: Option<nat>)
    requires i < |msgs| && msgs[i].Exit? && forall k :: i < k < |msgs| ==> !msgs[k].Exit?
    ensures Status(msgs, none) == Some(msgs[i].status)
  {
    if i == 0 {
      NoStatus(msgs[1..], Some(msgs[0].status));
    } else {
      LastStatus(msgs[1..], i - 1, if msgs[0].Exit? then Some(msgs[0].status) else none);
    }
  }

  lemma {:induction false} NoStatus(msgs: seq<ChannelMsg>, none: Option<nat>)
    requires forall k :: 0 <= k < |msgs| ==> !msgs[k].Exit?
    ensures Status(msgs, none) == none
  {
    if msgs != [] { NoStatus(msgs[1..], none); }
  }

  lemma {:induction false} FirstEof(msgs: seq<ChannelMsg>) returns (i: nat)
    ensures i <= |msgs| && (forall k :: 0 <= k < i ==> !msgs[k].Eof?) && (i < |msgs| ==> msgs[i].Eof?) && UntilEof(msgs) == msgs[..i]
  {
    i := 0;
    while i < |msgs| && !msgs[i].Eof?
      invariant i <= |msgs| && forall k :: 0 <= k < i ==> !msgs[k].Eof?
    {
      i := i + 1;
    }
    EofEnds(msgs, i);
  }

  /** The last exit status among the first n messages, if any. */
  lemma {:induction false} SomeLast(msgs: seq<ChannelMsg>, n: nat) returns (last: Option<nat>)
    requires n <= |msgs|
    ensures last.None? ==> forall k :: 0 <= k < n ==> !msgs[k].Exit?
    ensures last.Some? ==> last.value < n && msgs[last.value].Exit? && forall k :: last.value < k < n ==> !msgs[k].Exit?
  {
    if n == 0 { last := None; } else if msgs[n - 1].Exit? { last := Some(n - 1); } else { last := SomeLast(msgs, n - 1); }
  }

  /**
   * The code reported is the last exit status of the channel, 0 without one, if and only if that status did not come after an
   * end of file with another value: the loop ends at the first end of file.
   */
  lemma CodeIsLastStatusIff(msgs: seq<ChannelMsg>)
    ensures var reported := Status(UntilEof(msgs), Some(0));
            reported == Status(msgs, Some(0)) <==> !exists i: nat :: LateStatus(msgs, i) && Some(msgs[i].status) != reported
  {
    hide Status, UntilEof;
    var n := FirstEof(msgs);
    var reported := Status(msgs[..n], Some(0));
    forall i: nat | LateStatus(msgs, i)
      ensures Status(msgs, Some(0)) == Some(msgs[i].status)
    {
      LastStatus(msgs, i, Some(0));
    }
    var last := SomeLast(msgs, |msgs|);
    if last.None? {
      NoStatus(msgs, Some(0));
      NoStatus(msgs[..n], Some(0));
    } else if last.value < n {
      LastStatus(msgs, last.value, Some(0));
      LastStatus(msgs[..n], last.value, Some(0));
    } else {
      LastStatus(msgs, last.value, Some(0));
      assert LateStatus(msgs, last.value);
    }
  }

  /** A command that failed with status 1 after its end of file is reported as 0. */
  lemma LateStatusIsLost()
    ensures Status(UntilEof([Eof, Exit(1)]), Some(0)) == Some(0) && Status([Eof, Exit(1)], Some(0)) == Some(1)
  {
    assert [Eof, Exit(1)][1..] == [Exit(1)] && [Exit(1)][1..] == [];
  }

  /** Drains the channel of a command up to end of file or the end of the channel. */
  method DrainExec(msgs: seq<ChannelMsg>) returns (stdout: string, stderr: string, exitCode: nat)
    ensures stdout == Stdout(UntilEof(msgs)) && stderr == Stderr(UntilEof(msgs))
    ensures Some(exitCode) == Status(UntilEof(msgs), Some(0))
  {
    hide UntilEof, Stdout, Stderr, Status;
    stdout, stderr, exitCode := [], [], 0;
    var i := 0;
    NothingYet(msgs);
    while i < |msgs| && !msgs[i].Eof?
      invariant 0 <= i <= |msgs| && forall k :: 0 <= k < i ==> !msgs[k].Eof?
      invariant stdout == Stdout(msgs[..i]) && stderr == Stderr(msgs[..i])
      invariant Some(exitCode) == Status(msgs[..i], Some(0))
    {
      OneMessage(msgs, i, Some(0));
      match msgs[i] {
        case Bytes(data) => stdout := stdout + data;
        case Extended(data, ext) => if ext == 1 { stderr := stderr + data; }
        case Exit(status) => exitCode := status;
        case _ =>
      }
      i := i + 1;
    }
    EofEnds(msgs, i);
  }

  lemma NothingYet(msgs: seq<ChannelMsg>)
    ensures Stdout(msgs[..0]) == [] && Stderr(msgs[..0]) == [] && Status(msgs[..0], Some(0)) == Some(0)
  {
  }

  /** Waits for the end of an upload's channel; a missing exit status counts as success. */
  method AwaitUpload(msgs: seq<ChannelMsg>) returns (ok: bool)
    ensures ok <==> Status(msgs, None) in {None, Some(0)}
  {
    var code: Option<nat> := None;
    var i := 0;
    while i < |msgs|
      invariant 0 <= i <= |msgs|
      invariant Status(msgs, None) == Status(msgs[i..], code)
    {
      assert msgs[i..][1..] == msgs[i + 1..];
      if msgs[i].Exit? { code := Some(msgs[i].status); }
      i := i + 1;
    }
    ok := code.None? || code == Some(0);
  }
}

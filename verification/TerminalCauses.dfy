/** Why a session says what it says to the client, and that a session nothing fails in can always be brought to its end. */
module TerminalCauses {
  import opened Basics
  import opened Terminal

  // --- Causes ---------------------------------------------------------------------------------

  /** What this event, in this state, gives the client to hear. */
  function Says(s: Session, e: Event): seq<ServerMsg> {
    match e
    case Open => if s.reader.Announce? then [Opened] else []
    case Connect(ok, message) => if s.bridge.Connecting? && !ok then [Error(message)] else []
    case FromSsh(Data(data)) => if s.bridge.Selecting? then [Output(data)] else []
    case FromSsh(Stop) => if s.bridge.Selecting? then [Closed] else []
    case FromClient(ok, _, message) =>
      if s.bridge.Selecting? && s.toSsh != [] && s.toSsh[0].Input? && !ok then [Error("SSH write error: " + message)] else []
    case UploadDone(ok, message) =>
      if !s.bridge.Uploading? then []
      else if ok then [FileUploaded(s.bridge.path)] else [FileUploadError(s.bridge.path, message)]
    case _ => []
  }

  /** All of it, in order. */
  function Said(es: seq<Event>): seq<ServerMsg> {
    if es == [] then [] else Said(es[..|es| - 1]) + Says(Run(es[..|es| - 1]), es[|es| - 1])
  }

  function Pending(b: Bridge): seq<ServerMsg> {
    match b
    case Queueing(event, _) => [event]
    case Reporting(message) => [Error(message)]
    case _ => []
  }

  ghost predicate SaidOk(s: Session, said: seq<ServerMsg>) {
    s.emitted <= said && (!s.writer.Stopped? ==> s.emitted + Pending(s.bridge) == said)
  }

  lemma StepKeepsSaid(s: Session, e: Event, said: seq<ServerMsg>)
    requires SaidOk(s, said) && TasksOk(s) && DeliveredOk(s)
    ensures SaidOk(Apply(s, e), said + Says(s, e))
  {
    hide TasksOk, DeliveredOk, Apply, Says, Pending;
    if e.Queue? {
      QueueKeepsSaid(s, said);
    } else {
      OthersSay(s, e);
      var after := Apply(s, e);
      var more := said + Says(s, e);
      if !s.writer.Stopped? { assert after.emitted + Pending(after.bridge) == more; }
      assert after.emitted <= more;
    }
  }

  /** Queueing moves the event in the bridge's hand to the writer's queue, or drops it if the writer has stopped. */
  lemma QueueKeepsSaid(s: Session, said: seq<ServerMsg>)
    requires SaidOk(s, said) && TasksOk(s) && DeliveredOk(s)
    ensures SaidOk(Apply(s, Queue), said + Says(s, Queue))
  {
    hide Final, EventInHand;
    assert said + [] == said;
  }

  /** Any other event adds what it gives to hear. */
  lemma OthersSay(s: Session, e: Event)
    requires !e.Queue? && TasksOk(s) && DeliveredOk(s)
    ensures var after := Apply(s, e);
            && after.emitted + Pending(after.bridge) == s.emitted + Pending(s.bridge) + Says(s, e)
            && (s.writer.Stopped? ==> after.writer.Stopped? && after.emitted == s.emitted)
  {
    hide Final, EventInHand;
    assert s.emitted + Pending(s.bridge) + [] == s.emitted + Pending(s.bridge);
  }

  lemma {:induction false} RunSaid(es: seq<Event>)
    ensures SaidOk(Run(es), Said(es))
  {
    hide SaidOk, Apply, Says;
    if es == [] {
      NothingSaid();
    } else {
      RunSaid(es[..|es| - 1]);
      RunOk(es[..|es| - 1]);
      StepKeepsSaid(Run(es[..|es| - 1]), es[|es| - 1], Said(es[..|es| - 1])) by { SessionParts(Run(es[..|es| - 1])); }
    }
  }

  lemma NothingSaid()
    ensures SaidOk(INIT, [])
  {
  }

  lemma SessionParts(s: Session)
    requires SessionOk(s)
    ensures TasksOk(s) && EmittedOk(s) && DeliveredOk(s)
  {
  }

  /** Event j is what made the session say it. */
  ghost predicate SaidAt(es: seq<Event>, j: nat, msg: ServerMsg) { j < |es| && msg in Says(Run(es[..j]), es[j]) }

  lemma {:induction false} SaidHasCause(es: seq<Event>, msg: ServerMsg)
    requires msg in Said(es)
    ensures exists j: nat :: SaidAt(es, j, msg)
  {
    hide Run, Says;
    var k := |es| - 1;
    if msg in Says(Run(es[..k]), es[k]) {
      assert SaidAt(es, k, msg);
    } else {
      SaidHasCause(es[..k], msg);
      var j: nat :| SaidAt(es[..k], j, msg);
      assert es[..k][..j] == es[..j] && es[..k][j] == es[j];
      assert SaidAt(es, j, msg);
    }
  }

  /**
   * In every interleaving the client is told, in order, exactly what the SSH side and the uploads gave rise to: everything,
   * up to the event in the bridge's hand, as long as the writer listens, and a prefix once it has stopped.
   */
  lemma ClientIsToldWhatHappened(es: seq<Event>)
    ensures var s := Run(es);
            && s.sent <= s.emitted <= Said(es)
            && (!s.writer.Stopped? ==> s.emitted + Pending(s.bridge) == Said(es))
            && (s.bridge == Over(ByServer) && !s.writer.Stopped? ==>
                  s.emitted == Said(es) && s.emitted != [] && Final(s.emitted[|s.emitted| - 1]))
  {
    hide Run, Said;
    RunSaid(es);
    RunOk(es);
    RunEnds(es);
  }

  /** A bridge over by the server's doing has queued its last word, unless the writer stopped listening. */
  ghost predicate EndsOk(s: Session) {
    s.bridge == Over(ByServer) && !s.writer.Stopped? ==> s.emitted != [] && Final(s.emitted[|s.emitted| - 1])
  }

  lemma {:induction false} RunEnds(es: seq<Event>)
    ensures EndsOk(Run(es))
  {
    hide Apply, EndsOk;
    if es == [] {
      assert EndsOk(INIT) by { InitEnds(); }
    } else {
      RunEnds(es[..|es| - 1]);
      RunOk(es[..|es| - 1]);
      StepKeepsEnds(Run(es[..|es| - 1]), es[|es| - 1]) by { SessionParts(Run(es[..|es| - 1])); }
    }
  }

  lemma InitEnds()
    ensures EndsOk(INIT)
  {
  }

  lemma StepKeepsEnds(s: Session, e: Event)
    requires EndsOk(s) && TasksOk(s)
    ensures EndsOk(Apply(s, e))
  {
  }

  /** The cause of an error, a closing, an upload's success or its failure. */
  ghost predicate CausedBy(msg: ServerMsg, e: Event) {
    match msg
    case Opened => e.Open?
    case Output(data) => e == FromSsh(Data(data))
    case Closed => e == FromSsh(Stop)
    case Error(m) => e == Connect(false, m) || (e.FromClient? && !e.ok && m == "SSH write error: " + e.message)
    case FileUploaded(_) => e.UploadDone? && e.ok
    case FileUploadError(_, m) => e == UploadDone(false, m)
  }

  /**
   * In every interleaving each message to the client has its cause among the events: an error only from a failing
   * connection or a failing write, with its text, a closing only from the SSH side, an upload's success or failure only
   * from one.
   */
  lemma EveryMessageHasItsCause(es: seq<Event>, msg: ServerMsg)
    requires msg in Run(es).emitted
    ensures exists j :: 0 <= j < |es| && CausedBy(msg, es[j])
  {
    hide Run, Says, CausedBy;
    EmittedHasCause(es, msg);
    var j: nat :| SaidAt(es, j, msg);
    SaysHasCause(Run(es[..j]), es[j], msg);
  }

  lemma EmittedHasCause(es: seq<Event>, msg: ServerMsg)
    requires msg in Run(es).emitted
    ensures exists j: nat :: SaidAt(es, j, msg)
  {
    hide Run, Said, Says;
    RunSaid(es);
    var i :| 0 <= i < |Run(es).emitted| && Run(es).emitted[i] == msg;
    assert Said(es)[i] == msg;
    SaidHasCause(es, msg);
  }

  lemma SaysHasCause(s: Session, e: Event, msg: ServerMsg)
    requires msg in Says(s, e)
    ensures CausedBy(msg, e)
  {
  }

  // --- The connection -----------------------------------------------------------------------------

  /** The connection was tried at event j, with this outcome. */
  ghost predicate ConnectedAt(es: seq<Event>, j: nat, ok: bool) {
    j < |es| && es[j].Connect? && es[j].ok == ok && Run(es[..j]).bridge.Connecting?
  }

  ghost predicate Connected(es: seq<Event>, ok: bool) { exists j: nat :: ConnectedAt(es, j, ok) }

  /** Where the bridge can stand before, after a failing and after a successful connection. */
  ghost predicate ConnectionOk(es: seq<Event>, s: Session) {
    && (s.bridge.NotSpawned? || s.bridge.Connecting? <==> !Connected(es, true) && !Connected(es, false))
    && (!Connected(es, true) ==> s.written == [] && s.read == [])
    && (Connected(es, false) ==> !Connected(es, true) && (s.bridge.Reporting? || s.bridge == Over(ByServer)))
    && (Connected(es, true) ==> !s.bridge.Reporting?)
  }

  lemma ConnectedSnoc(es: seq<Event>, e: Event, ok: bool)
    ensures Connected(es + [e], ok) <==> Connected(es, ok) || (e.Connect? && e.ok == ok && Run(es).bridge.Connecting?)
  {
    hide Run;
    assert (es + [e])[..|es|] == es;
    if Connected(es, ok) {
      var j: nat :| ConnectedAt(es, j, ok);
      assert (es + [e])[..j] == es[..j] && (es + [e])[j] == es[j];
      assert ConnectedAt(es + [e], j, ok);
    }
    if e.Connect? && e.ok == ok && Run(es).bridge.Connecting? { assert ConnectedAt(es + [e], |es|, ok); }
    if j: nat :| ConnectedAt(es + [e], j, ok) && j < |es| {
      assert (es + [e])[..j] == es[..j] && (es + [e])[j] == es[j];
      assert ConnectedAt(es, j, ok);
    }
  }

  lemma {:induction false} RunConnection(es: seq<Event>)
    ensures ConnectionOk(es, Run(es))
  {
    hide Apply, Connected;
    if es == [] {
      assert !Connected([], true) && !Connected([], false) by { NeverConnected(); }
    } else {
      var before, e := es[..|es| - 1], es[|es| - 1];
      RunConnection(before);
      RunOk(before);
      assert es == before + [e];
      ConnectedSnoc(before, e, true);
      ConnectedSnoc(before, e, false);
      StepConnects(Run(before), e) by { SessionParts(Run(before)); }
    }
  }

  lemma NeverConnected()
    ensures !Connected([], true) && !Connected([], false)
  {
  }

  /** Where the bridge can get from where. */
  lemma StepConnects(s: Session, e: Event)
    requires TasksOk(s)
    ensures var after := Apply(s, e);
            && (s.bridge.NotSpawned? ==> after.bridge.NotSpawned? || after.bridge.Connecting?)
            && (s.bridge.Connecting? ==>
                  after.bridge == if e.Connect? then (if e.ok then Selecting else Reporting(e.message)) else Connecting)
            && (!s.bridge.NotSpawned? && !s.bridge.Connecting? ==> !after.bridge.NotSpawned? && !after.bridge.Connecting?)
            && (s.bridge.Reporting? ==> after.bridge.Reporting? || after.bridge == Over(ByServer))
            && (s.bridge.Over? ==> after.bridge == s.bridge)
            && (after.bridge.Reporting? ==> s.bridge.Reporting? || s.bridge.Connecting?)
            && (after.written != s.written || after.read != s.read ==> s.bridge.Selecting?)
  {
  }

  /**
   * In every interleaving a session whose connection failed has neither read from nor written to SSH and tells the client
   * only that; one whose connection succeeded and whose writes do tells it of no error.
   */
  lemma ConnectionDecides(es: seq<Event>)
    ensures var s := Run(es);
            && (Connected(es, false) ==> s.written == [] && s.read == [])
            && (Connected(es, true) && (forall j :: 0 <= j < |es| && es[j].FromClient? ==> es[j].ok) ==>
                  forall i :: 0 <= i < |s.emitted| ==> !s.emitted[i].Error?)
  {
    hide Connected;
    RunConnection(es);
    if Connected(es, true) && (forall j :: 0 <= j < |es| && es[j].FromClient? ==> es[j].ok) {
      forall i | 0 <= i < |Run(es).emitted|
        ensures !Run(es).emitted[i].Error?
      {
        if Run(es).emitted[i].Error? { ErrorNeedsFailure(es, Run(es).emitted[i]); }
      }
    }
  }

  /** An error after a successful connection comes from a write. */
  lemma ErrorNeedsFailure(es: seq<Event>, msg: ServerMsg)
    requires msg in Run(es).emitted && msg.Error? && Connected(es, true)
    ensures exists j :: 0 <= j < |es| && es[j].FromClient? && !es[j].ok
  {
    hide Run;
    EmittedHasCause(es, msg);
    var j: nat :| SaidAt(es, j, msg);
    if es[j].Connect? {
      assert ConnectedAt(es, j, false);
      RunConnection(es);
      assert false;
    }
  }

  // --- Every session can finish ------------------------------------------------------------------------

  /** The session after more events. */
  function Follow(s: Session, es: seq<Event>): Session
    decreases |es|
  {
    if es == [] then s else Follow(Apply(s, es[0]), es[1..])
  }

  lemma {:induction false} FollowConcat(s: Session, es: seq<Event>, more: seq<Event>)
    ensures Follow(s, es + more) == Follow(Follow(s, es), more)
    decreases |es|
  {
    hide Apply;
    if es == [] {
      assert [] + more == more;
    } else {
      assert (es + more)[1..] == es[1..] + more;
      FollowConcat(Apply(s, es[0]), es[1..], more);
    }
  }

  lemma FollowOne(s: Session, e: Event, more: seq<Event>)
    ensures Follow(s, [e] + more) == Follow(Apply(s, e), more) && Follow(s, [e]) == Apply(s, e) && Follow(s, []) == s
  {
    hide Apply;
    assert ([e] + more)[1..] == more && [e][1..] == [];
  }

  lemma {:induction false} RunFollow(es: seq<Event>, more: seq<Event>)
    ensures Run(es + more) == Follow(Run(es), more)
    decreases |more|
  {
    hide Apply;
    if more == [] {
      assert es + more == es;
    } else {
      assert es + more == (es + [more[0]]) + more[1..];
      RunFollow(es + [more[0]], more[1..]);
      assert (es + [more[0]])[..|es|] == es;
    }
  }

  ghost predicate Quiet(s: Session) { s.writer.Receiving? && s.toClient == [] }

  /** The writer delivers everything it has. */
  lemma {:induction false} WriterDrains(s: Session) returns (more: seq<Event>)
    requires s.writer.Receiving? || s.writer.Delivering?
    requires Closed !in EventInHand(s.writer) + s.toClient
    ensures Follow(s, more) == s.(writer := Receiving, toClient := [], sent := s.sent + (EventInHand(s.writer) + s.toClient))
    decreases |s.toClient|, if s.writer.Delivering? then 1 else 0
  {
    hide Follow;
    var all := EventInHand(s.writer) + s.toClient;
    if s.writer.Delivering? {
      assert all[0] == s.writer.event;
      var s1 := Apply(s, Deliver(true));
      assert all == [s.writer.event] + s.toClient && EventInHand(s1.writer) + s1.toClient == s.toClient;
      var rest := WriterDrains(s1);
      FollowOne(s, Deliver(true), rest);
      assert s.sent + [s.writer.event] + s.toClient == s.sent + all;
      more := [Deliver(true)] + rest;
    } else if s.toClient != [] {
      var s1 := Apply(s, Receive);
      assert EventInHand(s1.writer) + s1.toClient == all;
      var rest := WriterDrains(s1);
      FollowOne(s, Receive, rest);
      more := [Receive] + rest;
    } else {
      FollowOne(s, Receive, []);
      more := [];
    }
  }

  /** Connecting or connected, and not about to say its last word. */
  ghost predicate Alive(b: Bridge) {
    b.Connecting? || b.Selecting? || b.Uploading? || (b.Queueing? && !b.after.Finish? && !b.event.Closed?)
  }

  /** The same reader and frames, the same client messages, a bridge that selects and a writer with nothing to do. */
  ghost predicate Resumed(s: Session, after: Session) {
    && after.bridge.Selecting? && Quiet(after) && after.sent == after.emitted
    && after.reader == s.reader && after.frames == s.frames && after.toSsh == s.toSsh
  }

  ghost predicate SentAll(s: Session) { Quiet(s) && s.sent == s.emitted }

  lemma BridgeResumes(s: Session) returns (more: seq<Event>)
    requires Alive(s.bridge) && SentAll(s)
    ensures Resumed(s, Follow(s, more))
  {
    hide Follow;
    if s.bridge.Connecting? {
      FollowOne(s, Connect(true, ""), []);
      more := [Connect(true, "")];
    } else if s.bridge.Selecting? {
      FollowOne(s, Queue, []);
      more := [];
    } else if s.bridge.Queueing? {
      more := QueuedResumes(s);
    } else {
      var s1 := Apply(s, UploadDone(true, ""));
      var rest := QueuedResumes(s1);
      FollowOne(s, UploadDone(true, ""), rest);
      more := [UploadDone(true, "")] + rest;
    }
  }

  lemma QueuedResumes(s: Session) returns (more: seq<Event>)
    requires s.bridge.Queueing? && Alive(s.bridge) && SentAll(s)
    ensures Resumed(s, Follow(s, more))
  {
    hide Follow;
    var s1 := Apply(s, Queue);
    var rest := WriterDrains(s1);
    FollowOne(s, Queue, rest);
    more := [Queue] + rest;
  }

  /** The bridge works off its queue. */
  lemma {:induction false} QueueDrains(s: Session) returns (more: seq<Event>)
    requires s.bridge.Selecting? && SentAll(s)
    ensures Resumed(s.(toSsh := []), Follow(s, more))
    decreases |s.toSsh|
  {
    hide Follow;
    if s.toSsh == [] {
      FollowOne(s, Queue, []);
      more := [];
    } else {
      var take := FromClient(true, 0, "");
      var s1 := Apply(s, take);
      var again := BridgeResumes(s1);
      var s2 := Follow(s1, again);
      var rest := QueueDrains(s2);
      FollowOne(s, take, again + rest);
      FollowConcat(s1, again, rest);
      more := [take] + (again + rest);
    }
  }

  /** The reader hands over what it holds and hears the client hang up. */
  lemma ReaderLeaves(s: Session) returns (more: seq<Event>)
    requires s.bridge.Selecting? && SentAll(s) && s.toSsh == [] && !s.reader.AwaitFirst? && !s.reader.Announce?
    ensures var after := Follow(s, more);
            && after.bridge.Selecting? && SentAll(after) && after.reader.Left? && s.frames <= after.frames <= s.frames + [HangUp]
  {
    hide Follow;
    if s.reader.Left? {
      FollowOne(s, Queue, []);
      more := [];
    } else if s.reader.Reading? {
      FollowOne(s, TakeFrame(HangUp), []);
      more := [TakeFrame(HangUp)];
    } else {
      FollowOne(s, Forward, [TakeFrame(HangUp)]);
      FollowOne(Apply(s, Forward), TakeFrame(HangUp), []);
      more := [Forward, TakeFrame(HangUp)];
      assert more == [Forward] + [TakeFrame(HangUp)];
    }
  }

  /** What is still on its way to the client holds no closing, as long as the bridge is alive. */
  lemma NoClosingYet(s: Session)
    requires EmittedOk(s) && DeliveredOk(s) && Alive(s.bridge) && !s.writer.Stopped?
    ensures Closed !in EventInHand(s.writer) + s.toClient && !s.writer.Idle?
  {
    hide Outputs;
    var rest := EventInHand(s.writer) + s.toClient;
    forall i | 0 <= i < |rest|
      ensures rest[i] != Closed
    {
      assert s.emitted[|s.sent| + i] == rest[i];
    }
  }

  /**
   * From every state any run can reach in which the bridge is alive and the writer listens, there is a way to finish: the
   * client hangs up, everything it ever sent is written to SSH, everything queued for it is delivered, and the tasks end.
   */
  lemma EverySessionCanFinish(es: seq<Event>) returns (more: seq<Event>)
    requires Alive(Run(es).bridge) && !Run(es).writer.Stopped?
    ensures var s, after := Run(es), Run(es + more);
            && s.frames <= after.frames <= s.frames + [HangUp]
            && after.bridge == Over(ByClient) && after.written == Typed(s.frames)
            && after.writer.Stopped? && after.sent == after.emitted && after.toSsh == []
  {
    hide Run, Follow, Typed, Inputs, Outputs;
    RunOk(es);
    var s := Run(es);
    NoClosingYet(s);
    var a := WriterDrains(s);
    var s1 := Follow(s, a);
    var b := BridgeResumes(s1);
    var s2 := Follow(s1, b);
    var c := QueueDrains(s2);
    var s3 := Follow(s2, c);
    var d := ReaderLeaves(s3);
    var s4 := Follow(s3, d);
    // The reader may have handed over one more message.
    var f := QueueDrains(s4);
    var s5 := Follow(s4, f);
    var last := FromClient(true, 0, "");
    FollowOne(s5, last, [Receive]);
    FollowOne(Apply(s5, last), Receive, []);
    FollowConcat(s, a, b);
    FollowConcat(s, a + b, c);
    FollowConcat(s, a + b + c, d);
    FollowConcat(s, a + b + c + d, f);
    more := a + b + c + d + f + ([last] + [Receive]);
    FollowConcat(s, a + b + c + d + f, [last] + [Receive]);
    RunFollow(es, more);
    RunOk(es + more);
    InputsEmpty();
    HangUpTypes(s.frames, Run(es + more).frames);
  }

  lemma HangUpTypes(frames: seq<Frame>, after: seq<Frame>)
    requires frames <= after <= frames + [HangUp]
    ensures Typed(after) == Typed(frames)
  {
    hide Typed;
    if |after| == |frames| {
      assert after == frames;
    } else {
      assert after == frames + [HangUp];
      TypedSnoc(frames, HangUp);
    }
  }
}

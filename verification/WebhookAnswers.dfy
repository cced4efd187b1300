/** Whole webhook requests: which are answered how, and what each leaves stored, logged and run. */
module WebhookAnswers {
  import opened Basics
  import opened Webhook
  import opened WebhookRuns
  import opened Shell

  datatype Final = Final(state: State, answer: Answer)

  /** The place of an await in its request. */
  function Place(p: Proc): nat {
    match p
    case Store(_) => 1
    case Write(_, _, _) => 1
    case Refresh(_) => 2
    case Erase(_) => 1
    case LogDelivery(_, _, _, _) => 1
    case Skip(_, _, _, _) => 2
    case LoadContainer(_, _, _, _, _) => 2
    case MarkRunning(_, _, _, _) => 3
    case Deploy(_, _, _, _) => 4
    case Report(_, _, _) => 5
    case _ => 0
  }

  lemma PlaceRises(s: State, p: Proc, reply: Reply, exit: Exit)
    ensures var o := Step(s, p, reply, exit); o.next.Continue? ==> Place(o.next.p) == Place(p) + 1
    ensures Place(p) <= 5
  {
    hide ValidateCreate, ValidateUpdate, Updated, SetStatus, DeployCommand;
  }

  /** The request and the deployment it spawns, alone and to the end; await k is answered by `replies(k)`. */
  ghost function Finish(s: State, next: Next, replies: nat -> Reply, exit: Exit): Final
    decreases if next.Continue? then 6 - Place(next.p) else 0
  {
    match next
    case Return(answer) => Final(s, answer)
    case Continue(p) =>
      PlaceRises(s, p, replies(Place(p)), exit);
      var o := Step(s, p, replies(Place(p)), exit);
      Finish(o.state, o.next, replies, exit)
  }

  lemma Advance(s: State, p: Proc, replies: nat -> Reply, exit: Exit)
    ensures var o := Step(s, p, replies(Place(p)), exit);
            && Finish(s, Continue(p), replies, exit) == Finish(o.state, o.next, replies, exit)
            && (o.next.Return? ==> Finish(s, Continue(p), replies, exit) == Final(o.state, o.next.answer))
  {
    hide Step;
    PlaceRises(s, p, replies(Place(p)), exit);
  }

  ghost function Perform(s: State, req: Request, replies: nat -> Reply, exit: Exit): Final {
    Finish(s, Continue(Start(req)), replies, exit)
  }

  /** Every await goes through, the last report as given. */
  function AllDone(report: Reply): nat -> Reply { (k: nat) => if k == 5 then report else Done }

  ghost function Answered(s: State, req: Request, report: Reply, exit: Exit): Final { Perform(s, req, AllDone(report), exit) }

  lemma FailureIsInternal(s: State, p: Proc, reply: Reply, exit: Exit)
    requires reply.Fail? && !p.Report? && !p.Deploy?
    ensures Step(s, p, reply, exit).next == Return(Internal)
  {
    hide ValidateCreate, ValidateUpdate, Updated, SetStatus, DeployCommand;
  }

  lemma {:induction false} DoneUnlessInternal(s: State, next: Next, replies: nat -> Reply, exit: Exit)
    requires Finish(s, next, replies, exit).answer != Internal
    ensures Finish(s, next, replies, exit) == Finish(s, next, AllDone(replies(5)), exit)
    decreases if next.Continue? then 6 - Place(next.p) else 0
  {
    hide Step, Finish;
    match next
    case Return(answer) => Returned(s, answer, replies, exit); Returned(s, answer, AllDone(replies(5)), exit);
    case Continue(p) =>
      var reply := replies(Place(p));
      Advance(s, p, replies, exit);
      Advance(s, p, AllDone(replies(5)), exit);
      PlaceRises(s, p, reply, exit);
      if p.Deploy? {
        CommandRuns(s, p, reply, exit);
      } else if !p.Report? && reply.Fail? {
        FailureIsInternal(s, p, reply, exit);
      }
      var o := Step(s, p, reply, exit);
      if o.next.Continue? { DoneUnlessInternal(o.state, o.next, replies, exit); }
  }

  lemma Returned(s: State, answer: Answer, replies: nat -> Reply, exit: Exit)
    ensures Finish(s, Return(answer), replies, exit) == Final(s, answer)
  {
  }

  lemma CommandRuns(s: State, p: Proc, reply: Reply, exit: Exit)
    requires p.Deploy?
    ensures Step(s, p, reply, exit) == Step(s, p, Done, exit)
  {
  }

  /** Whatever fails, a request is answered with an internal error or ends as if only the final report could fail. */
  lemma AnsweredUnlessInternal(s: State, req: Request, replies: nat -> Reply, exit: Exit)
    ensures var f := Perform(s, req, replies, exit); f.answer != Internal ==> f == Answered(s, req, replies(5), exit)
  {
    hide Finish;
    if Perform(s, req, replies, exit).answer != Internal { DoneUnlessInternal(s, Continue(Start(req)), replies, exit); }
  }

  /** An await that fails without taking effect changes nothing, and ends any request still to be answered with an internal error. */
  lemma LostAwait(s: State, p: Proc, exit: Exit)
    requires !p.Deploy?
    ensures Step(s, p, Fail(false), exit) == Outcome(s, Return(if p.Report? then Success else Internal))
  {
  }

  /** The events of a request served from await to await with nothing in between. */
  ghost function Served(s: State, pid: nat, next: Next, replies: nat -> Reply, exit: Exit): seq<Event>
    decreases if next.Continue? then 6 - Place(next.p) else 0
  {
    match next
    case Return(_) => []
    case Continue(p) =>
      PlaceRises(s, p, replies(Place(p)), exit);
      var o := Step(s, p, replies(Place(p)), exit);
      [Act(pid, replies(Place(p)), exit)] + Served(o.state, pid, o.next, replies, exit)
  }

  lemma {:induction false} RunFirst(w: World, e: Event, es: seq<Event>)
    ensures Run(w, [e] + es) == Run(Apply(w, e), es)
  {
    hide Apply;
    var all := [e] + es;
    if es == [] {
      assert all[..0] == [];
    } else {
      RunFirst(w, e, es[..|es| - 1]);
      assert all[..|all| - 1] == [e] + es[..|es| - 1];
    }
  }

  lemma {:induction false} ServedFinishes(w: World, pid: nat, next: Next, replies: nat -> Reply, exit: Exit)
    requires next.Continue? ==> pid in w.procs && w.procs[pid] == next.p
    requires next.Return? ==> pid !in w.procs
    ensures var after := Run(w, Served(w.s, pid, next, replies, exit));
            after.s == Finish(w.s, next, replies, exit).state && after.procs == w.procs - {pid} && after.nextPid == w.nextPid
    decreases if next.Continue? then 6 - Place(next.p) else 0
  {
    hide Step;
    match next
    case Return(_) => assert Run(w, []) == w;
    case Continue(p) =>
      PlaceRises(w.s, p, replies(Place(p)), exit);
      var o, e := Step(w.s, p, replies(Place(p)), exit), Act(pid, replies(Place(p)), exit);
      var after := Apply(w, e);
      ServedFinishes(after, pid, o.next, replies, exit);
      RunFirst(w, e, Served(o.state, pid, o.next, replies, exit));
      assert after.procs - {pid} == w.procs - {pid};
  }

  /** Whatever the others stand at, a request can be served in one go, with the outcome it has alone. */
  lemma ServedAlone(w: World, req: Request, replies: nat -> Reply, exit: Exit)
    requires w.nextPid !in w.procs
    ensures exists es: seq<Event> :: var after := Run(w, [Begin(req)] + es);
              after.s == Perform(w.s, req, replies, exit).state && after.procs == w.procs
  {
    hide Step;
    var begun, es := Apply(w, Begin(req)), Served(w.s, w.nextPid, Continue(Start(req)), replies, exit);
    ServedFinishes(begun, w.nextPid, Continue(Start(req)), replies, exit);
    RunFirst(w, Begin(req), es);
    assert Run(w, [Begin(req)] + es).procs == w.procs;
  }

  // --- Configurations -----------------------------------------------------------------------

  predicate BranchPasses(branch: string) {
    && 1 <= |branch| <= 255
    && forall c :: c in branch ==>
         'a' <= c <= 'z' || 'A' <= c <= 'Z' || '0' <= c <= '9' || c == '.' || c == '_' || c == '/' || c == '-'
  }

  predicate DirPasses(dir: string) { 1 <= |dir| <= 4096 && dir[0] == '/' && '\'' !in dir && '\0' !in dir }

  lemma CreateMeaning(req: CreateRequest)
    ensures ValidateCreate(req) == None <==>
            BranchPasses(req.branch) && DirPasses(req.dir) && |req.cmd| <= 4096 && 16 <= |req.secret| <= 512
  {
    hide ValidateBranch, ValidateWorkingDir;
    BranchMeaning(req.branch);
    DirMeaning(req.dir);
  }

  /** Some field is given, and every given one passes. */
  predicate UpdatePasses(req: UpdateRequest) {
    && (req.provider.Some? || req.secret.Some? || req.branch.Some? || req.dir.Some? || req.cmd.Some?)
    && (req.branch.Some? ==> BranchPasses(req.branch.value))
    && (req.dir.Some? ==> DirPasses(req.dir.value))
    && (req.secret.Some? ==> 16 <= |req.secret.value| <= 512)
    && (req.cmd.Some? ==> |req.cmd.value| <= 4096)
  }

  lemma UpdateMeaning(req: UpdateRequest)
    ensures ValidateUpdate(req) == None <==> UpdatePasses(req)
  {
    hide ValidateBranch, ValidateWorkingDir;
    if req.branch.Some? { BranchMeaning(req.branch.value); }
    if req.dir.Some? { DirMeaning(req.dir.value); }
  }

  /** Every create: refused without permission, then for a field that does not pass, else stored under a new id. */
  lemma CreateConfigAnswer(s: State, mayUse: bool, container: Id, req: CreateRequest, now: nat, report: Reply, exit: Exit)
    ensures Answered(s, CreateConfig(mayUse, container, req, now), report, exit) ==
            if !mayUse then Final(s, Forbidden)
            else if !(BranchPasses(req.branch) && DirPasses(req.dir) && |req.cmd| <= 4096 && 16 <= |req.secret| <= 512)
            then Final(s, Validation)
            else Final(s.(configs := s.configs[s.issued := Config(container, req.provider, req.secret, req.branch, req.dir,
                                                                  req.cmd, now, now)],
                          issued := s.issued + 1), Success)
  {
    hide Finish, ValidateCreate, BranchPasses, DirPasses;
    CreateMeaning(req);
    Advance(s, Permit(mayUse, container, req, now), AllDone(report), exit);
    if mayUse && ValidateCreate(req) == None {
      var config := Config(container, req.provider, req.secret, req.branch, req.dir, req.cmd, now, now);
      Advance(s, Store(config), AllDone(report), exit);
    }
  }

  /** Every update: exactly the given fields and the update time are written. */
  lemma UpdateConfigAnswer(s: State, mayUse: bool, id: Id, req: UpdateRequest, now: nat, report: Reply, exit: Exit)
    ensures var f := Answered(s, UpdateConfig(mayUse, id, req, now), report, exit);
            if id !in s.configs then f == Final(s, NotFound)
            else if !mayUse then f == Final(s, Forbidden)
            else if !UpdatePasses(req) then f == Final(s, Validation)
            else
              && f.answer == Success && id in f.state.configs
              && f.state == s.(configs := s.configs[id := f.state.configs[id]])
              && var was, c := s.configs[id], f.state.configs[id];
              && c.container == was.container && c.created == was.created && c.updated == now
              && c.provider == (if req.provider.Some? then req.provider.value else was.provider)
              && c.secret == (if req.secret.Some? then req.secret.value else was.secret)
              && c.branch == (if req.branch.Some? then req.branch.value else was.branch)
              && c.dir == (if req.dir.Some? then req.dir.value else was.dir)
              && c.cmd == (if req.cmd.Some? then req.cmd.value else was.cmd)
  {
    hide Finish, ValidateUpdate, UpdatePasses;
    UpdateMeaning(req);
    Advance(s, LoadForUpdate(mayUse, id, req, now), AllDone(report), exit);
    if id in s.configs && mayUse && ValidateUpdate(req) == None {
      Advance(s, Write(id, req, now), AllDone(report), exit);
      Advance(Step(s, Write(id, req, now), Done, exit).state, Refresh(id), AllDone(report), exit);
    }
  }

  /** Every delete: the configuration goes, and with it its deliveries and no others. */
  lemma DeleteConfigAnswer(s: State, mayUse: bool, id: Id, report: Reply, exit: Exit)
    ensures var f := Answered(s, DeleteConfig(mayUse, id), report, exit);
            if id !in s.configs then f == Final(s, NotFound)
            else if !mayUse then f == Final(s, Forbidden)
            else
              && f.answer == Success
              && f.state == s.(configs := s.configs - {id}, deliveries := f.state.deliveries)
              && (forall d :: d in f.state.deliveries <==> d in s.deliveries && s.deliveries[d].webhook != id)
              && (forall d :: d in f.state.deliveries ==> f.state.deliveries[d] == s.deliveries[d])
  {
    hide Finish;
    Advance(s, LoadForDelete(mayUse, id), AllDone(report), exit);
    if id in s.configs && mayUse { Advance(s, Erase(id), AllDone(report), exit); }
  }

  /** A configuration deleted between an update's write and its second read: the update reports it missing. */
  lemma UpdateMeetsDelete(s: State, id: Id, req: UpdateRequest, now: nat, exit: Exit)
    requires id in s.configs
    ensures var written := Step(s, Write(id, req, now), Done, exit);
            var erased := Step(written.state, Erase(id), Done, exit);
            var read := Step(erased.state, Refresh(id), Done, exit);
            && written.next == Continue(Refresh(id)) && erased.next == Return(Success) && read.next == Return(NotFound)
            && read.state.configs == s.configs - {id}
  {
    hide Updated;
  }

  /** A configuration deleted between an event's load and its log: nothing is logged and the sender gets an internal error. */
  lemma EventMeetsDelete(s: State, id: Id, push: Push, there: bool, exit: Exit)
    requires id in s.configs
    ensures var loaded := Step(s, LoadConfig(id, true, Some(push), there), Done, exit);
            var erased := Step(loaded.state, Erase(id), Done, exit);
            && loaded.next.Continue?
            && var logged := Step(erased.state, loaded.next.p, Done, exit);
            logged.next == Return(Internal) && logged.state == erased.state
  {
  }

  // --- Deliveries -----------------------------------------------------------------------------

  /** Rows and history after an incoming event was logged as delivery `s.issued` with this outcome. */
  function Logged(s: State, row: Delivery, ran: seq<Ran>): State {
    s.(deliveries := s.deliveries[s.issued := row], issued := s.issued + 1, ran := s.ran + ran)
  }

  /**
   * A genuine event for a stored webhook. A ping or a push to another branch is skipped and runs nothing. A push to the
   * configured branch runs exactly that configuration's command, once, and its delivery succeeds exactly if the command exits
   * with 0; it stays running if the report is lost.
   */
  ghost function Handled(s: State, id: Id, push: Push, there: bool, report: Reply, exit: Exit): Final
    requires id in s.configs
  {
    var config := s.configs[id];
    var ran := Ran(s.issued, id, "cd '" + config.dir + "' && " + config.cmd, push, config);
    if push.ping || push.branch != config.branch then Final(Logged(s, Delivery(id, push, Skipped, None, false), []), Success)
    else if !there then Final(Logged(s, Delivery(id, push, Pending, None, false), []), NotFound)
    else if report == Fail(false) then Final(Logged(s, Delivery(id, push, Running, None, false), [ran]), Success)
    else if exit.Exited? && exit.code == 0 then Final(Logged(s, Delivery(id, push, Succeeded, None, true), [ran]), Success)
    else Final(Logged(s, Delivery(id, push, Failed, Some(exit.message), true), [ran]), Success)
  }

  /** Every incoming event; nothing is logged for an unknown webhook or provider or a refused signature. */
  lemma IncomingAnswer(s: State, id: Id, known: bool, push: Option<Push>, there: bool, report: Reply, exit: Exit)
    ensures Answered(s, Incoming(id, known, push, there), report, exit) ==
            if id !in s.configs then Final(s, NotFound)
            else if !known then Final(s, BadRequest)
            else if push.None? then Final(s, Unauthorized)
            else Handled(s, id, push.value, there, report, exit)
  {
    hide Finish, Handled;
    Advance(s, LoadConfig(id, known, push, there), AllDone(report), exit);
    if id in s.configs && known && push.Some? {
      if Deploys(push.value, s.configs[id]) {
        PushHandled(s, id, push.value, there, report, exit);
      } else {
        OthersSkipped(s, id, push.value, there, report, exit);
      }
    }
  }

  lemma OthersSkipped(s: State, id: Id, push: Push, there: bool, report: Reply, exit: Exit)
    requires id in s.configs && !Deploys(push, s.configs[id])
    ensures Finish(s, Continue(LogDelivery(id, s.configs[id], push, there)), AllDone(report), exit) == Handled(s, id, push, there, report, exit)
  {
    hide Finish;
    var replies, config, d := AllDone(report), s.configs[id], s.issued;
    Advance(s, LogDelivery(id, config, push, there), replies, exit);
    var logged := Logged(s, Delivery(id, push, Pending, None, false), []);
    assert logged.ran == s.ran;
    Advance(logged, Skip(d, id, config, push), replies, exit);
    SameRow(s.deliveries, d, logged.deliveries[d], Delivery(id, push, Skipped, None, false));
    assert s.ran + [] == s.ran;
  }

  lemma PushHandled(s: State, id: Id, push: Push, there: bool, report: Reply, exit: Exit)
    requires id in s.configs && Deploys(push, s.configs[id])
    ensures Finish(s, Continue(LogDelivery(id, s.configs[id], push, there)), AllDone(report), exit) == Handled(s, id, push, there, report, exit)
  {
    hide Finish;
    var replies, config, d := AllDone(report), s.configs[id], s.issued;
    Advance(s, LogDelivery(id, config, push, there), replies, exit);
    var logged := Logged(s, Delivery(id, push, Pending, None, false), []);
    assert logged.ran == s.ran;
    Advance(logged, LoadContainer(d, id, config, push, there), replies, exit);
    if there { Deployed(s, id, push, report, exit); }
  }

  lemma SameRow(deliveries: map<Id, Delivery>, d: Id, first: Delivery, row: Delivery)
    ensures deliveries[d := first][d := row] == deliveries[d := row]
  {
  }

  lemma Deployed(s: State, id: Id, push: Push, report: Reply, exit: Exit)
    requires id in s.configs
    ensures var config := s.configs[id];
            var ran := Ran(s.issued, id, "cd '" + config.dir + "' && " + config.cmd, push, config);
            var logged := Logged(s, Delivery(id, push, Pending, None, false), []);
            Finish(logged, Continue(MarkRunning(s.issued, id, config, push)), AllDone(report), exit) ==
            Final(Logged(s, if report == Fail(false) then Delivery(id, push, Running, None, false)
                            else if exit.Exited? && exit.code == 0 then Delivery(id, push, Succeeded, None, true)
                            else Delivery(id, push, Failed, Some(exit.message), true), [ran]), Success)
  {
    hide Finish;
    var config, d, replies := s.configs[id], s.issued, AllDone(report);
    var ran := Ran(d, id, DeployCommand(config.dir, config.cmd), push, config);
    var pending, running := Delivery(id, push, Pending, None, false), Delivery(id, push, Running, None, false);
    var logged := Logged(s, pending, []);
    Advance(logged, MarkRunning(d, id, config, push), replies, exit);
    SameRow(s.deliveries, d, pending, running);
    Advance(Logged(s, running, []), Deploy(d, id, config, push), replies, exit);
    assert s.ran + [] + [ran] == s.ran + [ran];
    Advance(Logged(s, running, [ran]), Report(d, StatusOf(exit), ErrorOf(exit)), replies, exit);
    SameRow(s.deliveries, d, running, Delivery(id, push, StatusOf(exit), ErrorOf(exit), true));
  }
}

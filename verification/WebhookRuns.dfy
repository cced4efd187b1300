/** Configuration requests and deployments, one step per await, in every interleaving. */
module WebhookRuns {
  import opened Basics
  import opened Webhook
  import opened Shell

  datatype Status = Pending | Running | Succeeded | Failed | Skipped

  /** A verified and parsed event: a ping, or a push to a branch. */
  datatype Push = Push(ping: bool, branch: string)

  datatype Delivery = Delivery(webhook: Id, push: Push, status: Status, error: Option<string>, completed: bool)

  /** History: a command sent for a delivery, the event it came from, and the webhook's configuration used. */
  datatype Ran = Ran(delivery: Id, webhook: Id, command: string, push: Push, config: Config)

  /** How the command ended; `message` is the error text recorded unless it exit with 0. */
  datatype Exit = Exited(code: nat, message: string) | Unreachable(message: string)

  datatype State = State(configs: map<Id, Config>, deliveries: map<Id, Delivery>, issued: nat, ran: seq<Ran>)

  datatype Answer = Success | Internal | Validation | NotFound | Forbidden | BadRequest | Unauthorized

  /** `mayUse` is the answer of the permission check, `push` None when the signature or the body is refused. */
  datatype Request =
    | CreateConfig(mayUse: bool, container: Id, create: CreateRequest, now: nat)
    | UpdateConfig(mayUse: bool, id: Id, update: UpdateRequest, now: nat)
    | DeleteConfig(mayUse: bool, id: Id)
    | Incoming(id: Id, known: bool, push: Option<Push>, containerThere: bool)

  datatype Proc =
    | Permit(mayUse: bool, container: Id, create: CreateRequest, now: nat)
    | Store(config: Config)
    | LoadForUpdate(mayUse: bool, id: Id, update: UpdateRequest, now: nat)
    | Write(id: Id, update: UpdateRequest, now: nat)
    | Refresh(id: Id)
    | LoadForDelete(mayUse: bool, id: Id)
    | Erase(id: Id)
    | LoadConfig(id: Id, known: bool, push: Option<Push>, containerThere: bool)
    | LogDelivery(id: Id, config: Config, pushEvent: Push, containerThere: bool)
    | Skip(delivery: Id, webhook: Id, config: Config, pushEvent: Push)
    | LoadContainer(delivery: Id, webhook: Id, config: Config, pushEvent: Push, containerThere: bool)
    | MarkRunning(delivery: Id, webhook: Id, config: Config, pushEvent: Push)
    | Deploy(delivery: Id, webhook: Id, config: Config, pushEvent: Push)
    | Report(delivery: Id, status: Status, error: Option<string>)

  datatype Next = Continue(p: Proc) | Return(answer: Answer)

  datatype Outcome = Outcome(state: State, next: Next)

  function Start(req: Request): Proc {
    match req
    case CreateConfig(mayUse, container, create, now) => Permit(mayUse, container, create, now)
    case UpdateConfig(mayUse, id, update, now) => LoadForUpdate(mayUse, id, update, now)
    case DeleteConfig(mayUse, id) => LoadForDelete(mayUse, id)
    case Incoming(id, known, push, there) => LoadConfig(id, known, push, there)
  }

  function SetStatus(deliveries: map<Id, Delivery>, d: Id, status: Status, error: Option<string>, completed: bool)
    : map<Id, Delivery>
  {
    if d in deliveries
    then deliveries[d := deliveries[d].(status := status, error := error, completed := completed)] else deliveries
  }

  predicate Succeeds(exit: Exit) { exit.Exited? && exit.code == 0 }

  function StatusOf(exit: Exit): Status { if Succeeds(exit) then Succeeded else Failed }

  function ErrorOf(exit: Exit): Option<string> { if Succeeds(exit) then None else Some(exit.message) }

  function Ended(reply: Reply): Next { Return(if reply.Fail? then Internal else Success) }

  function Then(reply: Reply, p: Proc): Next { if reply.Fail? then Return(Internal) else Continue(p) }

  /**
   * `exit` is how the command ended, for the await that runs it. The sender is answered before the command runs, so a report
   * that cannot be written changes nothing for it.
   */
  function Step(s: State, p: Proc, reply: Reply, exit: Exit): Outcome {
    if reply == Fail(false) && p.Report? then Outcome(s, Return(Success)) else
    if reply == Fail(false) && !p.Deploy? then Outcome(s, Return(Internal)) else
    match p
    case Permit(mayUse, container, req, now) =>
      Outcome(s, if reply.Fail? then Return(Internal)
                 else if !mayUse then Return(Forbidden)
                 else if ValidateCreate(req).Some? then Return(Validation)
                 else Continue(Store(Config(container, req.provider, req.secret, req.branch, req.dir, req.cmd, now, now))))
    case Store(config) =>
      Outcome(s.(configs := s.configs[s.issued := config], issued := s.issued + 1), Ended(reply))
    case LoadForUpdate(mayUse, id, req, now) =>
      Outcome(s, if reply.Fail? then Return(Internal)
                 else if id !in s.configs then Return(NotFound)
                 else if !mayUse then Return(Forbidden)
                 else if ValidateUpdate(req).Some? then Return(Validation)
                 else Continue(Write(id, req, now)))
    case Write(id, req, now) =>
      Outcome(if id in s.configs then s.(configs := s.configs[id := Updated(s.configs[id], req, now)]) else s,
              Then(reply, Refresh(id)))
    case Refresh(id) => Outcome(s, if reply.Fail? then Return(Internal) else if id in s.configs then Return(Success) else Return(NotFound))
    case LoadForDelete(mayUse, id) =>
      Outcome(s, if reply.Fail? then Return(Internal)
                 else if id !in s.configs then Return(NotFound)
                 else if !mayUse then Return(Forbidden)
                 else Continue(Erase(id)))
    case Erase(id) =>
      Outcome(s.(configs := s.configs - {id}, deliveries := map d | d in s.deliveries && s.deliveries[d].webhook != id :: s.deliveries[d]),
              Ended(reply))
    case LoadConfig(id, known, push, there) =>
      Outcome(s, if reply.Fail? then Return(Internal)
                 else if id !in s.configs then Return(NotFound)
                 else if !known then Return(BadRequest)
                 else if push.None? then Return(Unauthorized)
                 else Continue(LogDelivery(id, s.configs[id], push.value, there)))
    case LogDelivery(id, config, push, there) =>
      if id !in s.configs then Outcome(s, Return(Internal))
      else Outcome(s.(deliveries := s.deliveries[s.issued := Delivery(id, push, Pending, None, false)], issued := s.issued + 1),
                   Then(reply, if push.ping || push.branch != config.branch then Skip(s.issued, id, config, push)
                               else LoadContainer(s.issued, id, config, push, there)))
    case Skip(d, _, _, _) => Outcome(s.(deliveries := SetStatus(s.deliveries, d, Skipped, None, false)), Ended(reply))
    case LoadContainer(d, id, config, push, there) =>
      Outcome(s, if reply.Fail? then Return(Internal)
                 else if !there then Return(NotFound)
                 else Continue(MarkRunning(d, id, config, push)))
    case MarkRunning(d, id, config, push) =>
      Outcome(s.(deliveries := SetStatus(s.deliveries, d, Running, None, false)), Then(reply, Deploy(d, id, config, push)))
    case Deploy(d, id, config, push) =>
      Outcome(s.(ran := s.ran + [Ran(d, id, DeployCommand(config.dir, config.cmd), push, config)]),
              Continue(Report(d, StatusOf(exit), ErrorOf(exit))))
    case Report(d, status, error) => Outcome(s.(deliveries := SetStatus(s.deliveries, d, status, error, true)), Return(Success))
  }

  // --- Runs ---------------------------------------------------------------------------------

  datatype World = World(s: State, procs: map<nat, Proc>, nextPid: nat)

  datatype Event = Begin(req: Request) | Act(pid: nat, reply: Reply, exit: Exit) | Drop(pid: nat)

  const INIT: World := World(State(map[], map[], 0, []), map[], 0)

  function Apply(w: World, e: Event): World {
    match e
    case Begin(req) => w.(procs := w.procs[w.nextPid := Start(req)], nextPid := w.nextPid + 1)
    case Act(pid, reply, exit) =>
      if pid !in w.procs then w
      else
        var o := Step(w.s, w.procs[pid], reply, exit);
        w.(s := o.state, procs := if o.next.Continue? then w.procs[pid := o.next.p] else w.procs - {pid})
    case Drop(pid) => w.(procs := w.procs - {pid})
  }

  function Run(w: World, es: seq<Event>): World {
    if es == [] then w else Apply(Run(w, es[..|es| - 1]), es[|es| - 1])
  }

  // --- Configurations stay valid --------------------------------------------------------------

  ghost predicate ConfigsOk(configs: map<Id, Config>) { forall id :: id in configs ==> ConfigOk(configs[id]) }

  ghost predicate CarriesOk(p: Proc) {
    match p
    case Store(config) => ConfigOk(config)
    case Write(_, req, _) => ValidateUpdate(req) == None
    case LogDelivery(_, config, _, _) => ConfigOk(config)
    case Skip(_, _, config, push) => !Deploys(push, config)
    case LoadContainer(_, _, config, push, _) => ConfigOk(config) && Deploys(push, config)
    case MarkRunning(_, _, config, push) => ConfigOk(config) && Deploys(push, config)
    case Deploy(_, _, config, push) => ConfigOk(config) && Deploys(push, config)
    case _ => true
  }

  /** A push, and to the configured branch. */
  predicate Deploys(push: Push, config: Config) { !push.ping && push.branch == config.branch }

  ghost predicate RanOk(r: Ran) {
    ConfigOk(r.config) && Deploys(r.push, r.config) && r.command == DeployCommand(r.config.dir, r.config.cmd)
  }

  lemma CreateIsOk(container: Id, req: CreateRequest, now: nat)
    requires ValidateCreate(req) == None
    ensures ConfigOk(Config(container, req.provider, req.secret, req.branch, req.dir, req.cmd, now, now))
  {
    hide ValidateBranch, ValidateWorkingDir, ValidateCommand, ValidateSecret;
  }

  lemma StepKeepsConfigs(s: State, p: Proc, reply: Reply, exit: Exit)
    requires ConfigsOk(s.configs) && CarriesOk(p)
    ensures var o := Step(s, p, reply, exit); ConfigsOk(o.state.configs) && (o.next.Continue? ==> CarriesOk(o.next.p))
    ensures var o := Step(s, p, reply, exit);
            o.state.ran == s.ran || (p.Deploy? && |o.state.ran| == |s.ran| + 1 && o.state.ran[..|s.ran|] == s.ran
                                     && RanOk(o.state.ran[|s.ran|]) && o.state.ran[|s.ran|].delivery == p.delivery)
  {
    hide ConfigOk, ValidateCreate, ValidateUpdate, Updated, SetStatus, DeployCommand;
    if p.Permit? && ValidateCreate(p.create) == None { CreateIsOk(p.container, p.create, p.now); }
    if p.Write? && p.id in s.configs { UpdateKeepsOk(s.configs[p.id], p.update, p.now); }
  }

  // --- Each delivery runs once, along its states ------------------------------------------------

  /** The delivery a request is working on. */
  ghost function Works(p: Proc): Option<Id> {
    match p
    case Skip(d, _, _, _) => Some(d)
    case LoadContainer(d, _, _, _, _) => Some(d)
    case MarkRunning(d, _, _, _) => Some(d)
    case Deploy(d, _, _, _) => Some(d)
    case Report(d, _, _) => Some(d)
    case _ => None
  }

  /** The state a delivery has while its request stands there. */
  ghost function Expects(p: Proc): Status { if p.Deploy? || p.Report? then Running else Pending }

  ghost predicate WorkOk(s: State, p: Proc) {
    Works(p).Some? ==>
      && Works(p).value < s.issued
      && (Works(p).value in s.deliveries ==> s.deliveries[Works(p).value].status == Expects(p))
      && (p.Report? ==> p.status.Succeeded? || (p.status.Failed? && p.error.Some?))
      && (p.Report? && p.status.Succeeded? ==> p.error.None?)
      && (!p.Report? ==> forall i :: 0 <= i < |s.ran| ==> s.ran[i].delivery != Works(p).value)
  }

  ghost predicate Apart(procs: map<nat, Proc>) {
    forall p, q :: p in procs && q in procs && p != q && Works(procs[p]).Some? ==> Works(procs[p]) != Works(procs[q])
  }

  /** Completed rows are those that succeeded or failed, and exactly the failed ones carry an error text. */
  ghost predicate RowOk(d: Delivery) {
    (d.completed <==> d.status.Succeeded? || d.status.Failed?) && (d.error.Some? <==> d.status.Failed?)
  }

  ghost predicate DeliveriesOk(s: State) {
    && (forall d :: d in s.deliveries ==> d < s.issued && RowOk(s.deliveries[d]))
    && (forall i :: 0 <= i < |s.ran| ==> s.ran[i].delivery < s.issued && RanOk(s.ran[i]))
    && (forall i, j :: 0 <= i < j < |s.ran| ==> s.ran[i].delivery != s.ran[j].delivery)
  }

  ghost predicate WorldOk(w: World) {
    && ConfigsOk(w.s.configs) && DeliveriesOk(w.s) && Apart(w.procs)
    && (forall p :: p in w.procs ==> p < w.nextPid && CarriesOk(w.procs[p]) && WorkOk(w.s, w.procs[p]))
  }

  /** Pending, then skipped or running, then succeeded or failed. */
  predicate Reaches(before: Status, after: Status) {
    before == after || (before.Pending? && !after.Pending?) || (before.Running? && (after.Succeeded? || after.Failed?))
  }

  /** Deliveries move only along their states, and what was run stays on record. */
  ghost predicate Extends(s: State, after: State) {
    && s.issued <= after.issued && s.ran <= after.ran
    && (forall d :: d in after.deliveries && d < s.issued ==>
          d in s.deliveries && Reaches(s.deliveries[d].status, after.deliveries[d].status))
  }

  lemma StepExtends(s: State, p: Proc, reply: Reply, exit: Exit)
    requires DeliveriesOk(s) && WorkOk(s, p)
    ensures Extends(s, Step(s, p, reply, exit).state)
  {
    hide RanOk, ValidateCreate, ValidateUpdate, Updated, DeployCommand;
  }

  lemma StepKeepsDeliveries(s: State, p: Proc, reply: Reply, exit: Exit)
    requires DeliveriesOk(s) && WorkOk(s, p) && ConfigsOk(s.configs) && CarriesOk(p)
    ensures var o := Step(s, p, reply, exit); DeliveriesOk(o.state) && (o.next.Continue? ==> WorkOk(o.state, o.next.p))
  {
    hide RanOk, ConfigOk, ConfigsOk, ValidateCreate, ValidateUpdate, Updated, DeployCommand;
    StepKeepsConfigs(s, p, reply, exit);
  }

  /** Another request's delivery is untouched. */
  lemma OthersWorkOn(s: State, p: Proc, reply: Reply, exit: Exit, q: Proc)
    requires DeliveriesOk(s) && WorkOk(s, p) && WorkOk(s, q) && ConfigsOk(s.configs) && CarriesOk(p)
    requires Works(p).Some? ==> Works(p) != Works(q)
    ensures WorkOk(Step(s, p, reply, exit).state, q)
  {
    hide RanOk, ConfigOk, ConfigsOk, ValidateCreate, ValidateUpdate, Updated, DeployCommand;
  }

  /** A request goes on with its own delivery, or takes up one just created. */
  lemma WorksOwn(s: State, p: Proc, reply: Reply, exit: Exit)
    ensures var o := Step(s, p, reply, exit);
            o.next.Continue? ==> Works(o.next.p) == Works(p) || Works(o.next.p).None? || Works(o.next.p) == Some(s.issued)
  {
    hide ValidateCreate, ValidateUpdate, Updated, DeployCommand, SetStatus;
  }

  lemma ActOk(w: World, pid: nat, reply: Reply, exit: Exit)
    requires WorldOk(w) && pid in w.procs
    ensures WorldOk(Apply(w, Act(pid, reply, exit)))
  {
    hide ConfigsOk, DeliveriesOk, CarriesOk, WorkOk, Step;
    var p := w.procs[pid];
    StepKeepsConfigs(w.s, p, reply, exit);
    StepKeepsDeliveries(w.s, p, reply, exit);
    WorksOwn(w.s, p, reply, exit);
    var after := Apply(w, Act(pid, reply, exit));
    forall q | q in w.procs && q != pid
      ensures WorkOk(after.s, w.procs[q]) && Works(w.procs[q]) != Some(w.s.issued)
    {
      OthersWorkOn(w.s, p, reply, exit, w.procs[q]);
      WorksBelow(w.s, w.procs[q]);
    }
  }

  lemma WorksBelow(s: State, p: Proc)
    requires WorkOk(s, p)
    ensures Works(p) != Some(s.issued)
  {
  }

  lemma ApplyOk(w: World, e: Event)
    requires WorldOk(w)
    ensures WorldOk(Apply(w, e)) && Extends(w.s, Apply(w, e).s)
  {
    hide ConfigsOk, Step;
    if e.Act? && e.pid in w.procs {
      ActOk(w, e.pid, e.reply, e.exit);
      StepExtends(w.s, w.procs[e.pid], e.reply, e.exit);
    }
  }

  lemma {:induction false} RunOk(w: World, es: seq<Event>)
    requires WorldOk(w)
    ensures WorldOk(Run(w, es)) && Extends(w.s, Run(w, es).s)
  {
    hide WorldOk, Apply;
    if es != [] {
      RunOk(w, es[..|es| - 1]);
      ApplyOk(Run(w, es[..|es| - 1]), es[|es| - 1]);
    } else {
      WorldDeliveries(w);
    }
  }

  lemma WorldDeliveries(w: World)
    requires WorldOk(w)
    ensures forall d :: d in w.s.deliveries ==> d < w.s.issued
  {
  }

  lemma InitOk()
    ensures WorldOk(INIT)
  {
  }

  // --- Which configuration a command comes from ---------------------------------------------------

  /** The configuration a request carries, and its webhook. */
  ghost function Carried(p: Proc): Option<(Id, Config)> {
    match p
    case LogDelivery(id, config, _, _) => Some((id, config))
    case Skip(_, id, config, _) => Some((id, config))
    case LoadContainer(_, id, config, _, _) => Some((id, config))
    case MarkRunning(_, id, config, _) => Some((id, config))
    case Deploy(_, id, config, _) => Some((id, config))
    case _ => None
  }

  /** The webhook's configuration at some point of the run. */
  ghost predicate WasStored(es: seq<Event>, c: (Id, Config)) { exists j: nat :: StoredAt(es, j, c) }

  ghost predicate StoredAt(es: seq<Event>, j: nat, c: (Id, Config)) {
    j <= |es| && c.0 in Run(INIT, es[..j]).s.configs && Run(INIT, es[..j]).s.configs[c.0] == c.1
  }

  lemma StoredStays(es: seq<Event>, e: Event, c: (Id, Config))
    requires WasStored(es, c)
    ensures WasStored(es + [e], c)
  {
    hide Run;
    var j: nat :| StoredAt(es, j, c);
    assert (es + [e])[..j] == es[..j];
    assert StoredAt(es + [e], j, c);
  }

  /** A request carries what it carried before, or what it has just loaded; a command comes from what was carried. */
  lemma StepCarries(s: State, p: Proc, reply: Reply, exit: Exit)
    ensures var o := Step(s, p, reply, exit);
            && (o.next.Continue? && Carried(o.next.p).Some? ==>
                  || Carried(o.next.p) == Carried(p)
                  || (Carried(o.next.p).value.0 in s.configs && s.configs[Carried(o.next.p).value.0] == Carried(o.next.p).value.1))
            && (forall i :: |s.ran| <= i < |o.state.ran| ==> Some((o.state.ran[i].webhook, o.state.ran[i].config)) == Carried(p))
            && s.ran <= o.state.ran
  {
    hide ValidateCreate, ValidateUpdate, Updated, DeployCommand, SetStatus;
  }

  ghost predicate FromStored(es: seq<Event>) {
    var w := Run(INIT, es);
    && (forall p :: p in w.procs && Carried(w.procs[p]).Some? ==> WasStored(es, Carried(w.procs[p]).value))
    && (forall i :: 0 <= i < |w.s.ran| ==> WasStored(es, (w.s.ran[i].webhook, w.s.ran[i].config)))
  }

  lemma ActFromStored(es: seq<Event>, e: Event)
    requires FromStored(es)
    ensures FromStored(es + [e])
  {
    hide Run, Step, WasStored, Apply, Carried;
    var w, after := Run(INIT, es), Run(INIT, es + [e]);
    RunSnoc(es, e);
    ApplyCarries(w, e);
    forall p | p in after.procs && Carried(after.procs[p]).Some?
      ensures WasStored(es + [e], Carried(after.procs[p]).value)
    {
      var c := Carried(after.procs[p]).value;
      if p in w.procs && Carried(w.procs[p]) == Some(c) { StoredStays(es, e, c); } else { NowStored(es, e, c); }
    }
    forall i | 0 <= i < |after.s.ran|
      ensures WasStored(es + [e], (after.s.ran[i].webhook, after.s.ran[i].config))
    {
      var c := (after.s.ran[i].webhook, after.s.ran[i].config);
      if i < |w.s.ran| { assert after.s.ran[i] == w.s.ran[i]; }
      StoredStays(es, e, c);
    }
  }

  lemma RunSnoc(es: seq<Event>, e: Event)
    ensures Run(INIT, es + [e]) == Apply(Run(INIT, es), e)
  {
    hide Apply;
    assert (es + [e])[..|es|] == es;
  }

  lemma NowStored(es: seq<Event>, e: Event, c: (Id, Config))
    requires c.0 in Run(INIT, es).s.configs && Run(INIT, es).s.configs[c.0] == c.1
    ensures WasStored(es + [e], c)
  {
    hide Run;
    assert (es + [e])[..|es|] == es;
    assert StoredAt(es + [e], |es|, c);
  }

  lemma ApplyCarries(w: World, e: Event)
    ensures var after := Apply(w, e);
            && (forall p :: p in after.procs && Carried(after.procs[p]).Some? ==>
                  || (p in w.procs && Carried(w.procs[p]) == Carried(after.procs[p]))
                  || (Carried(after.procs[p]).value.0 in w.s.configs
                      && w.s.configs[Carried(after.procs[p]).value.0] == Carried(after.procs[p]).value.1))
            && w.s.ran <= after.s.ran
            && (forall i :: |w.s.ran| <= i < |after.s.ran| ==>
                  e.Act? && e.pid in w.procs && Carried(w.procs[e.pid]) == Some((after.s.ran[i].webhook, after.s.ran[i].config)))
  {
    hide Step;
    if e.Act? && e.pid in w.procs { StepCarries(w.s, w.procs[e.pid], e.reply, e.exit); }
  }

  lemma {:induction false} RunFromStored(es: seq<Event>)
    ensures FromStored(es)
  {
    hide FromStored;
    if es == [] {
      NothingCarried();
    } else {
      RunFromStored(es[..|es| - 1]);
      ActFromStored(es[..|es| - 1], es[|es| - 1]);
      assert es[..|es| - 1] + [es[|es| - 1]] == es;
    }
  }

  lemma NothingCarried()
    ensures FromStored([])
  {
  }

  /** A delivery's row names the webhook whose configuration its request carries or ran, and the event that came in. */
  ghost predicate Linked(s: State, procs: map<nat, Proc>) {
    && (forall p :: p in procs && Works(procs[p]).Some? && Carried(procs[p]).Some? && Works(procs[p]).value in s.deliveries ==>
          var row := s.deliveries[Works(procs[p]).value];
          row.webhook == Carried(procs[p]).value.0 && row.push == procs[p].pushEvent)
    && (forall i :: 0 <= i < |s.ran| && s.ran[i].delivery in s.deliveries ==>
          s.deliveries[s.ran[i].delivery].webhook == s.ran[i].webhook && s.deliveries[s.ran[i].delivery].push == s.ran[i].push)
  }

  /** Rows keep their webhook; a new row belongs to the request that logged it. */
  lemma StepLinks(s: State, p: Proc, reply: Reply, exit: Exit)
    ensures var o := Step(s, p, reply, exit);
            && (forall d :: d in o.state.deliveries && d != s.issued ==>
                  d in s.deliveries && o.state.deliveries[d].webhook == s.deliveries[d].webhook
                  && o.state.deliveries[d].push == s.deliveries[d].push)
            && (o.next.Continue? && Works(o.next.p).Some? && Carried(o.next.p).Some? ==>
                  Carried(o.next.p) == Carried(p) && o.next.p.pushEvent == p.pushEvent && (Works(o.next.p) == Works(p)
                  || (Works(o.next.p) == Some(s.issued) && s.issued in o.state.deliveries
                      && o.state.deliveries[s.issued].webhook == Carried(p).value.0
                      && o.state.deliveries[s.issued].push == p.pushEvent)))
            && (forall i :: |s.ran| <= i < |o.state.ran| ==> Works(p) == Some(o.state.ran[i].delivery) && o.state.ran[i].push == p.pushEvent)
  {
    hide ValidateCreate, ValidateUpdate, Updated, DeployCommand;
  }

  lemma ApplyKeepsLinks(w: World, e: Event)
    requires WorldOk(w) && Linked(w.s, w.procs)
    ensures var after := Apply(w, e); Linked(after.s, after.procs)
  {
    hide Step, ConfigsOk, CarriesOk, RanOk, RowOk, Apart;
    if e.Act? && e.pid in w.procs {
      StepLinks(w.s, w.procs[e.pid], e.reply, e.exit);
      StepCarries(w.s, w.procs[e.pid], e.reply, e.exit);
      forall p | p in w.procs
        ensures Works(w.procs[p]) != Some(w.s.issued)
      {
        WorksBelow(w.s, w.procs[p]);
      }
    }
  }

  lemma {:induction false} RunLinked(es: seq<Event>)
    ensures Linked(Run(INIT, es).s, Run(INIT, es).procs)
  {
    hide Linked, Apply, WorldOk;
    if es == [] {
      NothingLinked();
    } else {
      var front := es[..|es| - 1];
      RunLinked(front);
      InitOk();
      RunOk(INIT, front);
      ApplyKeepsLinks(Run(INIT, front), es[|es| - 1]);
    }
  }

  lemma NothingLinked()
    ensures Linked(INIT.s, INIT.procs)
  {
  }

  // --- Why a delivery has the status it has ---------------------------------------------------------

  /** For some configuration its webhook had, the event was to be skipped, or to be deployed. */
  ghost predicate MetConfig(es: seq<Event>, row: Delivery, deployed: bool) {
    exists c :: WasStored(es, (row.webhook, c)) && Deploys(row.push, c) == deployed
  }

  ghost predicate Explained(es: seq<Event>, row: Delivery) {
    && (row.status.Skipped? ==> MetConfig(es, row, false))
    && (row.status.Running? || row.status.Succeeded? || row.status.Failed? ==> MetConfig(es, row, true))
  }

  lemma ExplainedStays(es: seq<Event>, e: Event, row: Delivery)
    requires Explained(es, row)
    ensures Explained(es + [e], row)
  {
    hide WasStored;
    forall deployed: bool | MetConfig(es, row, deployed)
      ensures MetConfig(es + [e], row, deployed)
    {
      var c :| WasStored(es, (row.webhook, c)) && Deploys(row.push, c) == deployed;
      StoredStays(es, e, (row.webhook, c));
    }
  }

  /** The await changes the status of its own delivery only, along what the request carries. */
  lemma StepExplains(s: State, p: Proc, reply: Reply, exit: Exit, d: Id)
    requires DeliveriesOk(s) && WorkOk(s, p) && d in Step(s, p, reply, exit).state.deliveries
    ensures var row := Step(s, p, reply, exit).state.deliveries[d];
            || row.status.Pending?
            || (d in s.deliveries && row.(status := s.deliveries[d].status, error := s.deliveries[d].error,
                                          completed := s.deliveries[d].completed) == s.deliveries[d]
                && (|| row.status == s.deliveries[d].status
                    || (p.Report? && s.deliveries[d].status.Running? && (row.status.Succeeded? || row.status.Failed?))
                    || (Works(p) == Some(d) && p.Skip? && row.status.Skipped?)
                    || (Works(p) == Some(d) && p.MarkRunning? && row.status.Running?)))
  {
    hide RanOk, ValidateCreate, ValidateUpdate, Updated, DeployCommand;
  }

  lemma RowExplained(es: seq<Event>, w: World, p: nat, row: Delivery)
    requires FromStored(es) && w == Run(INIT, es) && p in w.procs && CarriesOk(w.procs[p])
    requires (w.procs[p].Skip? && row.status.Skipped?) || (w.procs[p].MarkRunning? && row.status.Running?)
    requires row.webhook == w.procs[p].webhook && row.push == w.procs[p].pushEvent
    ensures Explained(es, row)
  {
    hide WasStored, Run;
    var c := w.procs[p].config;
    assert Carried(w.procs[p]) == Some((row.webhook, c));
    assert WasStored(es, (row.webhook, c)) && Deploys(row.push, c) == w.procs[p].MarkRunning?;
  }

  ghost predicate AllExplained(es: seq<Event>) {
    forall d :: d in Run(INIT, es).s.deliveries ==> Explained(es, Run(INIT, es).s.deliveries[d])
  }

  lemma EventExplains(es: seq<Event>, e: Event)
    requires AllExplained(es) && FromStored(es) && WorldOk(Run(INIT, es)) && Linked(Run(INIT, es).s, Run(INIT, es).procs)
    ensures AllExplained(es + [e])
  {
    hide Run, Step, Explained, FromStored, CarriesOk, WorkOk, ConfigsOk, DeliveriesOk, Apart;
    RunSnoc(es, e);
    var w, after := Run(INIT, es), Run(INIT, es + [e]);
    forall d | d in after.s.deliveries
      ensures Explained(es + [e], after.s.deliveries[d])
    {
      var row := after.s.deliveries[d];
      if e.Act? && e.pid in w.procs {
        var p := w.procs[e.pid];
        StepExplains(w.s, p, e.reply, e.exit, d);
        if row.status.Pending? {
          PendingExplained(es, row);
        } else if row.status == w.s.deliveries[d].status || p.Report? {
          SameCause(es, w.s.deliveries[d], row);
        } else {
          RowExplained(es, w, e.pid, row);
        }
      }
      ExplainedStays(es, e, row);
    }
  }

  lemma PendingExplained(es: seq<Event>, row: Delivery)
    requires row.status.Pending?
    ensures Explained(es, row)
  {
  }

  lemma SameCause(es: seq<Event>, before: Delivery, row: Delivery)
    requires Explained(es, before) && row.webhook == before.webhook && row.push == before.push
    requires row.status == before.status || (before.status.Running? && (row.status.Succeeded? || row.status.Failed?))
    ensures Explained(es, row)
  {
    hide WasStored;
    if MetConfig(es, before, true) {
      var c :| WasStored(es, (before.webhook, c)) && Deploys(before.push, c) == true;
      assert WasStored(es, (row.webhook, c)) && Deploys(row.push, c) == true;
    }
    if MetConfig(es, before, false) {
      var c :| WasStored(es, (before.webhook, c)) && Deploys(before.push, c) == false;
      assert WasStored(es, (row.webhook, c)) && Deploys(row.push, c) == false;
    }
  }

  lemma {:induction false} RunExplained(es: seq<Event>)
    ensures AllExplained(es)
  {
    hide AllExplained, FromStored, WorldOk, Linked;
    if es == [] {
      NothingExplained();
    } else {
      var front := es[..|es| - 1];
      RunExplained(front);
      InitOk();
      RunOk(INIT, front);
      RunFromStored(front);
      RunLinked(front);
      EventExplains(front, es[|es| - 1]);
      assert front + [es[|es| - 1]] == es;
    }
  }

  lemma NothingExplained()
    ensures AllExplained([])
  {
  }

  /**
   * In every interleaving, a delivery is skipped only if it was a ping or a push to another branch than its webhook's
   * configuration had, and runs, succeeds or fails only if it was a push to the configured branch.
   */
  lemma StatusesFollowEvents(es: seq<Event>, d: Id)
    requires d in Run(INIT, es).s.deliveries
    ensures var row := Run(INIT, es).s.deliveries[d];
            && (row.status.Skipped? ==>
                  exists c :: WasStored(es, (row.webhook, c)) && (row.push.ping || row.push.branch != c.branch))
            && (row.status.Running? || row.status.Succeeded? || row.status.Failed? ==>
                  !row.push.ping && exists c :: WasStored(es, (row.webhook, c)) && row.push.branch == c.branch)
  {
    hide Run, WasStored;
    RunExplained(es);
    var row := Run(INIT, es).s.deliveries[d];
    assert Explained(es, row);
    if row.status.Skipped? {
      var c :| WasStored(es, (row.webhook, c)) && Deploys(row.push, c) == false;
    }
    if row.status.Running? || row.status.Succeeded? || row.status.Failed? {
      var c :| WasStored(es, (row.webhook, c)) && Deploys(row.push, c) == true;
    }
  }

  // --- Deliveries go with their webhook ----------------------------------------------------------------

  ghost predicate HaveWebhooks(s: State) { forall d :: d in s.deliveries ==> s.deliveries[d].webhook in s.configs }

  lemma StepKeepsWebhooks(s: State, p: Proc, reply: Reply, exit: Exit)
    requires HaveWebhooks(s)
    ensures HaveWebhooks(Step(s, p, reply, exit).state)
  {
    hide ValidateCreate, ValidateUpdate, Updated, DeployCommand;
  }

  /** In every interleaving, every delivery on record belongs to a stored webhook. */
  lemma {:induction false} DeliveriesHaveWebhooks(es: seq<Event>)
    ensures HaveWebhooks(Run(INIT, es).s)
  {
    hide Step, HaveWebhooks;
    if es == [] {
      NoDeliveries();
    } else {
      var w, e := Run(INIT, es[..|es| - 1]), es[|es| - 1];
      DeliveriesHaveWebhooks(es[..|es| - 1]);
      if e.Act? && e.pid in w.procs { StepKeepsWebhooks(w.s, w.procs[e.pid], e.reply, e.exit); }
    }
  }

  lemma NoDeliveries()
    ensures HaveWebhooks(INIT.s)
  {
  }

  // --- Every interleaving ---------------------------------------------------------------------------

  /**
   * In every interleaving of creates, partial updates, deletes and deliveries, every stored configuration has a branch of
   * 1 to 255 allowed bytes, an absolute directory without quote or null byte, and a command and secret of allowed length.
   */
  lemma StoredConfigsPass(es: seq<Event>, id: Id)
    requires id in Run(INIT, es).s.configs
    ensures var c := Run(INIT, es).s.configs[id];
            && ConfigOk(c)
            && 1 <= |c.branch| <= 255 && (forall b :: b in c.branch ==> BranchByte(b))
            && 1 <= |c.dir| <= 4096 && c.dir[0] == '/' && '\'' !in c.dir && '\0' !in c.dir
            && |c.cmd| <= 4096 && 16 <= |c.secret| <= 512
  {
    hide Run, ConfigOk, ValidateBranch, ValidateWorkingDir;
    InitOk();
    RunOk(INIT, es);
    var c := Run(INIT, es).s.configs[id];
    ConfigMeaning(c);
    BranchMeaning(c.branch);
    DirMeaning(c.dir);
  }

  lemma ConfigMeaning(c: Config)
    requires ConfigOk(c)
    ensures ValidateBranch(c.branch) == None && ValidateWorkingDir(c.dir) == None
    ensures |c.cmd| <= 4096 && 16 <= |c.secret| <= 512
  {
    hide ValidateBranch, ValidateWorkingDir;
  }

  /**
   * In every interleaving, each command ever sent was for a push to the configured branch, and a shell splits it into `cd`,
   * exactly the directory, `&&` and exactly the command of a configuration that the delivery's own webhook had at some point.
   */
  lemma CommandsAreExact(es: seq<Event>, i: nat)
    requires i < |Run(INIT, es).s.ran|
    ensures var r, deliveries := Run(INIT, es).s.ran[i], Run(INIT, es).s.deliveries;
            && ConfigOk(r.config) && !r.push.ping && r.push.branch == r.config.branch
            && Tokens(r.command, 3) == Some(([Word("cd"), Word(r.config.dir), AndIf], " " + r.config.cmd))
            && WasStored(es, (r.webhook, r.config))
            && (r.delivery in deliveries ==> deliveries[r.delivery].webhook == r.webhook && deliveries[r.delivery].push == r.push)
  {
    hide Run, Tokens, DeployCommand, WasStored;
    InitOk();
    RunOk(INIT, es);
    RunFromStored(es);
    RunLinked(es);
    var r := Run(INIT, es).s.ran[i];
    assert RanOk(r);
    DeployTokens(r.config.dir, r.config.cmd);
  }

  /**
   * In every interleaving, no delivery runs a command twice, a delivery only moves from pending to skipped or running and
   * from running to succeeded or failed, it is completed exactly in the last two, and has an error text exactly if failed.
   */
  lemma DeliveriesRunOnce(es: seq<Event>, more: seq<Event>, i: nat, j: nat, d: Id)
    ensures var ran := Run(INIT, es).s.ran; i < j < |ran| ==> ran[i].delivery != ran[j].delivery
    ensures var now, later := Run(INIT, es).s.deliveries, Run(Run(INIT, es), more).s.deliveries;
            && (d in now && d in later ==> Reaches(now[d].status, later[d].status))
            && (d in now ==> (now[d].completed <==> now[d].status.Succeeded? || now[d].status.Failed?)
                             && (now[d].error.Some? <==> now[d].status.Failed?))
  {
    hide Run, ConfigsOk, CarriesOk, WorkOk;
    InitOk();
    RunOk(INIT, es);
    RunOk(Run(INIT, es), more);
  }
}

/** Permission masks, delegated invitations and ownership rows, one step per await, in every interleaving. */
module Sharing {
  import opened Basics

  type Id = nat

  /** The 32-bit column; the constants use its low byte. */
  type Mask = bv32

  const VIEW: Mask := 0x01
  const SHARE: Mask := 0x40
  const VIEWER: Mask := 0x03
  const OPERATOR: Mask := 0x3F
  const OWNER: Mask := 0xFF

  /** `Permissions::has`: all bits of `flag` are set. */
  predicate Has(mask: Mask, flag: Mask) { mask & flag == flag }

  /** Every bit of `part` is a bit of `whole`. */
  predicate Within(part: Mask, whole: Mask) { part & whole == part }

  function FromPreset(level: string): Mask {
    if level == "owner" then OWNER else if level == "operator" then OPERATOR else if level == "viewer" then VIEWER else 0
  }

  function ToPresetName(mask: Mask): Option<string> {
    if mask == OWNER then Some("owner")
    else if mask == OPERATOR then Some("operator")
    else if mask == VIEWER then Some("viewer")
    else None
  }

  /** The names undo the masks and the masks the names, and only for the three presets. */
  lemma PresetRoundTrip(level: string, mask: Mask)
    ensures ToPresetName(mask) == Some(level) <==> FromPreset(level) == mask && mask != 0
    ensures FromPreset(level) == 0 <==> level != "owner" && level != "operator" && level != "viewer"
  {
  }

  /** Holding every bit of a mask is the same as holding each of its bits: the masks are ordered as sets of bits. */
  lemma HasIsWithin(mask: Mask, flag: Mask, other: Mask)
    ensures Has(mask, flag) <==> Within(flag, mask)
    ensures Within(other, flag) && Has(mask, flag) ==> Has(mask, other)
  {
    assert flag & mask == mask & flag;
  }

  lemma WithinTransitive(a: Mask, b: Mask, c: Mask)
    requires Within(a, b) && Within(b, c)
    ensures Within(a, c)
  {
  }

  // --- Tables -----------------------------------------------------------------------------

  /** `level` is the deprecated text column. */
  datatype Ownership = Ownership(mask: Mask, primary: bool, level: string)

  datatype Response = Accepted | Declined

  /**
   * History: `asAdmin`, the inviter acted as an admin, whose own mask is not looked up; `accepted`, some answer so far was to
   * accept.
   */
  datatype Invitation = Invitation(
    container: Id, user: Id, inviter: Id, mask: Mask, response: Option<Response>, asAdmin: bool, accepted: bool)

  type Owners = map<(Id, Id), Ownership>
  type Invitations = map<Id, Invitation>

  datatype Db = Db(containers: set<Id>, owners: Owners, invitations: Invitations, issued: nat)

  /** No row reads as no permissions. */
  function GetPermissions(owners: Owners, container: Id, user: Id): Mask {
    if (container, user) in owners then owners[(container, user)].mask else 0
  }

  /** The containers row and the primary ownership row, in one transaction. */
  function InsertContainer(db: Db, owner: Id): Db {
    db.(containers := db.containers + {db.issued}, owners := db.owners[(db.issued, owner) := Ownership(OWNER, true, "owner")],
        issued := db.issued + 1)
  }

  /** Rejected by the foreign key and by the unique key on container and user. */
  function InsertInvitation(db: Db, inv: Invitation): Option<Db> {
    if inv.container !in db.containers
       || (exists i :: i in db.invitations && db.invitations[i].container == inv.container && db.invitations[i].user == inv.user)
    then None
    else Some(db.(invitations := db.invitations[db.issued := inv], issued := db.issued + 1))
  }

  function LegacyLevel(mask: Mask): string {
    match ToPresetName(mask)
    case Some(name) => name
    case None => "viewer"
  }

  /** Answering again overwrites the answer. */
  function Answered(inv: Invitation, response: Response): Invitation {
    inv.(response := Some(response), accepted := inv.accepted || response.Accepted?)
  }

  /** The answer and, on acceptance, the row unless one exists, in one transaction. */
  function RecordResponse(db: Db, id: Id, container: Id, user: Id, mask: Mask, response: Response): Db {
    var db := if id in db.invitations
              then db.(invitations := db.invitations[id := Answered(db.invitations[id], response)]) else db;
    if response.Accepted? && (container, user) !in db.owners then
      db.(owners := db.owners[(container, user) := Ownership(mask, false, LegacyLevel(mask))])
    else db
  }

  // --- Requests -----------------------------------------------------------------------------

  /** `admin` is the effective role, which is never admin for OAuth tokens. */
  datatype Actor = Actor(user: Id, admin: bool)

  /** `resolved` is the user the email belongs to; `response` is None for any other text. */
  datatype Request =
    | Create(actor: Actor)
    | Invite(actor: Actor, container: Id, resolved: Option<Id>, mask: Mask)
    | Respond(actor: Actor, invitation: Id, response: Option<Response>)

  datatype Proc =
    | Insert(owner: Id)
    | CheckShare(actor: Actor, container: Id, resolved: Option<Id>, mask: Mask)
    | CheckOwn(actor: Actor, container: Id, resolved: Option<Id>, mask: Mask)
    | FindUser(actor: Actor, container: Id, resolved: Option<Id>, mask: Mask)
    | StoreInvitation(inv: Invitation)
    | LoadInvitation(actor: Actor, invitation: Id, response: Response)
    | Record(invitation: Id, container: Id, user: Id, mask: Mask, response: Response)

  datatype Answer = Success | Internal | BadRequest | Forbidden | NotFound

  datatype Next = Continue(p: Proc) | Return(answer: Answer)

  datatype Outcome = Outcome(db: Db, next: Next)

  /** Admins pass both permission checks without a query. */
  function Start(req: Request): Next {
    match req
    case Create(actor) => Continue(Insert(actor.user))
    case Invite(actor, container, resolved, mask) =>
      if !actor.admin then Continue(CheckShare(actor, container, resolved, mask))
      else if mask & VIEW == 0 then Return(BadRequest)
      else if mask & OWNER != mask then Return(Forbidden)
      else Continue(FindUser(actor, container, resolved, mask))
    case Respond(actor, invitation, response) =>
      if response.None? then Return(BadRequest) else Continue(LoadInvitation(actor, invitation, response.value))
  }

  function Step(db: Db, p: Proc, reply: Reply): Outcome {
    if reply == Fail(false) then Outcome(db, Return(Internal)) else
    match p
    case Insert(owner) => Outcome(InsertContainer(db, owner), Ended(reply))
    case CheckShare(actor, container, resolved, mask) =>
      Outcome(db,
        if reply.Fail? then Return(Internal)
        else if !Has(GetPermissions(db.owners, container, actor.user), SHARE) then Return(Forbidden)
        else if mask & VIEW == 0 then Return(BadRequest)
        else Continue(CheckOwn(actor, container, resolved, mask)))
    case CheckOwn(actor, container, resolved, mask) =>
      Outcome(db,
        if reply.Fail? then Return(Internal)
        else if mask & GetPermissions(db.owners, container, actor.user) != mask then Return(Forbidden)
        else Continue(FindUser(actor, container, resolved, mask)))
    case FindUser(actor, container, resolved, mask) =>
      Outcome(db,
        if reply.Fail? then Return(Internal)
        else if resolved.None? then Return(NotFound)
        else Continue(StoreInvitation(Invitation(container, resolved.value, actor.user, mask, None, actor.admin, false))))
    case StoreInvitation(inv) =>
      (match InsertInvitation(db, inv)
       case None => Outcome(db, Return(Internal))
       case Some(after) => Outcome(after, Ended(reply)))
    case LoadInvitation(actor, id, response) =>
      Outcome(db,
        if reply.Fail? then Return(Internal)
        else if id !in db.invitations then Return(NotFound)
        else if db.invitations[id].user != actor.user then Return(Forbidden)
        else Continue(Record(id, db.invitations[id].container, actor.user, db.invitations[id].mask, response)))
    case Record(id, container, user, mask, response) =>
      Outcome(RecordResponse(db, id, container, user, mask, response), Ended(reply))
  }

  function Ended(reply: Reply): Next { Return(if reply.Fail? then Internal else Success) }

  // --- Runs -----------------------------------------------------------------------------------

  datatype World = World(db: Db, procs: map<nat, Proc>, nextPid: nat)

  datatype Event = Begin(req: Request) | Act(pid: nat, reply: Reply) | Drop(pid: nat)

  const INIT: World := World(Db({}, map[], map[], 0), map[], 0)

  function Apply(w: World, e: Event): World {
    match e
    case Begin(req) =>
      (match Start(req)
       case Return(_) => w.(nextPid := w.nextPid + 1)
       case Continue(p) => w.(procs := w.procs[w.nextPid := p], nextPid := w.nextPid + 1))
    case Act(pid, reply) =>
      if pid !in w.procs then w
      else
        var o := Step(w.db, w.procs[pid], reply);
        w.(db := o.db, procs := if o.next.Continue? then w.procs[pid := o.next.p] else w.procs - {pid})
    case Drop(pid) => w.(procs := w.procs - {pid})
  }

  function Run(w: World, es: seq<Event>): World {
    if es == [] then w else Apply(Run(w, es[..|es| - 1]), es[|es| - 1])
  }

  // --- The invariant --------------------------------------------------------------------------

  ghost predicate Sane(mask: Mask) { Has(mask, VIEW) && mask <= OWNER }

  /** A mask within a byte-sized one is byte-sized. */
  lemma SaneWithin(mask: Mask, whole: Mask)
    requires Within(mask, whole) && whole <= OWNER
    ensures mask <= OWNER
  {
  }

  lemma ViewBit(mask: Mask)
    ensures mask & VIEW != 0 <==> Has(mask, VIEW)
  {
  }

  /** The inviter was an admin, or holds a row with the share bit and every bit of `mask`. */
  ghost predicate Delegable(owners: Owners, container: Id, inviter: Id, mask: Mask, asAdmin: bool) {
    asAdmin
    || ((container, inviter) in owners && Has(owners[(container, inviter)].mask, SHARE) && Within(mask, owners[(container, inviter)].mask))
  }

  ghost predicate InvitationOk(owners: Owners, inv: Invitation) {
    && Sane(inv.mask) && Delegable(owners, inv.container, inv.inviter, inv.mask, inv.asAdmin)
    && (inv.response == Some(Accepted) ==> inv.accepted) && (inv.accepted ==> (inv.container, inv.user) in owners)
  }

  ghost predicate Invites(inv: Invitation, key: (Id, Id), mask: Mask) {
    (inv.container, inv.user) == key && inv.mask == mask
  }

  ghost predicate HasInvitation(invitations: Invitations, key: (Id, Id), mask: Mask) {
    exists i :: i in invitations && Invites(invitations[i], key, mask) && invitations[i].accepted
  }

  ghost predicate RowOk(invitations: Invitations, key: (Id, Id), row: Ownership) {
    && Sane(row.mask) && row.level == LegacyLevel(row.mask)
    && (if row.primary then row.mask == OWNER else HasInvitation(invitations, key, row.mask))
  }

  ghost predicate UniqueInvitations(invitations: Invitations) {
    forall i, j :: i in invitations && j in invitations && i != j ==>
      invitations[i].container != invitations[j].container || invitations[i].user != invitations[j].user
  }

  ghost predicate RowsOk(db: Db) { forall key :: key in db.owners ==> RowOk(db.invitations, key, db.owners[key]) }

  ghost predicate InvitationsOk(db: Db) {
    forall i :: i in db.invitations ==>
      i < db.issued && db.invitations[i].container in db.containers && InvitationOk(db.owners, db.invitations[i])
  }

  ghost predicate HasPrimary(owners: Owners, container: Id) {
    exists u :: (container, u) in owners && owners[(container, u)].primary
  }

  /** Every container has exactly one primary owner. */
  ghost predicate PrimariesOk(containers: set<Id>, owners: Owners) {
    && (forall key :: key in owners ==> key.0 in containers)
    && (forall c :: c in containers ==> HasPrimary(owners, c))
    && (forall c, u, v :: (c, u) in owners && (c, v) in owners && owners[(c, u)].primary && owners[(c, v)].primary ==> u == v)
  }

  ghost predicate ProcOk(db: Db, p: Proc) {
    match p
    case CheckShare(actor, _, _, _) => !actor.admin
    case CheckOwn(actor, container, _, mask) =>
      !actor.admin && Has(mask, VIEW) && Has(GetPermissions(db.owners, container, actor.user), SHARE)
    case FindUser(actor, container, _, mask) => Sane(mask) && Delegable(db.owners, container, actor.user, mask, actor.admin)
    case StoreInvitation(inv) =>
      Sane(inv.mask) && Delegable(db.owners, inv.container, inv.inviter, inv.mask, inv.asAdmin) && inv.response.None? && !inv.accepted
    case Record(id, container, user, mask, _) => id in db.invitations && Invites(db.invitations[id], (container, user), mask)
    case _ => true
  }

  ghost predicate DbOk(db: Db) {
    RowsOk(db) && InvitationsOk(db) && UniqueInvitations(db.invitations)
    && PrimariesOk(db.containers, db.owners) && forall c :: c in db.containers ==> c < db.issued
  }

  ghost predicate ProcsOk(db: Db, procs: map<nat, Proc>) { forall p :: p in procs ==> ProcOk(db, procs[p]) }

  ghost predicate WorldOk(w: World) { DbOk(w.db) && ProcsOk(w.db, w.procs) }

  /** Ownership rows never change or vanish; invitations keep everything but their answer, which is never taken back. */
  ghost predicate Extends(db: Db, after: Db) {
    && db.issued <= after.issued && db.containers <= after.containers
    && (forall key :: key in db.owners ==> key in after.owners && after.owners[key] == db.owners[key])
    && (forall i :: i in db.invitations ==>
          && i in after.invitations
          && after.invitations[i].(response := db.invitations[i].response, accepted := db.invitations[i].accepted) == db.invitations[i]
          && (db.invitations[i].accepted ==> after.invitations[i].accepted)
          && (db.invitations[i].response.Some? ==> after.invitations[i].response.Some?))
  }

  lemma Reflexive(db: Db)
    ensures Extends(db, db)
  {
  }

  lemma StepExtends(db: Db, p: Proc, reply: Reply)
    requires DbOk(db)
    ensures Extends(db, Step(db, p, reply).db)
  {
    hide RowsOk, UniqueInvitations, InvitationOk, LegacyLevel, Delegable, HasPrimary;
  }

  // --- Each table's part of the invariant -------------------------------------------------------

  lemma HasInvitationStays(invitations: Invitations, after: Invitations, key: (Id, Id), mask: Mask)
    requires HasInvitation(invitations, key, mask)
    requires forall i :: i in invitations ==>
      && i in after && (invitations[i].accepted ==> after[i].accepted)
      && after[i].(response := invitations[i].response, accepted := invitations[i].accepted) == invitations[i]
    ensures HasInvitation(after, key, mask)
  {
    var i :| i in invitations && Invites(invitations[i], key, mask) && invitations[i].accepted;
    assert Invites(after[i], key, mask);
  }

  lemma RowStays(db: Db, after: Db, key: (Id, Id))
    requires Extends(db, after) && key in db.owners && RowOk(db.invitations, key, db.owners[key])
    ensures RowOk(after.invitations, key, db.owners[key])
  {
    hide LegacyLevel, HasInvitation;
    if !db.owners[key].primary { HasInvitationStays(db.invitations, after.invitations, key, db.owners[key].mask); }
  }

  lemma OwnerRowOk(invitations: Invitations, key: (Id, Id))
    ensures RowOk(invitations, key, Ownership(OWNER, true, "owner"))
  {
  }

  lemma StepKeepsRows(db: Db, p: Proc, reply: Reply)
    requires DbOk(db) && ProcOk(db, p)
    ensures RowsOk(Step(db, p, reply).db)
  {
    hide DbOk, RowOk, Extends, LegacyLevel, Sane;
    assert RowsOk(db) && InvitationsOk(db) by { DbParts(db); }
    var after := Step(db, p, reply).db;
    StepExtends(db, p, reply);
    forall key | key in after.owners
      ensures RowOk(after.invitations, key, after.owners[key])
    {
      if key in db.owners {
        RowStays(db, after, key);
        assert after.owners[key] == db.owners[key] by { ExtendsRow(db, after, key); }
      } else if p.Insert? {
        OwnerRowOk(after.invitations, key);
      } else {
        assert p.Record?;
        GrantedRowOk(db, after, p);
      }
    }
  }

  lemma ExtendsRow(db: Db, after: Db, key: (Id, Id))
    requires Extends(db, after) && key in db.owners
    ensures key in after.owners && after.owners[key] == db.owners[key]
  {
  }

  lemma DbParts(db: Db)
    requires DbOk(db)
    ensures RowsOk(db) && InvitationsOk(db)
  {
  }

  lemma GrantedRowOk(db: Db, after: Db, p: Proc)
    requires Extends(db, after) && p.Record? && ProcOk(db, p) && InvitationsOk(db)
    requires p.invitation in after.invitations ==> after.invitations[p.invitation].accepted
    ensures RowOk(after.invitations, (p.container, p.user), Ownership(p.mask, false, LegacyLevel(p.mask)))
  {
    hide LegacyLevel, Delegable;
    var inv := db.invitations[p.invitation];
    assert InvitationOk(db.owners, inv);
    assert Invites(after.invitations[p.invitation], (p.container, p.user), p.mask);
  }

  lemma DelegableStays(db: Db, after: Db, container: Id, inviter: Id, mask: Mask, asAdmin: bool)
    requires Extends(db, after) && Delegable(db.owners, container, inviter, mask, asAdmin)
    ensures Delegable(after.owners, container, inviter, mask, asAdmin)
  {
  }

  lemma StepKeepsInvitations(db: Db, p: Proc, reply: Reply)
    requires DbOk(db) && ProcOk(db, p)
    ensures InvitationsOk(Step(db, p, reply).db) && UniqueInvitations(Step(db, p, reply).db.invitations)
  {
    hide Extends, LegacyLevel, Sane, Delegable, RowsOk, PrimariesOk;
    var after := Step(db, p, reply).db;
    StepExtends(db, p, reply);
    forall i | i in after.invitations
      ensures i < after.issued && after.invitations[i].container in after.containers && InvitationOk(after.owners, after.invitations[i])
    {
      var inv := after.invitations[i];
      if i in db.invitations { assert InvitationOk(db.owners, db.invitations[i]); }
      DelegableStays(db, after, inv.container, inv.inviter, inv.mask, inv.asAdmin);
      if inv.accepted { AcceptedRow(db, p, reply, i); }
    }
  }

  /** An invitation ever accepted has its row. */
  lemma AcceptedRow(db: Db, p: Proc, reply: Reply, i: Id)
    requires DbOk(db) && ProcOk(db, p) && i in Step(db, p, reply).db.invitations
    requires Step(db, p, reply).db.invitations[i].accepted
    ensures var after := Step(db, p, reply).db; (after.invitations[i].container, after.invitations[i].user) in after.owners
  {
    hide Extends, LegacyLevel, Sane, Delegable, RowsOk, PrimariesOk, UniqueInvitations;
    StepExtends(db, p, reply);
    if i in db.invitations && db.invitations[i].accepted {
      var key := (db.invitations[i].container, db.invitations[i].user);
      assert InvitationOk(db.owners, db.invitations[i]);
      ExtendsRow(db, Step(db, p, reply).db, key);
    }
  }

  lemma StepKeepsPrimaries(db: Db, p: Proc, reply: Reply)
    requires DbOk(db) && ProcOk(db, p)
    ensures var after := Step(db, p, reply).db;
            PrimariesOk(after.containers, after.owners) && forall c :: c in after.containers ==> c < after.issued
  {
    hide HasPrimary, LegacyLevel, Sane, Delegable, RowsOk, UniqueInvitations, InvitationOk;
    var after := Step(db, p, reply).db;
    forall c | c in after.containers
      ensures HasPrimary(after.owners, c)
    {
      if c in db.containers { PrimaryStays(db.owners, after.owners, c); } else { NewPrimary(db, p.owner); }
    }
  }

  lemma PrimaryStays(owners: Owners, after: Owners, c: Id)
    requires HasPrimary(owners, c) && forall key :: key in owners ==> key in after && after[key] == owners[key]
    ensures HasPrimary(after, c)
  {
    var u :| (c, u) in owners && owners[(c, u)].primary;
    assert (c, u) in after;
  }

  lemma NewPrimary(db: Db, owner: Id)
    ensures HasPrimary(InsertContainer(db, owner).owners, db.issued)
  {
    assert (db.issued, owner) in InsertContainer(db, owner).owners;
  }

  lemma ProcStays(db: Db, after: Db, p: Proc)
    requires Extends(db, after) && ProcOk(db, p)
    ensures ProcOk(after, p)
  {
    hide Sane;
  }

  /** What the checks before an invitation establish for the rows as they are now. */
  lemma NextOk(db: Db, p: Proc, reply: Reply)
    requires DbOk(db) && ProcOk(db, p)
    ensures var o := Step(db, p, reply); o.next.Continue? ==> ProcOk(o.db, o.next.p)
  {
    hide PrimariesOk, UniqueInvitations, RecordResponse, InsertInvitation, InsertContainer, InvitationOk;
    match p
    case CheckShare(_, _, _, mask) => ViewBit(mask);
    case CheckOwn(actor, container, _, mask) =>
      var key := (container, actor.user);
      assert key in db.owners by { NoRowNoShare(); }
      assert RowOk(db.invitations, key, db.owners[key]);
      if Within(mask, db.owners[key].mask) { SaneWithin(mask, db.owners[key].mask); }
    case _ =>
  }

  lemma NoRowNoShare()
    ensures !Has(0, SHARE)
  {
  }

  lemma StartOk(db: Db, req: Request)
    ensures Start(req).Continue? ==> ProcOk(db, Start(req).p)
  {
    if req.Invite? {
      ViewBit(req.mask);
      if Within(req.mask, OWNER) { SaneWithin(req.mask, OWNER); }
    }
  }

  lemma ApplyOk(w: World, e: Event)
    requires WorldOk(w)
    ensures WorldOk(Apply(w, e)) && Extends(w.db, Apply(w, e).db)
  {
    hide Extends, Step, DbOk, ProcOk, Start;
    Reflexive(w.db);
    match e
    case Begin(req) => StartOk(w.db, req);
    case Act(pid, reply) =>
      if pid in w.procs {
        var p := w.procs[pid];
        var after := Step(w.db, p, reply).db;
        StepExtends(w.db, p, reply);
        StepKeepsDb(w.db, p, reply);
        NextOk(w.db, p, reply);
        forall q | q in w.procs
          ensures ProcOk(after, w.procs[q])
        {
          ProcStays(w.db, after, w.procs[q]);
        }
      }
    case Drop(_) =>
  }

  lemma StepKeepsDb(db: Db, p: Proc, reply: Reply)
    requires DbOk(db) && ProcOk(db, p)
    ensures DbOk(Step(db, p, reply).db)
  {
    hide RowsOk, InvitationsOk, UniqueInvitations, PrimariesOk, ProcOk, Step;
    StepKeepsRows(db, p, reply);
    StepKeepsInvitations(db, p, reply);
    StepKeepsPrimaries(db, p, reply);
  }

  lemma ExtendsTransitive(a: Db, b: Db, c: Db)
    requires Extends(a, b) && Extends(b, c)
    ensures Extends(a, c)
  {
  }

  lemma {:induction false} RunOk(w: World, es: seq<Event>)
    requires WorldOk(w)
    ensures WorldOk(Run(w, es)) && Extends(w.db, Run(w, es).db)
  {
    hide WorldOk, Extends, Apply;
    if es == [] {
      Reflexive(w.db);
    } else {
      var before := Run(w, es[..|es| - 1]);
      RunOk(w, es[..|es| - 1]);
      ApplyOk(before, es[|es| - 1]);
      ExtendsTransitive(w.db, before.db, Run(w, es).db);
    }
  }

  lemma InitOk()
    ensures WorldOk(INIT)
  {
  }

  // --- Every interleaving -------------------------------------------------------------------------

  ghost predicate Granted(db: Db, i: Id, key: (Id, Id), mask: Mask) {
    i in db.invitations && Invites(db.invitations[i], key, mask)
    && Delegable(db.owners, key.0, db.invitations[i].inviter, mask, db.invitations[i].asAdmin)
  }

  /**
   * In every interleaving, each ownership mask lies in the low byte and includes the view bit; a primary row holds all
   * bits, any other row exactly its one invitation's, which its inviter held in full with the share bit, unless an admin.
   */
  lemma MasksAreDelegated(es: seq<Event>, key: (Id, Id))
    requires key in Run(INIT, es).db.owners
    ensures var db := Run(INIT, es).db; var row := db.owners[key];
            && Has(row.mask, VIEW) && row.mask <= OWNER && (row.primary ==> row.mask == OWNER)
            && (!row.primary ==> exists i :: Granted(db, i, key, row.mask))
  {
    hide Run, UniqueInvitations, PrimariesOk, ProcsOk;
    InitOk();
    RunOk(INIT, es);
    var db := Run(INIT, es).db;
    assert RowOk(db.invitations, key, db.owners[key]);
    if !db.owners[key].primary {
      var i :| i in db.invitations && Invites(db.invitations[i], key, db.owners[key].mask);
      assert InvitationOk(db.owners, db.invitations[i]);
      assert Granted(db, i, key, db.owners[key].mask);
    }
  }

  /** In every interleaving, ownership rows never change or vanish, and an accepted invitation has its row. */
  lemma RowsAreForever(es: seq<Event>, more: seq<Event>, key: (Id, Id), i: Id)
    ensures var now, later := Run(INIT, es).db, Run(Run(INIT, es), more).db;
            && (key in now.owners ==> key in later.owners && later.owners[key] == now.owners[key])
            && (i in later.invitations && later.invitations[i].response == Some(Accepted) ==>
                  (later.invitations[i].container, later.invitations[i].user) in later.owners)
  {
    hide Run, UniqueInvitations, PrimariesOk, ProcsOk, RowsOk;
    InitOk();
    RunOk(INIT, es);
    RunOk(Run(INIT, es), more);
    var later := Run(Run(INIT, es), more).db;
    if i in later.invitations { assert InvitationOk(later.owners, later.invitations[i]); }
  }

  /** `user` holds a row granted by `inviter`'s own invitation. */
  ghost predicate GrantedBy(db: Db, container: Id, inviter: Id, user: Id) {
    && (container, user) in db.owners && !db.owners[(container, user)].primary
    && exists i :: i in db.invitations && !db.invitations[i].asAdmin && db.invitations[i].inviter == inviter
                   && db.invitations[i].container == container && db.invitations[i].user == user
  }

  ghost predicate Chain(db: Db, container: Id, users: seq<Id>) {
    forall k :: 0 <= k < |users| - 1 ==> GrantedBy(db, container, users[k], users[k + 1])
  }

  lemma GrantShrinks(db: Db, container: Id, inviter: Id, user: Id)
    requires DbOk(db) && GrantedBy(db, container, inviter, user)
    ensures (container, inviter) in db.owners && (container, user) in db.owners
    ensures Within(db.owners[(container, user)].mask, db.owners[(container, inviter)].mask)
    ensures Has(db.owners[(container, inviter)].mask, SHARE)
  {
    hide PrimariesOk;
    var i :| i in db.invitations && !db.invitations[i].asAdmin && db.invitations[i].inviter == inviter
             && db.invitations[i].container == container && db.invitations[i].user == user;
    assert InvitationOk(db.owners, db.invitations[i]);
    var key := (container, user);
    assert RowOk(db.invitations, key, db.owners[key]);
    var j :| j in db.invitations && Invites(db.invitations[j], key, db.owners[key].mask);
    assert i == j;
  }

  lemma {:induction false} ChainShrinks(db: Db, container: Id, users: seq<Id>)
    requires DbOk(db) && |users| >= 2 && Chain(db, container, users)
    ensures var last := (container, users[|users| - 1]);
            && (container, users[0]) in db.owners && last in db.owners
            && Within(db.owners[last].mask, db.owners[(container, users[0])].mask)
  {
    hide DbOk, GrantedBy;
    var n := |users|;
    GrantShrinks(db, container, users[n - 2], users[n - 1]);
    if n > 2 {
      ChainShrinks(db, container, users[..n - 1]);
      WithinTransitive(db.owners[(container, users[n - 1])].mask, db.owners[(container, users[n - 2])].mask,
                       db.owners[(container, users[0])].mask);
    }
  }

  /**
   * In every interleaving, masks only shrink along every chain of invitations not sent by admins: a permission the last one
   * holds is one the first one holds.
   */
  lemma MasksShrinkAlongChains(es: seq<Event>, container: Id, users: seq<Id>, flag: Mask)
    requires |users| >= 2 && Chain(Run(INIT, es).db, container, users)
    ensures var owners := Run(INIT, es).db.owners; var last := (container, users[|users| - 1]);
            && (container, users[0]) in owners && last in owners
            && Within(owners[last].mask, owners[(container, users[0])].mask)
            && (Has(owners[last].mask, flag) ==> Has(owners[(container, users[0])].mask, flag))
  {
    hide Run, DbOk, Has, Within;
    InitOk();
    RunOk(INIT, es);
    ChainShrinks(Run(INIT, es).db, container, users);
    var owners := Run(INIT, es).db.owners;
    HasIsWithin(owners[(container, users[0])].mask, owners[(container, users[|users| - 1])].mask, flag);
    HasIsWithin(owners[(container, users[|users| - 1])].mask, flag, flag);
  }

  /** In every interleaving, every container has exactly one primary owner. */
  lemma OnePrimaryOwner(es: seq<Event>, container: Id)
    requires container in Run(INIT, es).db.containers
    ensures var owners := Run(INIT, es).db.owners;
            exists u :: (container, u) in owners && owners[(container, u)].primary
                        && forall v :: (container, v) in owners && owners[(container, v)].primary ==> u == v
  {
    hide Run, RowsOk, InvitationsOk, UniqueInvitations, ProcsOk;
    InitOk();
    RunOk(INIT, es);
    var owners := Run(INIT, es).db.owners;
    assert HasPrimary(owners, container);
    var u :| (container, u) in owners && owners[(container, u)].primary;
  }

  /**
   * In every interleaving, an invitee other than the primary owner has a row if and only if some answer so far was to
   * accept, whatever the last answer was.
   */
  lemma RowIffEverAccepted(es: seq<Event>, i: Id)
    requires i in Run(INIT, es).db.invitations
    ensures var db := Run(INIT, es).db; var inv := db.invitations[i]; var key := (inv.container, inv.user);
            && (key in db.owners <==> inv.accepted || (key in db.owners && db.owners[key].primary))
            && (inv.response == Some(Accepted) ==> inv.accepted)
  {
    hide Run, PrimariesOk, ProcsOk;
    InitOk();
    RunOk(INIT, es);
    var db := Run(INIT, es).db;
    var inv := db.invitations[i];
    var key := (inv.container, inv.user);
    assert InvitationOk(db.owners, inv);
    if key in db.owners {
      assert RowOk(db.invitations, key, db.owners[key]);
      if !db.owners[key].primary {
        var j :| j in db.invitations && Invites(db.invitations[j], key, db.owners[key].mask) && db.invitations[j].accepted;
        assert i == j;
      }
    }
  }

  lemma RunSnoc(w: World, es: seq<Event>, e: Event)
    ensures Run(w, es + [e]) == Apply(Run(w, es), e)
  {
    hide Apply;
    assert (es + [e])[..|es|] == es;
  }

  /** A container is created, its owner invites user 8 by email, and user 8 accepts and then declines. */
  function AcceptThenDecline(): seq<Event> {
    [Begin(Create(Actor(7, false))), Act(0, Done),
     Begin(Invite(Actor(7, false), 0, Some(8), VIEWER)), Act(1, Done), Act(1, Done), Act(1, Done), Act(1, Done),
     Begin(Respond(Actor(8, false), 1, Some(Accepted))), Act(2, Done), Act(2, Done),
     Begin(Respond(Actor(8, false), 1, Some(Declined))), Act(3, Done), Act(3, Done)]
  }

  const OWNED: Db := Db({0}, map[(0, 7) := Ownership(OWNER, true, "owner")], map[], 1)

  const INVITED: Invitation := Invitation(0, 8, 7, VIEWER, None, false, false)

  lemma ContainerCreated()
    ensures Run(INIT, AcceptThenDecline()[..3]) ==
            World(OWNED, map[1 := CheckShare(Actor(7, false), 0, Some(8), VIEWER)], 2)
  {
    hide Run;
    var es := AcceptThenDecline();
    RunNone();
    assert es[..1] == [] + [es[0]] && es[..2] == es[..1] + [es[1]] && es[..3] == es[..2] + [es[2]];
    RunSnoc(INIT, [], es[0]);
    RunSnoc(INIT, es[..1], es[1]);
    RunSnoc(INIT, es[..2], es[2]);
    var w1 := World(INIT.db, map[0 := Insert(7)], 1);
    assert Apply(INIT, es[0]) == w1;
    var w2 := World(OWNED, map[], 1);
    assert Apply(w1, es[1]) == w2;
  }

  lemma RunNone()
    ensures Run(INIT, []) == INIT
  {
  }

  lemma OwnerMayShare()
    ensures Has(OWNER, SHARE) && VIEWER & VIEW != 0 && VIEWER & OWNER == VIEWER
  {
  }

  lemma InvitationSent()
    ensures Run(INIT, AcceptThenDecline()[..7]) == World(OWNED.(invitations := map[1 := INVITED], issued := 2), map[], 2)
  {
    hide Run, Has;
    var es := AcceptThenDecline();
    ContainerCreated();
    OwnerMayShare();
    assert es[..4] == es[..3] + [es[3]] && es[..5] == es[..4] + [es[4]];
    assert es[..6] == es[..5] + [es[5]] && es[..7] == es[..6] + [es[6]];
    RunSnoc(INIT, es[..3], es[3]);
    RunSnoc(INIT, es[..4], es[4]);
    RunSnoc(INIT, es[..5], es[5]);
    RunSnoc(INIT, es[..6], es[6]);
    var actor := Actor(7, false);
    var w4 := World(OWNED, map[1 := CheckOwn(actor, 0, Some(8), VIEWER)], 2);
    assert Run(INIT, es[..4]) == w4;
    var w5 := World(OWNED, map[1 := FindUser(actor, 0, Some(8), VIEWER)], 2);
    assert Apply(w4, es[4]) == w5;
    var w6 := World(OWNED, map[1 := StoreInvitation(INVITED)], 2);
    assert Apply(w5, es[5]) == w6;
  }

  /** One answer of the invitee. */
  lemma AnswerRuns(w: World, response: Response)
    requires w.procs == map[] && 1 in w.db.invitations
    requires w.db.invitations[1].container == 0 && w.db.invitations[1].user == 8
    ensures Apply(Apply(Apply(w, Begin(Respond(Actor(8, false), 1, Some(response)))), Act(w.nextPid, Done)), Act(w.nextPid, Done))
            == World(RecordResponse(w.db, 1, 0, 8, w.db.invitations[1].mask, response), map[], w.nextPid + 1)
  {
    hide RecordResponse;
    var w1 := Apply(w, Begin(Respond(Actor(8, false), 1, Some(response))));
    assert w1.procs == map[w.nextPid := LoadInvitation(Actor(8, false), 1, response)];
    var w2 := Apply(w1, Act(w.nextPid, Done));
    assert w2.procs == map[w.nextPid := Record(1, 0, 8, w.db.invitations[1].mask, response)];
  }

  /** So declining does not take the row back: a run from the start whose invitation reads declined and whose row stays. */
  lemma DeclinedKeepsRow()
    ensures var db := Run(INIT, AcceptThenDecline()).db;
            && 1 in db.invitations && db.invitations[1].response == Some(Declined)
            && (0, 8) in db.owners && db.owners[(0, 8)] == Ownership(VIEWER, false, "viewer")
  {
    hide Run, Apply;
    var es := AcceptThenDecline();
    InvitationSent();
    assert es[..8] == es[..7] + [es[7]] && es[..9] == es[..8] + [es[8]] && es[..10] == es[..9] + [es[9]];
    assert es[..11] == es[..10] + [es[10]] && es[..12] == es[..11] + [es[11]] && es == es[..12] + [es[12]];
    RunSnoc(INIT, es[..7], es[7]);
    RunSnoc(INIT, es[..8], es[8]);
    RunSnoc(INIT, es[..9], es[9]);
    RunSnoc(INIT, es[..10], es[10]);
    RunSnoc(INIT, es[..11], es[11]);
    RunSnoc(INIT, es[..12], es[12]);
    AnswerRuns(Run(INIT, es[..7]), Accepted);
    AnswerRuns(Run(INIT, es[..10]), Declined);
  }

  // --- The deprecated column --------------------------------------------------------------------

  datatype AccessLevel = Viewer | Operator | Owner

  /** `check_access`: the text column against the levels that include the minimum. */
  predicate CheckAccess(owners: Owners, container: Id, user: Id, minimum: AccessLevel) {
    (container, user) in owners
    && var level := owners[(container, user)].level;
       match minimum
       case Viewer => level == "owner" || level == "operator" || level == "viewer"
       case Operator => level == "owner" || level == "operator"
       case Owner => level == "owner"
  }

  /**
   * In every interleaving, the text check passes for operator and owner only with exactly those preset masks, and the text
   * stands for the mask exactly when the mask is a preset.
   */
  lemma LegacyCheckIsExact(es: seq<Event>, container: Id, user: Id)
    ensures var owners := Run(INIT, es).db.owners; var mask := GetPermissions(owners, container, user);
            && (CheckAccess(owners, container, user, Owner) <==> mask == OWNER)
            && (CheckAccess(owners, container, user, Operator) <==> mask == OWNER || mask == OPERATOR)
            && (CheckAccess(owners, container, user, Viewer) <==> Has(mask, VIEW))
            && ((container, user) in owners ==>
                  (FromPreset(owners[(container, user)].level) == mask <==> mask in {VIEWER, OPERATOR, OWNER}))
  {
    hide Run, UniqueInvitations, PrimariesOk, ProcsOk, InvitationsOk, HasInvitation;
    InitOk();
    RunOk(INIT, es);
    var db := Run(INIT, es).db;
    if (container, user) in db.owners {
      var row := db.owners[(container, user)];
      assert RowOk(db.invitations, (container, user), row);
      PresetRoundTrip(row.level, row.mask);
    }
  }
}

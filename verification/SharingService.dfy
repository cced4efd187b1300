/** The container repository's sharing tables and the service over them, updated in place. */
module SharingService {
  import opened Basics
  import opened Sharing

  class ContainerRepo {
    var containers: set<Id>
    var owners: map<(Id, Id), Ownership>
    var invitations: map<Id, Invitation>
    var issued: nat

    function Rows(): Db reads this { Db(containers, owners, invitations, issued) }

    constructor ()
      ensures Rows() == INIT.db
    {
      containers, owners, invitations, issued := {}, map[], map[], 0;
    }

    /** One transaction: the container and its primary owner. */
    method Create(owner: Id, reply: Reply) returns (ok: bool)
      modifies this`containers, this`owners, this`issued
      ensures Rows() == if reply == Fail(false) then old(Rows()) else InsertContainer(old(Rows()), owner)
      ensures ok == reply.Done?
    {
      if reply != Fail(false) {
        containers := containers + {issued};
        owners := owners[(issued, owner) := Ownership(OWNER, true, "owner")];
        issued := issued + 1;
      }
      ok := reply.Done?;
    }

    method CreateInvitation(inv: Invitation, reply: Reply) returns (ok: bool)
      modifies this`invitations, this`issued
      ensures var after := InsertInvitation(old(Rows()), inv);
              && Rows() == (if reply == Fail(false) || after.None? then old(Rows()) else after.value)
              && ok == (reply.Done? && after.Some?)
    {
      if reply == Fail(false) || inv.container !in containers
         || exists i :: i in invitations && invitations[i].container == inv.container && invitations[i].user == inv.user {
        return false;
      }
      invitations := invitations[issued := inv];
      issued := issued + 1;
      ok := reply.Done?;
    }

    /** One transaction: the answer, and on acceptance the row, unless there is one. */
    method Respond(id: Id, container: Id, user: Id, mask: Mask, response: Response, reply: Reply) returns (ok: bool)
      modifies this`invitations, this`owners
      ensures Rows() == if reply == Fail(false) then old(Rows())
                        else RecordResponse(old(Rows()), id, container, user, mask, response)
      ensures ok == reply.Done?
    {
      if reply != Fail(false) {
        if id in invitations { invitations := invitations[id := Answered(invitations[id], response)]; }
        if response.Accepted? && (container, user) !in owners {
          var name := ToPresetName(mask);
          owners := owners[(container, user) := Ownership(mask, false, if name.Some? then name.value else "viewer")];
        }
      }
      ok := reply.Done?;
    }
  }

  /** What the permission checks on an invitation answer. */
  ghost function CheckAnswer(db: Db, actor: Actor, container: Id, mask: Mask): Answer {
    var own := if actor.admin then OWNER else GetPermissions(db.owners, container, actor.user);
    if !Has(own, SHARE) then Forbidden
    else if !Has(mask, VIEW) then BadRequest
    else if !Within(mask, own) then Forbidden
    else Success
  }

  /** What an invitation that meets no failure is answered. */
  ghost function InviteAnswer(db: Db, actor: Actor, container: Id, resolved: Option<Id>, mask: Mask): Answer {
    if CheckAnswer(db, actor, container, mask) != Success then CheckAnswer(db, actor, container, mask)
    else if resolved.None? then NotFound
    else if container !in db.containers || AlreadyInvited(db.invitations, container, resolved.value) then Internal
    else Success
  }

  predicate AlreadyInvited(invitations: Invitations, container: Id, user: Id) {
    exists i :: i in invitations && invitations[i].container == container && invitations[i].user == user
  }

  /** Exactly this invitation is added. */
  ghost predicate Invited(db: Db, after: Db, inv: Invitation) {
    after == db.(invitations := db.invitations[db.issued := inv], issued := db.issued + 1)
  }

  lemma InsertMeaning(db: Db, inv: Invitation)
    ensures var r := InsertInvitation(db, inv);
            if inv.container in db.containers && !AlreadyInvited(db.invitations, inv.container, inv.user)
            then r.Some? && Invited(db, r.value, inv) else r.None?
  {
  }

  lemma InsertKeepsDb(db: Db, inv: Invitation)
    requires DbOk(db) && Sane(inv.mask) && Delegable(db.owners, inv.container, inv.inviter, inv.mask, inv.asAdmin)
    requires inv.response.None? && !inv.accepted
    ensures InsertInvitation(db, inv).Some? ==> DbOk(InsertInvitation(db, inv).value)
  {
    hide DbOk, Sane, Delegable;
    StepKeepsDb(db, StoreInvitation(inv), Done);
  }

  lemma RecordKeepsDb(db: Db, id: Id, response: Response)
    requires DbOk(db) && id in db.invitations
    ensures var inv := db.invitations[id]; DbOk(RecordResponse(db, id, inv.container, inv.user, inv.mask, response))
  {
    hide DbOk, RecordResponse;
    var inv := db.invitations[id];
    StepKeepsDb(db, Record(id, inv.container, inv.user, inv.mask, response), Done);
  }

  ghost function RespondAnswer(invitations: Invitations, actor: Actor, id: Id, response: Option<Response>): Answer {
    if response.None? then BadRequest
    else if id !in invitations then NotFound
    else if invitations[id].user != actor.user then Forbidden
    else Success
  }

  class ContainerService {
    const repo: ContainerRepo

    constructor (repo: ContainerRepo)
      ensures this.repo == repo
    {
      this.repo := repo;
    }

    ghost predicate Valid() reads repo { DbOk(repo.Rows()) }

    /** `Ok` when the actor holds the flag; admins need no query, which the reply would answer. */
    method RequirePermission(actor: Actor, container: Id, flag: Mask, reply: Reply) returns (r: Answer)
      ensures r == if actor.admin then Success
                   else if reply.Fail? then Internal
                   else if Has(GetPermissions(repo.owners, container, actor.user), flag) then Success else Forbidden
    {
      if actor.admin { return Success; }
      if reply.Fail? { return Internal; }
      return if Has(GetPermissions(repo.owners, container, actor.user), flag) then Success else Forbidden;
    }

    /**
     * Without failures the answer is exactly `InviteAnswer`. On success exactly one unanswered invitation is added, whose
     * mask the inviter holds; a refusal changes nothing.
     */
    method InviteByEmail(actor: Actor, container: Id, resolved: Option<Id>, mask: Mask, replies: nat -> Reply) returns (answer: Answer)
      requires Valid()
      modifies repo
      ensures Valid()
      ensures (forall k :: replies(k) == Done) ==> answer == InviteAnswer(old(repo.Rows()), actor, container, resolved, mask)
      ensures answer == Success ==> resolved.Some?
      ensures answer == Success ==>
                Invited(old(repo.Rows()), repo.Rows(), Invitation(container, resolved.value, actor.user, mask, None, actor.admin, false))
      ensures answer == Success ==> Delegable(old(repo.owners), container, actor.user, mask, actor.admin)
      ensures answer != Success && answer != Internal ==> repo.Rows() == old(repo.Rows())
    {
      hide DbOk, Delegable, Sane, InsertInvitation, AlreadyInvited, Invited, CheckAnswer;
      ghost var db := repo.Rows();
      var checked := CheckInvite(actor, container, mask, replies);
      if checked != Success { return checked; }
      if replies(2).Fail? { return Internal; }
      if resolved.None? { return NotFound; }
      var inv := Invitation(container, resolved.value, actor.user, mask, None, actor.admin, false);
      InsertKeepsDb(db, inv);
      InsertMeaning(db, inv);
      var stored := repo.CreateInvitation(inv, replies(3));
      return if stored then Success else Internal;
    }

    /** The share bit first, then the view bit, then the actor's own mask. */
    method CheckInvite(actor: Actor, container: Id, mask: Mask, replies: nat -> Reply) returns (answer: Answer)
      requires Valid()
      ensures answer == Success ==> Sane(mask) && Delegable(repo.owners, container, actor.user, mask, actor.admin)
      ensures answer == Success ==> CheckAnswer(repo.Rows(), actor, container, mask) == Success
      ensures answer in {Success, Internal, Forbidden, BadRequest}
      ensures (forall k :: replies(k) == Done) ==> answer == CheckAnswer(repo.Rows(), actor, container, mask)
    {
      hide DbOk, Delegable, Sane, Has, Within, GetPermissions;
      var permitted := RequirePermission(actor, container, SHARE, replies(0));
      AdminMayShare();
      if permitted != Success { return permitted; }
      if !Has(mask, VIEW) { return BadRequest; }
      if !actor.admin && replies(1).Fail? { return Internal; }
      var own := if actor.admin then OWNER else GetPermissions(repo.owners, container, actor.user);
      if !Within(mask, own) { return Forbidden; }
      ChecksSuffice(repo.Rows(), actor, container, mask);
      return Success;
    }

    lemma AdminMayShare()
      ensures Has(OWNER, SHARE)
    {
    }

    lemma ChecksSuffice(db: Db, actor: Actor, container: Id, mask: Mask)
      requires DbOk(db) && Has(mask, VIEW)
      requires var own := if actor.admin then OWNER else GetPermissions(db.owners, container, actor.user);
               Has(own, SHARE) && Within(mask, own)
      ensures Sane(mask) && Delegable(db.owners, container, actor.user, mask, actor.admin)
    {
      hide UniqueInvitations, PrimariesOk, InvitationsOk;
      if actor.admin {
        SaneWithin(mask, OWNER);
      } else {
        NoRowNoShare();
        var key := (container, actor.user);
        assert key in db.owners;
        assert RowOk(db.invitations, key, db.owners[key]);
        SaneWithin(mask, db.owners[key].mask);
      }
    }

    /**
     * Only the invitee's own answer is recorded; accepting creates a row with the invitation's mask unless one exists,
     * declining leaves every row.
     */
    method RespondToInvitation(actor: Actor, id: Id, response: Option<Response>, replies: nat -> Reply) returns (answer: Answer)
      requires Valid()
      modifies repo
      ensures Valid()
      ensures answer == Success ==> response.Some? && id in old(repo.invitations) && old(repo.invitations)[id].user == actor.user
      ensures answer == Success ==>
                var inv := old(repo.invitations)[id]; var key := (inv.container, actor.user);
                && repo.invitations == old(repo.invitations)[id := Answered(inv, response.value)]
                && (response == Some(Declined) ==> repo.owners == old(repo.owners))
                && (response == Some(Accepted) ==> key in repo.owners && repo.owners - {key} == old(repo.owners) - {key})
                && (response == Some(Accepted) && key !in old(repo.owners) ==> repo.owners[key].mask == inv.mask)
                && (key in old(repo.owners) ==> repo.owners == old(repo.owners))
      ensures answer != Success && answer != Internal ==> repo.Rows() == old(repo.Rows())
      ensures (forall k :: replies(k) == Done) ==> answer == RespondAnswer(old(repo.invitations), actor, id, response)
    {
      hide DbOk, LegacyLevel;
      ghost var db := repo.Rows();
      if response.None? { return BadRequest; }
      if replies(0).Fail? { return Internal; }
      if id !in repo.invitations { return NotFound; }
      var inv := repo.invitations[id];
      if inv.user != actor.user { return Forbidden; }
      RecordKeepsDb(db, id, response.value);
      var recorded := repo.Respond(id, inv.container, actor.user, inv.mask, response.value, replies(1));
      return if recorded then Success else Internal;
    }

    method Create(actor: Actor, replies: nat -> Reply) returns (answer: Answer)
      requires Valid()
      modifies repo
      ensures Valid()
      ensures answer == Success ==> repo.Rows() == InsertContainer(old(repo.Rows()), actor.user)
    {
      hide DbOk;
      StepKeepsDb(repo.Rows(), Insert(actor.user), replies(0));
      var created := repo.Create(actor.user, replies(0));
      return if created then Success else Internal;
    }
  }
}

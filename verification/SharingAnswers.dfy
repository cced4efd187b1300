/** Whole sharing requests: what each is answered, and what it stores. */
module SharingAnswers {
  import opened Basics
  import opened Sharing

  datatype Final = Final(db: Db, answer: Answer)

  /** The place of an await in its request; admins start an invitation at its third. */
  function Place(p: Proc): nat {
    match p
    case Insert(_) => 0
    case CheckShare(_, _, _, _) => 0
    case CheckOwn(_, _, _, _) => 1
    case FindUser(_, _, _, _) => 2
    case StoreInvitation(_) => 3
    case LoadInvitation(_, _, _) => 0
    case Record(_, _, _, _, _) => 1
  }

  lemma PlaceRises(db: Db, p: Proc, reply: Reply)
    ensures var o := Step(db, p, reply); o.next.Continue? ==> Place(o.next.p) == Place(p) + 1
    ensures Place(p) <= 3
  {
    hide InsertInvitation, InsertContainer, RecordResponse;
  }

  /** The request from `next` on, alone; await k is answered by `replies(k)`. */
  ghost function Finish(db: Db, next: Next, replies: nat -> Reply): Final
    decreases if next.Continue? then 4 - Place(next.p) else 0
  {
    match next
    case Return(answer) => Final(db, answer)
    case Continue(p) =>
      PlaceRises(db, p, replies(Place(p)));
      var o := Step(db, p, replies(Place(p)));
      Finish(o.db, o.next, replies)
  }

  ghost function Perform(db: Db, req: Request, replies: nat -> Reply): Final { Finish(db, Start(req), replies) }

  lemma Advance(db: Db, p: Proc, replies: nat -> Reply)
    ensures var o := Step(db, p, replies(Place(p)));
            && Finish(db, Continue(p), replies) == Finish(o.db, o.next, replies)
            && (o.next.Return? ==> Finish(db, Continue(p), replies) == Final(o.db, o.next.answer))
  {
    hide Step;
    PlaceRises(db, p, replies(Place(p)));
  }

  lemma Returned(db: Db, answer: Answer, replies: nat -> Reply)
    ensures Finish(db, Return(answer), replies) == Final(db, answer)
  {
  }

  const ALL_DONE: nat -> Reply := (k: nat) => Done

  ghost function Served(db: Db, req: Request): Final { Perform(db, req, ALL_DONE) }

  /**
   * An await that failed without effect changes nothing, one that failed after taking effect leaves what success leaves; both
   * end the request with an internal error.
   */
  lemma FailureLaw(db: Db, p: Proc, acted: bool)
    ensures var o := Step(db, p, Fail(acted)); o.next == Return(Internal) && o.db == if acted then Step(db, p, Done).db else db
  {
    hide RecordResponse, InsertContainer;
  }

  lemma {:induction false} DoneUnlessInternal(db: Db, next: Next, replies: nat -> Reply)
    requires Finish(db, next, replies).answer != Internal
    ensures Finish(db, next, replies) == Finish(db, next, ALL_DONE)
    decreases if next.Continue? then 4 - Place(next.p) else 0
  {
    hide Step, Finish;
    match next
    case Return(answer) => Returned(db, answer, replies); Returned(db, answer, ALL_DONE);
    case Continue(p) =>
      var reply := replies(Place(p));
      Advance(db, p, replies);
      Advance(db, p, ALL_DONE);
      PlaceRises(db, p, Done);
      if reply.Fail? {
        FailureLaw(db, p, reply.acted);
      } else {
        var o := Step(db, p, Done);
        if o.next.Continue? { DoneUnlessInternal(o.db, o.next, replies); }
      }
  }

  /** Whatever fails, a request is answered with an internal error or ends as if nothing had failed. */
  lemma ServedUnlessInternal(db: Db, req: Request, replies: nat -> Reply)
    ensures var f := Perform(db, req, replies); f.answer != Internal ==> f == Served(db, req)
  {
    hide Finish;
    if Perform(db, req, replies).answer != Internal { DoneUnlessInternal(db, Start(req), replies); }
  }

  // --- Creating and inviting ------------------------------------------------------------------

  /** A created container has one row: all eight permissions for its creator, as primary owner. */
  lemma CreateAnswer(db: Db, actor: Actor)
    ensures Served(db, Create(actor)) ==
            Final(db.(containers := db.containers + {db.issued},
                      owners := db.owners[(db.issued, actor.user) := Ownership(0xFF, true, "owner")], issued := db.issued + 1), Success)
  {
    hide Finish;
    Advance(db, Insert(actor.user), ALL_DONE);
  }

  /** What the inviter holds on the container; no row is nothing, an admin counts as holding everything. */
  ghost function Holds(db: Db, actor: Actor, container: Id): Mask {
    if actor.admin then 0xFF else if (container, actor.user) in db.owners then db.owners[(container, actor.user)].mask else 0
  }

  ghost predicate Invited(db: Db, container: Id, user: Id) {
    exists i :: i in db.invitations && db.invitations[i].container == container && db.invitations[i].user == user
  }

  /** Stored unanswered for a known user who has no invitation to the container yet. */
  ghost function Entered(db: Db, actor: Actor, container: Id, resolved: Option<Id>, mask: Mask): Final {
    if resolved.None? then Final(db, NotFound)
    else if container !in db.containers || Invited(db, container, resolved.value) then Final(db, Internal)
    else Final(db.(invitations := db.invitations[db.issued :=
                     Invitation(container, resolved.value, actor.user, mask, None, actor.admin, false)],
                   issued := db.issued + 1), Success)
  }

  ghost predicate MayShare(own: Mask) { own & 0x40 != 0 }

  ghost predicate Views(mask: Mask) { mask & 0x01 != 0 }

  /** The mask has a bit that `own` does not have. */
  ghost predicate Exceeds(mask: Mask, own: Mask) { mask & own != mask }

  /** Every invitation: the inviter needs the share bit, the mask the view bit and no bit the inviter lacks. */
  lemma InviteAnswer(db: Db, actor: Actor, container: Id, resolved: Option<Id>, mask: Mask)
    ensures var own := Holds(db, actor, container);
            Served(db, Invite(actor, container, resolved, mask)) ==
            if !MayShare(own) then Final(db, Forbidden)
            else if !Views(mask) then Final(db, BadRequest)
            else if Exceeds(mask, own) then Final(db, Forbidden)
            else Entered(db, actor, container, resolved, mask)
  {
    hide Served, Entered, MayShare, Views, Exceeds;
    if actor.admin {
      AdminInvites(db, actor, container, resolved, mask);
    } else {
      hide Holds;
      MemberInvites(db, actor, container, resolved, mask);
    }
  }

  lemma AdminInvites(db: Db, actor: Actor, container: Id, resolved: Option<Id>, mask: Mask)
    requires actor.admin
    ensures MayShare(0xFF)
    ensures Served(db, Invite(actor, container, resolved, mask)) ==
            if !Views(mask) then Final(db, BadRequest)
            else if Exceeds(mask, 0xFF) then Final(db, Forbidden)
            else Entered(db, actor, container, resolved, mask)
  {
    hide Finish, Entered, Step;
    if mask & VIEW == 0 {
      Returned(db, BadRequest, ALL_DONE);
    } else if mask & OWNER != mask {
      Returned(db, Forbidden, ALL_DONE);
    } else {
      Entering(db, actor, container, resolved, mask);
    }
  }

  lemma MemberInvites(db: Db, actor: Actor, container: Id, resolved: Option<Id>, mask: Mask)
    requires !actor.admin
    ensures var own := Holds(db, actor, container);
            Served(db, Invite(actor, container, resolved, mask)) ==
            if !MayShare(own) then Final(db, Forbidden)
            else if !Views(mask) then Final(db, BadRequest)
            else if Exceeds(mask, own) then Final(db, Forbidden)
            else Entered(db, actor, container, resolved, mask)
  {
    hide Finish, Entered, Step, Holds, GetPermissions, MayShare, Views, Exceeds;
    var own := Holds(db, actor, container);
    HoldsRow(db, actor, container);
    Advance(db, CheckShare(actor, container, resolved, mask), ALL_DONE);
    ShareStep(db, actor, container, resolved, mask, own);
    Advance(db, CheckOwn(actor, container, resolved, mask), ALL_DONE);
    OwnStep(db, actor, container, resolved, mask, own);
    Entering(db, actor, container, resolved, mask);
  }

  lemma ShareBit(mask: Mask)
    ensures Has(mask, SHARE) <==> MayShare(mask)
  {
  }

  lemma ShareStep(db: Db, actor: Actor, container: Id, resolved: Option<Id>, mask: Mask, own: Mask)
    requires own == GetPermissions(db.owners, container, actor.user)
    ensures Step(db, CheckShare(actor, container, resolved, mask), Done) ==
            Outcome(db, if !MayShare(own) then Return(Forbidden) else if !Views(mask) then Return(BadRequest)
                        else Continue(CheckOwn(actor, container, resolved, mask)))
  {
    hide GetPermissions, InsertInvitation, InsertContainer, RecordResponse, Has, MayShare;
    ShareBit(own);
  }

  lemma HoldsRow(db: Db, actor: Actor, container: Id)
    requires !actor.admin
    ensures Holds(db, actor, container) == GetPermissions(db.owners, container, actor.user)
  {
  }

  lemma OwnStep(db: Db, actor: Actor, container: Id, resolved: Option<Id>, mask: Mask, own: Mask)
    requires own == GetPermissions(db.owners, container, actor.user)
    ensures Step(db, CheckOwn(actor, container, resolved, mask), Done) ==
            Outcome(db, if Exceeds(mask, own) then Return(Forbidden) else Continue(FindUser(actor, container, resolved, mask)))
  {
    hide GetPermissions, InsertInvitation, InsertContainer, RecordResponse, Has;
  }

  lemma Entering(db: Db, actor: Actor, container: Id, resolved: Option<Id>, mask: Mask)
    ensures Finish(db, Continue(FindUser(actor, container, resolved, mask)), ALL_DONE) == Entered(db, actor, container, resolved, mask)
  {
    hide Finish;
    Advance(db, FindUser(actor, container, resolved, mask), ALL_DONE);
    if resolved.Some? {
      Advance(db, StoreInvitation(Invitation(container, resolved.value, actor.user, mask, None, actor.admin, false)), ALL_DONE);
    }
  }

  // --- Answering ----------------------------------------------------------------------------------

  /**
   * Every answer to an invitation: only its invitee's counts. It is recorded over any earlier one, and an acceptance gives the
   * invitee a row with exactly the invitation's mask unless there is one already; nothing else changes.
   */
  lemma RespondAnswer(db: Db, actor: Actor, id: Id, response: Option<Response>)
    ensures Served(db, Respond(actor, id, response)) ==
            if response.None? then Final(db, BadRequest)
            else if id !in db.invitations then Final(db, NotFound)
            else if db.invitations[id].user != actor.user then Final(db, Forbidden)
            else
              var inv := db.invitations[id];
              var key, level := (inv.container, inv.user), if inv.mask == 0xFF then "owner" else if inv.mask == 0x3F then "operator" else "viewer";
              Final(db.(invitations := db.invitations[id := inv.(response := response, accepted := inv.accepted || response == Some(Accepted))],
                        owners := if response == Some(Accepted) && key !in db.owners
                                  then db.owners[key := Ownership(inv.mask, false, level)] else db.owners), Success)
  {
    hide Finish;
    if response.None? {
      Returned(db, BadRequest, ALL_DONE);
    } else {
      Advance(db, LoadInvitation(actor, id, response.value), ALL_DONE);
      if id in db.invitations && db.invitations[id].user == actor.user {
        var inv := db.invitations[id];
        Advance(db, Record(id, inv.container, actor.user, inv.mask, response.value), ALL_DONE);
      }
    }
  }

  /** The three presets, as masks and as the texts of the deprecated column. */
  lemma Presets(level: string, mask: Mask)
    ensures FromPreset(level) == if level == "owner" then 0xFF else if level == "operator" then 0x3F else if level == "viewer" then 0x03 else 0
    ensures ToPresetName(mask) == Some(level) <==> FromPreset(level) == mask && mask != 0
  {
    PresetRoundTrip(level, mask);
  }

  // --- Requests in runs ------------------------------------------------------------------------------

  /** The events of a request served from await to await with nothing in between. */
  ghost function Acts(db: Db, pid: nat, next: Next, replies: nat -> Reply): seq<Event>
    decreases if next.Continue? then 4 - Place(next.p) else 0
  {
    match next
    case Return(_) => []
    case Continue(p) =>
      PlaceRises(db, p, replies(Place(p)));
      var o := Step(db, p, replies(Place(p)));
      [Act(pid, replies(Place(p)))] + Acts(o.db, pid, o.next, replies)
  }

  lemma {:induction false} RunFirst(w: World, e: Event, es: seq<Event>)
    ensures Run(w, [e] + es) == Run(Apply(w, e), es)
  {
    hide Apply;
    var all := [e] + es;
    if es == [] {
      assert all[..0] == [];
    } else {
      RunFirst(w, e, es[..|es| - 1]);
      assert all[..|all| - 1] == [e] + es[..|es| - 1];
    }
  }

  lemma {:induction false} ActsFinish(w: World, pid: nat, next: Next, replies: nat -> Reply)
    requires next.Continue? ==> pid in w.procs && w.procs[pid] == next.p
    requires next.Return? ==> pid !in w.procs
    ensures var after := Run(w, Acts(w.db, pid, next, replies));
            after.db == Finish(w.db, next, replies).db && after.procs == w.procs - {pid} && after.nextPid == w.nextPid
    decreases if next.Continue? then 4 - Place(next.p) else 0
  {
    hide Step;
    match next
    case Return(_) => assert Run(w, []) == w;
    case Continue(p) =>
      PlaceRises(w.db, p, replies(Place(p)));
      var o, e := Step(w.db, p, replies(Place(p))), Act(pid, replies(Place(p)));
      var after := Apply(w, e);
      ActsFinish(after, pid, o.next, replies);
      RunFirst(w, e, Acts(o.db, pid, o.next, replies));
      assert after.procs - {pid} == w.procs - {pid};
  }

  /** Whatever the others stand at, a request can be served in one go, with the outcome it has alone. */
  lemma ServedAlone(w: World, req: Request, replies: nat -> Reply)
    requires w.nextPid !in w.procs
    ensures exists es: seq<Event> :: var after := Run(w, [Begin(req)] + es);
              after.db == Perform(w.db, req, replies).db && after.procs == w.procs
  {
    hide Step;
    var begun, es := Apply(w, Begin(req)), Acts(w.db, w.nextPid, Start(req), replies);
    ActsFinish(begun, w.nextPid, Start(req), replies);
    RunFirst(w, Begin(req), es);
    assert Run(w, [Begin(req)] + es).procs == w.procs;
  }
}

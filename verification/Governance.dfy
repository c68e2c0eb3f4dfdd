/** What every run of chat messages, restarts and sweeps keeps of the identity registry. */
module Governance {
  import opened Options
  import opened Text
  import opened PullRing
  import opened Identities
  import opened ChatCommands
  import opened Administration

  /** A chat message, a sweep of expired pairing requests, or a restart that bootstraps from the configuration again. */
  datatype Step =
    | Say(msg: Message, token: string, now: Time)
    | Sweep(now: Time)
    | Reboot(admins: seq<Contact>, systems: seq<Contact>)

  ghost function After(r: Registry, step: Step): Registry {
    match step
    case Say(msg, token, now) => Inbound(r, msg, token, now)
    case Sweep(now) => PairingSweep(r, now)
    case Reboot(admins, systems) => SeedAll(SeedAll(r, admins, ADMIN), systems, SYSTEM)
  }

  ghost function AfterAll(r: Registry, steps: seq<Step>): Registry {
    if steps == [] then r else After(AfterAll(r, steps[..|steps| - 1]), steps[|steps| - 1])
  }

  const EMPTY_REGISTRY := Registry(map[], 0, map[])

  ghost predicate Tidy(r: Registry) {
    && Unique(r.ids)
    && (forall id :: id in r.ids ==> id < r.nextId && r.ids[id].removed == [])
  }

  ghost predicate Managed(ids: map<Id, Identity>) {
    exists id :: id in ids && ids[id].role == ADMIN && HasCapability(ids[id], MANAGE)
  }

  ghost predicate Governed(r: Registry) {
    Tidy(r) && ActiveAdmins(r.ids) != {}
  }

  /** How one identity may change: never its name, never back from revoked, never into the system role. */
  predicate Ages(i: Identity, j: Identity) {
    && j.surface == i.surface && j.surfaceId == i.surfaceId
    && (i.status == Revoked ==> j.status == Revoked)
    && (j.role == SYSTEM ==> i.role == SYSTEM)
  }

  /** The registry keeps every identity, letting each only age. */
  ghost predicate AgesAll(r: Registry, s: Registry) {
    && (forall id :: id in r.ids ==> id in s.ids && Ages(r.ids[id], s.ids[id]))
    && r.nextId <= s.nextId
  }

  lemma AnotherAdmin(ids: map<Id, Identity>, id: Id)
    requires |ActiveAdmins(ids)| >= 2
    ensures ActiveAdmins(ids) - {id} != {}
  {
    assert |ActiveAdmins(ids) - {id}| >= |ActiveAdmins(ids)| - 1;
  }

  /** Changing one row that is not the last active admin's keeps an active admin. */
  lemma AdminsRemain(ids: map<Id, Identity>, id: Id, i: Identity)
    requires id in ids && ActiveAdmins(ids) != {}
    requires (i.role == ADMIN && i.status == Active) || id !in ActiveAdmins(ids) || |ActiveAdmins(ids)| >= 2
    ensures ActiveAdmins(ids[id := i]) != {}
  {
    if id in ActiveAdmins(ids) && !(i.role == ADMIN && i.status == Active) {
      AnotherAdmin(ids, id);
      var other :| other in ActiveAdmins(ids) - {id};
      assert other in ActiveAdmins(ids[id := i]);
    } else {
      var other :| other in ActiveAdmins(ids);
      assert other in ActiveAdmins(ids[id := i]);
    }
  }

  lemma RowChangeKeeps(r: Registry, id: Id, i: Identity)
    requires Governed(r) && id in r.ids && Ages(r.ids[id], i) && i.removed == []
    requires (i.role == ADMIN && i.status == Active) || id !in ActiveAdmins(r.ids) || |ActiveAdmins(r.ids)| >= 2
    ensures Governed(r.(ids := r.ids[id := i])) && AgesAll(r, r.(ids := r.ids[id := i]))
  {
    AdminsRemain(r.ids, id, i);
  }

  lemma InsertKeeps(r: Registry, i: Identity)
    requires Tidy(r) && i.removed == []
    ensures Tidy(Insert(r, i)) && AgesAll(r, Insert(r, i))
    ensures ActiveAdmins(r.ids) <= ActiveAdmins(Insert(r, i).ids)
  {
  }

  lemma RevokeKeeps(r: Registry, id: Id)
    requires Governed(r)
    ensures Governed(Revoke(r, id)) && AgesAll(r, Revoke(r, id))
  {
    if id in r.ids && RevokeOutcome(r.ids, id) == Done {
      RowChangeKeeps(r, id, r.ids[id].(status := Revoked));
    }
  }

  lemma SetRoleKeeps(r: Registry, id: Id, role: string)
    requires Governed(r) && role != SYSTEM
    ensures Governed(SetRole(r, id, role)) && AgesAll(r, SetRole(r, id, role))
  {
    if id in r.ids && SetRoleOutcome(r.ids, id, role) == Done {
      RowChangeKeeps(r, id, r.ids[id].(role := role));
    }
  }

  lemma GrantKeeps(r: Registry, id: Id, c: Capability)
    requires Governed(r)
    ensures Governed(AddCapability(r, id, c)) && AgesAll(r, AddCapability(r, id, c))
  {
    if id in r.ids {
      RowChangeKeeps(r, id, WithAdded(r.ids[id], c));
    }
  }

  ghost predicate NoNewSystem(r: Registry, s: Registry) {
    forall id :: id in s.ids && s.ids[id].role == SYSTEM ==> id in r.ids && r.ids[id].role == SYSTEM
  }

  ghost predicate Keeps(r: Registry, s: Registry) {
    Governed(s) && AgesAll(r, s) && NoNewSystem(r, s)
  }

  lemma ApproveKeeps(r: Registry, token: string, role: string, now: Time)
    requires Governed(r) && role != SYSTEM
    ensures Keeps(r, Approve(r, token, role, now))
  {
    match PairingByToken(r, token, now)
    case None =>
    case Some(p) => InsertKeeps(r, NewIdentity(p.surface, p.surfaceId, role));
  }

  lemma PerformKeeps(r: Registry, change: Change, msg: Message, token: string, now: Time)
    requires Governed(r) && Covered(r, msg, change)
    ensures Keeps(r, Perform(r, change, msg, token, now))
  {
    match change
    case ApprovePairing(t, role) => ApproveKeeps(r, t, role, now);
    case RevokeOf(id) => RevokeKeeps(r, id);
    case GrantTo(id, capability) => GrantKeeps(r, id, capability);
    case RoleOf(id, role) => SetRoleKeeps(r, id, role);
    case _ =>
  }

  lemma InboundKeeps(r: Registry, msg: Message, token: string, now: Time)
    requires Governed(r)
    ensures Keeps(r, Inbound(r, msg, token, now))
  {
    AskedIsCovered(r, msg);
    PerformKeeps(r, Asked(r, msg), msg, token, now);
  }

  lemma {:induction false} SeedKeeps(r: Registry, contacts: seq<Contact>, role: string)
    requires Tidy(r)
    ensures Tidy(SeedAll(r, contacts, role)) && AgesAll(r, SeedAll(r, contacts, role))
    ensures ActiveAdmins(r.ids) <= ActiveAdmins(SeedAll(r, contacts, role).ids)
    decreases |contacts|
  {
    if contacts != [] {
      var c := contacts[|contacts| - 1];
      SeedKeeps(r, contacts[..|contacts| - 1], role);
      InsertKeeps(SeedAll(r, contacts[..|contacts| - 1], role), NewIdentity(c.surface, c.surfaceId, role));
    }
  }

  lemma StepKeeps(r: Registry, step: Step)
    requires Governed(r)
    ensures Governed(After(r, step)) && AgesAll(r, After(r, step))
  {
    match step
    case Say(msg, token, now) => InboundKeeps(r, msg, token, now);
    case Sweep(now) =>
    case Reboot(admins, systems) =>
      SeedKeeps(r, admins, ADMIN);
      SeedKeeps(SeedAll(r, admins, ADMIN), systems, SYSTEM);
  }

  lemma {:induction false} FirstAdminSeeded(r: Registry, admins: seq<Contact>)
    requires Tidy(r) && r.ids == map[] && admins != []
    ensures ActiveAdmins(SeedAll(r, admins, ADMIN).ids) != {}
    decreases |admins|
  {
    var first, c := admins[..|admins| - 1], admins[|admins| - 1];
    SeedKeeps(r, first, ADMIN);
    if first == [] {
      assert r.nextId in ActiveAdmins(Insert(r, NewIdentity(c.surface, c.surfaceId, ADMIN)).ids);
    } else {
      FirstAdminSeeded(r, first);
      InsertKeeps(SeedAll(r, first, ADMIN), NewIdentity(c.surface, c.surfaceId, ADMIN));
    }
  }

  /** A first bootstrap with at least one admin in the configuration starts a governed registry. */
  lemma BootstrapGoverns(admins: seq<Contact>, systems: seq<Contact>)
    requires admins != []
    ensures Governed(After(EMPTY_REGISTRY, Reboot(admins, systems)))
  {
    SeedKeeps(EMPTY_REGISTRY, admins, ADMIN);
    FirstAdminSeeded(EMPTY_REGISTRY, admins);
    SeedKeeps(SeedAll(EMPTY_REGISTRY, admins, ADMIN), systems, SYSTEM);
  }

  lemma GovernedIsManaged(r: Registry)
    requires Governed(r)
    ensures Managed(r.ids)
  {
    var id :| id in ActiveAdmins(r.ids);
    assert HasCapability(r.ids[id], MANAGE);
  }

  /**
   No lockout: from a first bootstrap with an admin, whatever is said in chat, swept or restarted, some active admin has
   identity.manage, a contact has at most one identity, and identities only age: revoked ones stay revoked.
   */
  lemma {:induction false} NeverLockedOut(admins: seq<Contact>, systems: seq<Contact>, steps: seq<Step>)
    requires admins != []
    ensures var r := After(EMPTY_REGISTRY, Reboot(admins, systems));
            var s := AfterAll(r, steps);
            Governed(s) && Managed(s.ids) && Unique(s.ids) && AgesAll(r, s)
    decreases |steps|
  {
    var r := After(EMPTY_REGISTRY, Reboot(admins, systems));
    BootstrapGoverns(admins, systems);
    AgeingRuns(r, steps);
    GovernedIsManaged(AfterAll(r, steps));
  }

  lemma {:induction false} AgeingRuns(r: Registry, steps: seq<Step>)
    requires Governed(r)
    ensures Governed(AfterAll(r, steps)) && AgesAll(r, AfterAll(r, steps))
    decreases |steps|
  {
    if steps != [] {
      var first := steps[..|steps| - 1];
      AgeingRuns(r, first);
      StepKeeps(AfterAll(r, first), steps[|steps| - 1]);
      AgesTransitive(r, AfterAll(r, first), AfterAll(r, steps));
    }
  }

  lemma AgesTransitive(r: Registry, s: Registry, t: Registry)
    requires AgesAll(r, s) && AgesAll(s, t)
    ensures AgesAll(r, t)
  {
  }

  predicate ChatOnly(steps: seq<Step>) {
    forall step :: step in steps ==> step.Say?
  }

  /** Chat never makes a system identity. */
  lemma {:induction false} ChatMakesNoSystemIdentity(r: Registry, steps: seq<Step>)
    requires Governed(r) && ChatOnly(steps)
    ensures Governed(AfterAll(r, steps)) && NoNewSystem(r, AfterAll(r, steps))
    decreases |steps|
  {
    if steps != [] {
      var first, last := steps[..|steps| - 1], steps[|steps| - 1];
      ChatMakesNoSystemIdentity(r, first);
      assert last.Say?;
      InboundKeeps(AfterAll(r, first), last.msg, last.token, last.now);
    }
  }

  lemma RevokedStays(r: Registry, steps: seq<Step>, id: Id)
    requires Governed(r) && id in r.ids && r.ids[id].status == Revoked
    ensures var s := AfterAll(r, steps);
            && Governed(s) && id in s.ids && s.ids[id].status == Revoked
            && Lookup(s.ids, r.ids[id].surface, r.ids[id].surfaceId) == Some(id)
  {
    AgeingRuns(r, steps);
    var s := AfterAll(r, steps);
    assert Ages(r.ids[id], s.ids[id]);
    assert At(s.ids[id], r.ids[id].surface, r.ids[id].surfaceId);
  }

  lemma PowerlessChangesNothing(s: Registry, msg: Message, token: string, now: Time)
    requires Sender(s, msg).Some? ==> Sender(s, msg).value.status != Active
    ensures Inbound(s, msg, token, now).ids == s.ids
    ensures !ActionOf(s, msg).StatusReply? && !ActionOf(s, msg).Commissioned?
  {
    InactiveIsPowerless(s, msg);
  }

  /** A contact whose identity was revoked never has an active one again, and its messages never change an identity. */
  lemma RevokedForGood(r: Registry, steps: seq<Step>, id: Id, msg: Message, token: string, now: Time)
    requires Governed(r) && id in r.ids && r.ids[id].status == Revoked
    requires msg.surface == r.ids[id].surface && msg.user == r.ids[id].surfaceId
    ensures var s := AfterAll(r, steps);
            && Unique(s.ids) && Sender(s, msg).Some? && Sender(s, msg).value.status == Revoked
            && Inbound(s, msg, token, now).ids == s.ids
            && !ActionOf(s, msg).StatusReply? && !ActionOf(s, msg).Commissioned?
  {
    RevokedStays(r, steps, id);
    PowerlessChangesNothing(AfterAll(r, steps), msg, token, now);
  }

  lemma PerformTouches(r: Registry, change: Change, msg: Message, token: string, now: Time, id: Id)
    requires Tidy(r) && Covered(r, msg, change)
    ensures var s := Perform(r, change, msg, token, now);
            && (id in r.ids ==> id in s.ids && (s.ids[id] != r.ids[id] ==> Entitled(r, msg, MANAGE)))
            && (id !in r.ids && id in s.ids ==> Entitled(r, msg, APPROVE_PAIRING) && s.ids[id].role != SYSTEM)
  {
  }

  /**
   A message changes an existing identity only if its sender may manage, and adds one only if its sender may approve.
   */
  lemma OnlyTheEntitledChangeIdentities(r: Registry, msg: Message, token: string, now: Time, id: Id)
    requires Tidy(r)
    ensures var s := Inbound(r, msg, token, now);
            && (id in r.ids ==> id in s.ids && (s.ids[id] != r.ids[id] ==> Entitled(r, msg, MANAGE)))
            && (id !in r.ids && id in s.ids ==> Entitled(r, msg, APPROVE_PAIRING) && s.ids[id].role != SYSTEM)
  {
    AskedIsCovered(r, msg);
    PerformTouches(r, Asked(r, msg), msg, token, now, id);
  }

  // ---- Two gaps ----

  /** RemoveCapability has no last-admin check: it leaves a manager exactly if there is another one already. */
  lemma RemovalMayLockOut(r: Registry, id: Id)
    requires Governed(r) && id in r.ids
    ensures var s := RemoveCapability(r, id, MANAGE);
            (exists k :: k in s.ids && HasCapability(s.ids[k], MANAGE)) <==>
            (exists k :: k != id && k in r.ids && HasCapability(r.ids[k], MANAGE))
  {
    var s := RemoveCapability(r, id, MANAGE);
    WithoutIsFilter(r.ids[id].added, MANAGE);
    assert !HasCapability(s.ids[id], MANAGE);
    forall k | k in r.ids && k != id ensures HasCapability(s.ids[k], MANAGE) <==> HasCapability(r.ids[k], MANAGE) {
      assert s.ids[k] == r.ids[k];
    }
  }

  /** A message with a pairing token not in use, or a sweep, at or after an instant; or a restart. */
  predicate Onward(r: Registry, step: Step, from: Time) {
    match step
    case Say(_, token, now) => from <= now && token !in r.pairings
    case Sweep(now) => from <= now
    case Reboot(_, _) => true
  }

  ghost predicate OnwardAll(r: Registry, steps: seq<Step>, from: Time)
    decreases |steps|
  {
    steps == [] ||
    (OnwardAll(r, steps[..|steps| - 1], from) && Onward(AfterAll(r, steps[..|steps| - 1]), steps[|steps| - 1], from))
  }

  predicate NoSweep(steps: seq<Step>) {
    forall i :: 0 <= i < |steps| ==> !steps[i].Sweep?
  }

  ghost predicate StuckPairing(r: Registry, token: string, c: Contact, now: Time) {
    && token in r.pairings && Expired(r.pairings[token], now)
    && r.pairings[token].surface == c.surface && r.pairings[token].surfaceId == c.surfaceId
    && (forall t :: t in r.pairings && t != token ==>
        !(r.pairings[t].surface == c.surface && r.pairings[t].surfaceId == c.surfaceId))
    && !Taken(r.ids, c.surface, c.surfaceId)
  }

  lemma StuckStaysStuck(r: Registry, change: Change, msg: Message, minted: string, now: Time, token: string, c: Contact,
          from: Time)
    requires StuckPairing(r, token, c, from) && from <= now && minted !in r.pairings && Governed(r)
    ensures StuckPairing(Perform(r, change, msg, minted, now), token, c, from)
  {
  }

  /** The token is gone, or it stands for a newer request. */
  predicate Freed(r: Registry, token: string, from: Time) {
    token in r.pairings ==> !Expired(r.pairings[token], from)
  }

  lemma SweepFreesToken(r: Registry, token: string, from: Time, now: Time)
    requires from <= now
    ensures Freed(PairingSweep(r, now), token, from)
  {
  }

  lemma SweepFrees(r: Registry, token: string, c: Contact, from: Time, now: Time)
    requires StuckPairing(r, token, c, from) && from <= now
    ensures Freed(PairingSweep(r, now), token, from)
    ensures !Requested(PairingSweep(r, now).pairings, c.surface, c.surfaceId)
  {
  }

  lemma FreedStaysFreed(r: Registry, step: Step, token: string, from: Time)
    requires Freed(r, token, from) && Onward(r, step, from)
    ensures Freed(After(r, step), token, from)
  {
    match step
    case Say(msg, minted, now) => FreedThroughChange(r, Asked(r, msg), msg, minted, now, token, from);
    case Sweep(now) =>
    case Reboot(admins, systems) =>
      SeedKeepsPairings(r, admins, ADMIN);
      SeedKeepsPairings(SeedAll(r, admins, ADMIN), systems, SYSTEM);
  }

  lemma {:induction false} SeedKeepsPairings(r: Registry, contacts: seq<Contact>, role: string)
    ensures SeedAll(r, contacts, role).pairings == r.pairings
    decreases |contacts|
  {
    if contacts != [] {
      SeedKeepsPairings(r, contacts[..|contacts| - 1], role);
    }
  }

  /** A bootstrap gives an identity to exactly the contacts it names and those that have one. */
  lemma {:induction false} SeedTakes(r: Registry, contacts: seq<Contact>, role: string, c: Contact)
    requires Tidy(r)
    ensures Taken(SeedAll(r, contacts, role).ids, c.surface, c.surfaceId) <==>
            Taken(r.ids, c.surface, c.surfaceId) || c in contacts
    decreases |contacts|
  {
    if contacts != [] {
      var first, last := contacts[..|contacts| - 1], contacts[|contacts| - 1];
      SeedKeeps(r, first, role);
      SeedTakes(r, first, role, c);
      InsertTakes(SeedAll(r, first, role), NewIdentity(last.surface, last.surfaceId, role), c);
      assert contacts == first + [last];
    }
  }

  lemma InsertTakes(r: Registry, i: Identity, c: Contact)
    requires Tidy(r)
    ensures Taken(Insert(r, i).ids, c.surface, c.surfaceId) <==>
            Taken(r.ids, c.surface, c.surfaceId) || At(i, c.surface, c.surfaceId)
  {
    var s := Insert(r, i);
    if At(i, c.surface, c.surfaceId) && !Taken(r.ids, i.surface, i.surfaceId) {
      assert r.nextId in s.ids && At(s.ids[r.nextId], c.surface, c.surfaceId);
    }
    if Taken(r.ids, c.surface, c.surfaceId) {
      var id :| id in r.ids && At(r.ids[id], c.surface, c.surfaceId);
      assert id in s.ids && At(s.ids[id], c.surface, c.surfaceId);
    }
  }

  /** A restart whose configuration names the contact. */
  predicate Registers(step: Step, c: Contact) {
    step.Reboot? && (c in step.admins || c in step.systems)
  }

  predicate NoneRegisters(steps: seq<Step>, c: Contact) {
    forall i :: 0 <= i < |steps| ==> !Registers(steps[i], c)
  }

  lemma RebootRegisters(r: Registry, admins: seq<Contact>, systems: seq<Contact>, token: string, c: Contact, from: Time)
    requires Governed(r) && StuckPairing(r, token, c, from)
    ensures var s := After(r, Reboot(admins, systems));
            if Registers(Reboot(admins, systems), c) then Taken(s.ids, c.surface, c.surfaceId)
            else StuckPairing(s, token, c, from)
  {
    SeedKeeps(r, admins, ADMIN);
    SeedTakes(r, admins, ADMIN, c);
    SeedTakes(SeedAll(r, admins, ADMIN), systems, SYSTEM, c);
    SeedKeepsPairings(r, admins, ADMIN);
    SeedKeepsPairings(SeedAll(r, admins, ADMIN), systems, SYSTEM);
  }

  lemma TakenStays(r: Registry, s: Registry, c: Contact)
    requires AgesAll(r, s) && Taken(r.ids, c.surface, c.surfaceId)
    ensures Taken(s.ids, c.surface, c.surfaceId)
  {
    var id :| id in r.ids && At(r.ids[id], c.surface, c.surfaceId);
    assert At(s.ids[id], c.surface, c.surfaceId);
  }

  /** The contact has an identity, or the expired request is gone. */
  predicate Unstuck(r: Registry, token: string, c: Contact, from: Time) {
    Taken(r.ids, c.surface, c.surfaceId) || Freed(r, token, from)
  }

  lemma FreedThroughChange(r: Registry, change: Change, msg: Message, minted: string, now: Time, token: string,
          from: Time)
    requires Freed(r, token, from) && from <= now && minted !in r.pairings
    ensures Freed(Perform(r, change, msg, minted, now), token, from)
  {
  }

  lemma UnstuckIsNotStuck(r: Registry, token: string, c: Contact, from: Time)
    requires Unstuck(r, token, c, from)
    ensures !StuckPairing(r, token, c, from)
  {
  }

  lemma OneMoreStep(s: Registry, last: Step, from: Time, token: string, c: Contact)
    requires Governed(s) && StuckPairing(s, token, c, from) && Onward(s, last, from)
    ensures if last.Sweep? || Registers(last, c) then Unstuck(After(s, last), token, c, from)
            else StuckPairing(After(s, last), token, c, from)
  {
    hide Governed, StuckPairing, Freed, Perform, Asked, PairingSweep, SeedAll;
    match last
    case Say(msg, minted, now) => StuckStaysStuck(s, Asked(s, msg), msg, minted, now, token, c, from);
    case Sweep(now) => SweepFreesToken(s, token, from, now);
    case Reboot(admins, systems) => RebootRegisters(s, admins, systems, token, c, from);
  }

  lemma UnstuckStays(s: Registry, last: Step, from: Time, token: string, c: Contact)
    requires Governed(s) && Unstuck(s, token, c, from) && Onward(s, last, from)
    ensures Unstuck(After(s, last), token, c, from)
  {
    hide Governed, Freed, Taken, After, AgesAll, Onward;
    if Freed(s, token, from) {
      FreedStaysFreed(s, last, token, from);
    } else {
      StepKeeps(s, last);
      TakenStays(s, After(s, last), c);
    }
  }

  lemma NoStep(steps: seq<Step>, c: Contact)
    requires steps == []
    ensures NoSweep(steps) && NoneRegisters(steps, c)
  {
  }

  lemma OneStepMore(steps: seq<Step>, c: Contact)
    requires steps != []
    ensures NoSweep(steps) <==> NoSweep(steps[..|steps| - 1]) && !steps[|steps| - 1].Sweep?
    ensures NoneRegisters(steps, c) <==>
            NoneRegisters(steps[..|steps| - 1], c) && !Registers(steps[|steps| - 1], c)
  {
  }

  lemma {:induction false} FreedAfterSweep(r: Registry, steps: seq<Step>, from: Time, token: string, c: Contact)
    requires OnwardAll(r, steps, from) && !NoSweep(steps)
    ensures Freed(AfterAll(r, steps), token, from)
    decreases |steps|
  {
    hide NoSweep, Freed, Onward;
    if steps == [] {
      NoStep(steps, c);
    } else {
      var first, last := steps[..|steps| - 1], steps[|steps| - 1];
      OneStepMore(steps, c);
      if !NoSweep(first) {
        FreedAfterSweep(r, first, from, token, c);
        FreedStaysFreed(AfterAll(r, first), last, token, from);
      } else {
        SweepIsOnward(AfterAll(r, first), last, from);
        SweepFreesToken(AfterAll(r, first), token, from, last.now);
      }
    }
  }

  lemma SweepIsOnward(r: Registry, step: Step, from: Time)
    requires Onward(r, step, from) && step.Sweep?
    ensures from <= step.now
  {
  }

  /** A stuck request stays stuck up to the first sweep, or restart that names its contact, and never comes back. */
  lemma {:induction false} StuckOrNot(r: Registry, steps: seq<Step>, from: Time, token: string, c: Contact)
    requires Governed(r) && StuckPairing(r, token, c, from) && OnwardAll(r, steps, from)
    ensures Governed(AfterAll(r, steps))
    ensures if NoSweep(steps) && NoneRegisters(steps, c) then StuckPairing(AfterAll(r, steps), token, c, from)
            else Unstuck(AfterAll(r, steps), token, c, from)
    decreases |steps|
  {
    hide NoSweep, NoneRegisters, Registers, Governed, StuckPairing, Unstuck, After, Onward, AgesAll;
    if steps == [] {
      NoStep(steps, c);
    } else {
      var first, last := steps[..|steps| - 1], steps[|steps| - 1];
      var s := AfterAll(r, first);
      StuckOrNot(r, first, from, token, c);
      StepKeeps(s, last);
      OneStepMore(steps, c);
      if NoSweep(first) && NoneRegisters(first, c) {
        OneMoreStep(s, last, from, token, c);
      } else {
        UnstuckStays(s, last, from, token, c);
      }
    }
  }

  /**
   An expired pairing request blocks its contact exactly until a sweep, or a restart whose configuration names the
   contact: after any messages, sweeps and restarts the contact is still unregistered behind the expired request if and
   only if there was neither. No message causes a sweep.
   */
  lemma ExpiredRequestLocksOut(r: Registry, steps: seq<Step>, from: Time, token: string, c: Contact)
    requires Governed(r) && StuckPairing(r, token, c, from) && OnwardAll(r, steps, from)
    ensures Governed(AfterAll(r, steps))
    ensures StuckPairing(AfterAll(r, steps), token, c, from) <==> NoSweep(steps) && NoneRegisters(steps, c)
    ensures !NoSweep(steps) ==> Freed(AfterAll(r, steps), token, from)
  {
    hide *;
    StuckOrNot(r, steps, from, token, c);
    if !(NoSweep(steps) && NoneRegisters(steps, c)) {
      UnstuckIsNotStuck(AfterAll(r, steps), token, c, from);
    }
    if !NoSweep(steps) {
      FreedAfterSweep(r, steps, from, token, c);
    }
  }

  /** The registry of one admin, and a contact that has asked to be paired. */
  ghost function Asking(): Registry {
    After(After(EMPTY_REGISTRY, Reboot([Contact("discord", "1")], [])),
        Say(Message("discord", "t", "2", "/pair"), "token", 0))
  }

  lemma PairIsRead(msg: Message)
    requires msg.content == "/pair"
    ensures IsCommand(msg.content, "/pair")
  {
    TrimmedStays("/pair");
  }

  lemma OneAdmin()
    ensures After(EMPTY_REGISTRY, Reboot([Contact("discord", "1")], [])) ==
            Registry(map[0 := NewIdentity("discord", "1", ADMIN)], 1, map[])
  {
    var admins := [Contact("discord", "1")];
    assert admins[..0] == [];
    assert SeedAll(EMPTY_REGISTRY, [], ADMIN) == EMPTY_REGISTRY;
    assert SeedAll(EMPTY_REGISTRY, admins, ADMIN) == Insert(EMPTY_REGISTRY, NewIdentity("discord", "1", ADMIN));
  }

  /** From a first bootstrap: a contact asks, nobody approves within a day, and it is stuck. */
  lemma StuckPairingIsReached()
    ensures Governed(Asking()) && StuckPairing(Asking(), "token", Contact("discord", "2"), PAIRING_TTL + 1)
  {
    var r := After(EMPTY_REGISTRY, Reboot([Contact("discord", "1")], []));
    var msg := Message("discord", "t", "2", "/pair");
    BootstrapGoverns([Contact("discord", "1")], []);
    InboundKeeps(r, msg, "token", 0);
    OneAdmin();
    PairIsRead(msg);
    assert Asked(r, msg) == RequestPairing by {
      assert !Taken(r.ids, "discord", "2");
    }
    assert Asking() == r.(pairings := map["token" := Pairing("discord", "2", PAIRING_TTL)]);
  }
}

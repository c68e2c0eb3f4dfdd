/**
 Administration of the identity registry by chat as the source writes it (minos/core/pairing.go, minos/core/intake.go),
 and its initial state (minos/core/bootstrap.go).
 */
module Administration {
  import opened Options
  import opened PullRing
  import opened Identities
  import opened ChatCommands
  import opened ChatLaws
  import Parser = CommissionParser

  class Chat {
    const store: Store

    constructor (store: Store)
      ensures this.store == store
    {
      this.store := store;
    }

    method HandleInbound(msg: Message, token: string, now: Time) returns (action: Action)
      requires Unique(store.ids)
      modifies store
      ensures store.View() == Inbound(old(store.View()), msg, token, now)
      ensures action == ActionOf(old(store.View()), msg)
      ensures Lawful(old(store.View()), store.View(), msg, token, now, action)
    {
      InboundLawful(store.View(), msg, token, now);
      hide IsCommand, AsksStatus, CommandAsked, PairAsked, Parsed, Lawful;
      if IsCommand(msg.content, "/pair") {
        HandlePair(msg, token, now);
        return NoAction;
      }
      var found := store.LookupBySurface(msg.surface, msg.user);
      if found == None {
        return NoAction;
      }
      var caller := store.ids[found.value];
      if IsCommand(msg.content, "/minos") {
        HandleMinosCommand(msg, caller, token, now);
        return NoAction;
      }
      if AsksStatus(msg.content) {
        if !HasCapability(caller, QUERY_STATE) {
          return CapabilityRefused(QUERY_STATE);
        }
        return StatusReply;
      }
      var parsed := ParseMessage(msg.content);
      if parsed == Parser.NotACommand {
        return NoAction;
      }
      if !parsed.Ok? {
        return Complaint;
      }
      if !HasCapability(caller, COMMISSION_CODE) {
        return CapabilityRefused(COMMISSION_CODE);
      }
      return Commissioned(parsed.request);
    }

    method ParseMessage(content: string) returns (p: Parser.Parsed)
      ensures p == Parsed(content)
    {
      p := Parser.ParseCommissionCommand(content);
    }

    method HandlePair(msg: Message, token: string, now: Time)
      requires Unique(store.ids)
      modifies store
      ensures store.View() == Perform(old(store.View()), PairAsked(old(store.View()), msg), msg, token, now)
    {
      var existing := store.LookupBySurface(msg.surface, msg.user);
      if existing.Some? && store.ids[existing.value].status == Active {
        return;
      }
      var o := store.CreatePairing(token, Pairing(msg.surface, msg.user, now + PAIRING_TTL));
    }

    method HandleMinosCommand(msg: Message, caller: Identity, token: string, now: Time)
      requires Unique(store.ids)
      modifies store
      ensures store.View() == Perform(old(store.View()), CommandAsked(old(store.View()), msg, caller), msg, token, now)
    {
      hide SubcommandOf, Words, ApproveAsked, RevokeAsked, GrantAsked, RoleAsked;
      var parts := Words(msg.content);
      if |parts| == 0 {
        return;
      }
      match SubcommandOf(parts[0])
      case ToApprove =>
        if HasCapability(caller, APPROVE_PAIRING) {
          HandleApprove(parts[1..], msg, token, now);
        }
      case ToRevoke =>
        if HasCapability(caller, MANAGE) {
          HandleRevoke(parts[1..], msg, token, now);
        }
      case ToGrant =>
        if HasCapability(caller, MANAGE) {
          HandleGrant(parts[1..], msg, token, now);
        }
      case ToChangeRole =>
        if HasCapability(caller, MANAGE) {
          HandleRoleChange(parts[1..], msg, token, now);
        }
      case Unknown =>
    }

    method HandleApprove(args: seq<string>, ghost msg: Message, ghost token: string, now: Time)
      modifies store
      ensures store.View() == Perform(old(store.View()), ApproveAsked(args), msg, token, now)
      ensures |args| < 1 ==> store.View() == old(store.View())
      ensures |args| >= 1 && InOrder(old(store.View())) ==>
                var role := if |args| == 1 then COMMISSIONER else args[1];
                if Assignable(role) && Approvable(old(store.View()), args[0], now)
                then Admitted(old(store.View()), store.View(), args[0], role)
                else store.View() == old(store.View())
    {
      if |args| >= 1 && InOrder(store.View()) {
        ApproveNames(args);
        ApproveAdmits(store.View(), args[0], if |args| == 1 then COMMISSIONER else args[1], now);
      }
      if |args| < 1 {
        return;
      }
      var role := COMMISSIONER;
      if |args| >= 2 {
        if args[1] == SYSTEM || !ValidRole(args[1]) {
          return;
        }
        role := args[1];
      }
      var p := store.FindPairing(args[0], now);
      if p == None {
        return;
      }
      var o := store.InsertIdentity(NewIdentity(p.value.surface, p.value.surfaceId, role));
      if o != Done {
        return;
      }
      store.DeletePairing(args[0]);
    }

    method HandleRevoke(args: seq<string>, msg: Message, ghost token: string, ghost now: Time)
      requires Unique(store.ids)
      modifies store
      ensures store.View() ==
              Perform(old(store.View()), RevokeAsked(old(store.View()), msg.surface, args), msg, token, now)
    {
      if |args| < 1 {
        return;
      }
      var target := store.LookupBySurface(msg.surface, args[0]);
      if target == None {
        return;
      }
      var o := store.RevokeIdentity(target.value);
    }

    method HandleGrant(args: seq<string>, msg: Message, ghost token: string, ghost now: Time)
      requires Unique(store.ids)
      modifies store
      ensures store.View() ==
              Perform(old(store.View()), GrantAsked(old(store.View()), msg.surface, args), msg, token, now)
    {
      if |args| < 2 {
        return;
      }
      var target := store.LookupBySurface(msg.surface, args[0]);
      if target == None {
        return;
      }
      var o := store.GrantCapability(target.value, args[1]);
    }

    method HandleRoleChange(args: seq<string>, msg: Message, ghost token: string, ghost now: Time)
      requires Unique(store.ids)
      modifies store
      ensures store.View() ==
              Perform(old(store.View()), RoleAsked(old(store.View()), msg.surface, args), msg, token, now)
    {
      if |args| < 2 {
        return;
      }
      var target := store.LookupBySurface(msg.surface, args[0]);
      if target == None || args[1] == SYSTEM {
        return;
      }
      var o := store.ChangeRole(target.value, args[1]);
    }

    /** bootstrapIdentities: admins first, then system identities; what is registered already is left alone. */
    method Bootstrap(admins: seq<Contact>, systems: seq<Contact>) returns (ok: bool)
      requires Unique(store.ids)
      modifies store
      ensures ok <==> forall c :: c in admins + systems ==> Named(c)
      ensures ok ==> store.View() == SeedAll(SeedAll(old(store.View()), admins, ADMIN), systems, SYSTEM)
      ensures ok && InOrder(old(store.View())) ==> Seeded(old(store.View()), store.View(), admins, systems)
      ensures Unique(store.ids)
    {
      if InOrder(store.View()) {
        BootstrapSeeds(store.View(), admins, systems);
      }
      ok := SeedRole(admins, ADMIN);
      if ok {
        ok := SeedRole(systems, SYSTEM);
      }
    }

    method SeedRole(contacts: seq<Contact>, role: string) returns (ok: bool)
      requires Unique(store.ids)
      modifies store
      ensures ok <==> forall c :: c in contacts ==> Named(c)
      ensures ok ==> store.View() == SeedAll(old(store.View()), contacts, role)
      ensures Unique(store.ids)
    {
      var i := 0;
      while i < |contacts|
        invariant 0 <= i <= |contacts| && Unique(store.ids)
        invariant forall c :: c in contacts[..i] ==> Named(c)
        invariant store.View() == SeedAll(old(store.View()), contacts[..i], role)
      {
        var c := contacts[i];
        if c.surface == "" || c.surfaceId == "" {
          assert c in contacts;
          return false;
        }
        assert contacts[..i + 1][..i] == contacts[..i];
        var found := store.LookupBySurface(c.surface, c.surfaceId);
        if found == None {
          var o := store.InsertIdentity(NewIdentity(c.surface, c.surfaceId, role));
        }
        i := i + 1;
      }
      assert contacts[..i] == contacts;
      ok := true;
    }
  }

  // ---- Bootstrap ----

  datatype Contact = Contact(surface: string, surfaceId: string)

  predicate Named(c: Contact) {
    c.surface != "" && c.surfaceId != ""
  }

  /**
   What was registered is left alone; a contact named and not registered before is active now, as an admin if the
   configuration names it an admin and as a system identity otherwise; nobody else is registered.
   */
  ghost predicate Seeded(r: Registry, s: Registry, admins: seq<Contact>, systems: seq<Contact>) {
    && s.pairings == r.pairings
    && (forall id :: id in r.ids ==> id in s.ids && s.ids[id] == r.ids[id])
    && (forall c :: c in admins || c in systems ==> Taken(s.ids, c.surface, c.surfaceId))
    && (forall id :: id in s.ids && id !in r.ids ==>
          var c := Contact(s.ids[id].surface, s.ids[id].surfaceId);
          && (c in admins || c in systems)
          && s.ids[id] == Identity(c.surface, c.surfaceId, if c in admins then ADMIN else SYSTEM, Active, [], []))
  }

  /** What seeding one role does. */
  ghost predicate SeededRole(r: Registry, s: Registry, contacts: seq<Contact>, role: string) {
    && InOrder(s) && s.pairings == r.pairings
    && (forall id :: id in r.ids ==> id in s.ids && s.ids[id] == r.ids[id])
    && (forall c :: c in contacts ==> Taken(s.ids, c.surface, c.surfaceId))
    && (forall id :: id in s.ids && id !in r.ids ==>
          var c := Contact(s.ids[id].surface, s.ids[id].surfaceId);
          && c in contacts && !Taken(r.ids, c.surface, c.surfaceId)
          && s.ids[id] == Identity(c.surface, c.surfaceId, role, Active, [], []))
  }

  lemma TakenKept(r: Registry, s: Registry, surface: string, surfaceId: string)
    requires Taken(r.ids, surface, surfaceId)
    requires forall id :: id in r.ids ==> id in s.ids && s.ids[id] == r.ids[id]
    ensures Taken(s.ids, surface, surfaceId)
  {
    var id :| id in r.ids && At(r.ids[id], surface, surfaceId);
    assert At(s.ids[id], surface, surfaceId);
  }

  lemma InsertSeeds(r: Registry, c: Contact, role: string)
    requires InOrder(r)
    ensures SeededRole(r, Insert(r, NewIdentity(c.surface, c.surfaceId, role)), [c], role)
  {
    var s := Insert(r, NewIdentity(c.surface, c.surfaceId, role));
    if !Taken(r.ids, c.surface, c.surfaceId) {
      assert r.nextId in s.ids && At(s.ids[r.nextId], c.surface, c.surfaceId);
    }
  }

  lemma SeededOneMore(r: Registry, m: Registry, s: Registry, first: seq<Contact>, c: Contact, role: string)
    requires SeededRole(r, m, first, role) && SeededRole(m, s, [c], role)
    ensures SeededRole(r, s, first + [c], role)
  {
    forall d | d in first + [c] ensures Taken(s.ids, d.surface, d.surfaceId) {
      if d in first {
        TakenKept(m, s, d.surface, d.surfaceId);
      } else {
        assert d in [c];
      }
    }
    forall id | id in s.ids && id !in r.ids ensures !Taken(r.ids, s.ids[id].surface, s.ids[id].surfaceId) {
      if Taken(r.ids, s.ids[id].surface, s.ids[id].surfaceId) {
        TakenKept(r, m, s.ids[id].surface, s.ids[id].surfaceId);
      }
    }
  }

  lemma {:induction false} SeedSeeds(r: Registry, contacts: seq<Contact>, role: string)
    requires InOrder(r)
    ensures SeededRole(r, SeedAll(r, contacts, role), contacts, role)
    decreases |contacts|
  {
    hide SeededRole, Insert, InOrder;
    if contacts == [] {
      NothingSeeded(r, role);
    } else {
      var first, c := contacts[..|contacts| - 1], contacts[|contacts| - 1];
      var m := SeedAll(r, first, role);
      SeedSeeds(r, first, role);
      SeededIsNumbered(r, m, first, role);
      InsertSeeds(m, c, role);
      SeededOneMore(r, m, SeedAll(r, contacts, role), first, c, role);
      assert contacts == first + [c];
    }
  }

  lemma NothingSeeded(r: Registry, role: string)
    requires InOrder(r)
    ensures SeededRole(r, r, [], role)
  {
  }

  lemma SeededIsNumbered(r: Registry, s: Registry, contacts: seq<Contact>, role: string)
    requires SeededRole(r, s, contacts, role)
    ensures InOrder(s)
  {
  }

  lemma {:induction false} BootstrapSeeds(r: Registry, admins: seq<Contact>, systems: seq<Contact>)
    requires InOrder(r)
    ensures Seeded(r, SeedAll(SeedAll(r, admins, ADMIN), systems, SYSTEM), admins, systems)
  {
    var m := SeedAll(r, admins, ADMIN);
    var s := SeedAll(m, systems, SYSTEM);
    SeedSeeds(r, admins, ADMIN);
    SeedSeeds(m, systems, SYSTEM);
    hide SeedAll, Taken;
    forall c | c in admins || c in systems ensures Taken(s.ids, c.surface, c.surfaceId) {
      if c in admins {
        TakenKept(m, s, c.surface, c.surfaceId);
      }
    }
  }

  function SeedAll(r: Registry, contacts: seq<Contact>, role: string): Registry {
    if contacts == [] then r
    else
      var c := contacts[|contacts| - 1];
      Insert(SeedAll(r, contacts[..|contacts| - 1], role), NewIdentity(c.surface, c.surfaceId, role))
  }
}

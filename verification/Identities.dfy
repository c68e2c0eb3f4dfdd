/**
 The identity registry: roles and capabilities (pkg/identity) and the in-memory store (minos/identity/memstore). Rows
 are kept as values, since every accessor of the store hands out and takes in clones.
 */
module Identities {
  import opened Options
  import Tasks

  type Time = Tasks.Time
  type Id = nat
  type Capability = string

  const COMMISSION_CODE: Capability := "task.commission.code"
  const DIRECT: Capability := "task.direct"
  const QUERY_STATE: Capability := "task.query_state"
  const APPROVE_PAIRING: Capability := "identity.approve_pairing"
  const MANAGE: Capability := "identity.manage"

  const ADMIN := "admin"
  const COMMISSIONER := "commissioner"
  const OBSERVER := "observer"
  const SYSTEM := "system"

  datatype Status = Active | Revoked | Pending

  datatype Identity = Identity(
    surface: string, surfaceId: string, role: string, status: Status, added: seq<Capability>, removed: seq<Capability>)

  datatype Pairing = Pairing(surface: string, surfaceId: string, expiresAt: Time)

  /** Ids are minted in order: every id in use is below nextId. */
  datatype Registry = Registry(ids: map<Id, Identity>, nextId: Id, pairings: map<string, Pairing>)

  datatype Outcome = Done | NotFound | AlreadyExists | InvalidRole | LastAdmin

  predicate ValidRole(role: string) {
    role in [ADMIN, COMMISSIONER, OBSERVER, SYSTEM]
  }

  function RoleCapabilities(role: string): seq<Capability> {
    if role == ADMIN then [COMMISSION_CODE, DIRECT, QUERY_STATE, APPROVE_PAIRING, MANAGE]
    else if role == COMMISSIONER || role == SYSTEM then [COMMISSION_CODE, DIRECT, QUERY_STATE]
    else if role == OBSERVER then [QUERY_STATE]
    else []
  }

  /** Only the active may do anything; then an explicit removal, unless also added, beats additions and the role. */
  predicate HasCapability(i: Identity, c: Capability) {
    if i.status != Active then false
    else if c in i.removed then c in i.added
    else c in i.added || c in RoleCapabilities(i.role)
  }

  predicate At(i: Identity, surface: string, surfaceId: string) {
    i.surface == surface && i.surfaceId == surfaceId
  }

  predicate Taken(ids: map<Id, Identity>, surface: string, surfaceId: string) {
    exists id :: id in ids && At(ids[id], surface, surfaceId)
  }

  ghost function Lookup(ids: map<Id, Identity>, surface: string, surfaceId: string): (found: Option<Id>)
    ensures found.Some? ==> found.value in ids && At(ids[found.value], surface, surfaceId)
    ensures found.None? <==> !Taken(ids, surface, surfaceId)
  {
    if id: Id :| id in ids && At(ids[id], surface, surfaceId) then Some(id) else None
  }

  ghost predicate Unique(ids: map<Id, Identity>) {
    forall a, b :: a in ids && b in ids && At(ids[a], ids[b].surface, ids[b].surfaceId) ==> a == b
  }

  function ActiveAdmins(ids: map<Id, Identity>): set<Id> {
    set id | id in ids && ids[id].role == ADMIN && ids[id].status == Active
  }

  function NewIdentity(surface: string, surfaceId: string, role: string): Identity {
    Identity(surface, surfaceId, role, Active, [], [])
  }

  function Insert(r: Registry, i: Identity): Registry {
    if Taken(r.ids, i.surface, i.surfaceId) then r else r.(ids := r.ids[r.nextId := i], nextId := r.nextId + 1)
  }

  function SetRoleOutcome(ids: map<Id, Identity>, id: Id, role: string): Outcome {
    if id !in ids then NotFound
    else if !ValidRole(role) then InvalidRole
    else if ids[id].role == ADMIN && role != ADMIN && |ActiveAdmins(ids)| - 1 < 1 then LastAdmin
    else Done
  }

  function SetRole(r: Registry, id: Id, role: string): Registry {
    if id in r.ids && SetRoleOutcome(r.ids, id, role) == Done then r.(ids := r.ids[id := r.ids[id].(role := role)])
        else r
  }

  function RevokeOutcome(ids: map<Id, Identity>, id: Id): Outcome {
    if id !in ids then NotFound
    else if ids[id].status != Revoked && ids[id].role == ADMIN && |ActiveAdmins(ids)| - 1 < 1 then LastAdmin
    else Done
  }

  function Revoke(r: Registry, id: Id): Registry {
    if id in r.ids && RevokeOutcome(r.ids, id) == Done then r.(ids := r.ids[id := r.ids[id].(status := Revoked)]) else r
  }

  function Without(list: seq<Capability>, c: Capability): seq<Capability> {
    if list == [] then []
    else Without(list[..|list| - 1], c) + (if list[|list| - 1] != c then [list[|list| - 1]] else [])
  }

  function WithAdded(i: Identity, c: Capability): Identity {
    if c in i.added then i else i.(removed := Without(i.removed, c), added := i.added + [c])
  }

  function WithRemoved(i: Identity, c: Capability): Identity {
    if c in i.removed then i else i.(added := Without(i.added, c), removed := i.removed + [c])
  }

  function AddCapability(r: Registry, id: Id, c: Capability): Registry {
    if id in r.ids then r.(ids := r.ids[id := WithAdded(r.ids[id], c)]) else r
  }

  function RemoveCapability(r: Registry, id: Id, c: Capability): Registry {
    if id in r.ids then r.(ids := r.ids[id := WithRemoved(r.ids[id], c)]) else r
  }

  predicate Requested(pairings: map<string, Pairing>, surface: string, surfaceId: string) {
    exists t :: t in pairings && pairings[t].surface == surface && pairings[t].surfaceId == surfaceId
  }

  function PairingCreate(r: Registry, token: string, p: Pairing): Registry {
    if Requested(r.pairings, p.surface, p.surfaceId) then r else r.(pairings := r.pairings[token := p])
  }

  predicate Expired(p: Pairing, now: Time) {
    p.expiresAt != Tasks.ZERO_TIME && p.expiresAt < now
  }

  function PairingByToken(r: Registry, token: string, now: Time): Option<Pairing> {
    if token !in r.pairings || Expired(r.pairings[token], now) then None else Some(r.pairings[token])
  }

  function PairingDelete(r: Registry, token: string): Registry {
    r.(pairings := r.pairings - {token})
  }

  function PairingSweep(r: Registry, now: Time): Registry {
    r.(pairings := map t | t in r.pairings && !Expired(r.pairings[t], now) :: r.pairings[t])
  }

  // ---- The store, changed in place ----

  /** filterOut: keep the other elements, in order, in the front of the same array. */
  method FilterOut(list: array<Capability>, c: Capability) returns (n: nat)
    modifies list
    ensures n <= list.Length && list[..n] == Without(old(list[..]), c)
  {
    n := 0;
    var i := 0;
    while i < list.Length
      invariant 0 <= n <= i <= list.Length
      invariant list[..n] == Without(old(list[..])[..i], c)
      invariant list[i..] == old(list[..])[i..]
    {
      assert old(list[..])[..i + 1][..i] == old(list[..])[..i];
      assert list[i] == list[i..][0];
      assert list[i + 1..] == list[i..][1..];
      if list[i] != c {
        list[n] := list[i];
        n := n + 1;
      }
      i := i + 1;
    }
    assert old(list[..])[..i] == old(list[..]);
  }

  /** What filterOut keeps is what is not `c`, once for each time it was there. */
  lemma {:induction false} WithoutIsFilter(list: seq<Capability>, c: Capability)
    ensures c !in Without(list, c)
    ensures forall d :: d != c ==> multiset(Without(list, c))[d] == multiset(list)[d]
    decreases |list|
  {
    if list != [] {
      var first := list[..|list| - 1];
      WithoutIsFilter(first, c);
      assert list == first + [list[|list| - 1]];
    }
  }

  lemma {:induction false} WithoutKeeps(list: seq<Capability>, c: Capability, d: Capability)
    ensures d in Without(list, c) <==> d in list && d != c
    decreases |list|
  {
    if list != [] {
      var first := list[..|list| - 1];
      WithoutKeeps(first, c, d);
      assert list == first + [list[|list| - 1]];
    }
  }

  /** A capability taken away is gone, added or not, and no other changes. */
  lemma RemovedIsGone(i: Identity, c: Capability)
    ensures c !in i.removed ==> !HasCapability(WithRemoved(i, c), c)
    ensures forall d :: d != c ==> (HasCapability(WithRemoved(i, c), d) <==> HasCapability(i, d))
  {
    forall d ensures d in Without(i.added, c) <==> d in i.added && d != c {
      WithoutKeeps(i.added, c, d);
    }
  }

  class Store {
    var ids: map<Id, Identity>
    var nextId: Id
    var pairings: map<string, Pairing>

    constructor ()
      ensures View() == Registry(map[], 0, map[])
    {
      ids, nextId, pairings := map[], 0, map[];
    }

    function View(): Registry
      reads this
    {
      Registry(ids, nextId, pairings)
    }

    method LookupBySurface(surface: string, surfaceId: string) returns (found: Option<Id>)
      ensures found.Some? <==> Taken(ids, surface, surfaceId)
      ensures found.Some? ==> found.value in ids && At(ids[found.value], surface, surfaceId)
      ensures Unique(ids) ==> found == Lookup(ids, surface, surfaceId)
    {
      var rest := ids.Keys;
      while rest != {}
        invariant rest <= ids.Keys
        invariant forall id :: id in ids && At(ids[id], surface, surfaceId) ==> id in rest
        decreases |rest|
      {
        var id :| id in rest;
        if At(ids[id], surface, surfaceId) {
          return Some(id);
        }
        rest := rest - {id};
      }
      return None;
    }

    method InsertIdentity(i: Identity) returns (o: Outcome)
      modifies this
      ensures View() == Insert(old(View()), i)
      ensures o == if Taken(old(ids), i.surface, i.surfaceId) then AlreadyExists else Done
    {
      var found := LookupBySurface(i.surface, i.surfaceId);
      if found.Some? {
        return AlreadyExists;
      }
      ids := ids[nextId := i];
      nextId := nextId + 1;
      return Done;
    }

    method CountActiveAdmins() returns (n: int)
      ensures n == |ActiveAdmins(ids)|
    {
      n := 0;
      var rest := ids.Keys;
      ghost var counted: set<Id> := {};
      while rest != {}
        invariant rest <= ids.Keys && counted <= ids.Keys && counted !! rest
        invariant forall id :: id in counted <==> id in ActiveAdmins(ids) && id !in rest
        invariant n == |counted|
        decreases |rest|
      {
        var id :| id in rest;
        rest := rest - {id};
        if ids[id].role == ADMIN && ids[id].status == Active {
          n := n + 1;
          counted := counted + {id};
        }
      }
      assert counted == ActiveAdmins(ids);
    }

    method ChangeRole(id: Id, role: string) returns (o: Outcome)
      modifies this`ids
      ensures View() == SetRole(old(View()), id, role) && o == SetRoleOutcome(old(ids), id, role)
    {
      if id !in ids {
        return NotFound;
      }
      if !ValidRole(role) {
        return InvalidRole;
      }
      if ids[id].role == ADMIN && role != ADMIN {
        var n := CountActiveAdmins();
        if n - 1 < 1 {
          return LastAdmin;
        }
      }
      ids := ids[id := ids[id].(role := role)];
      return Done;
    }

    method RevokeIdentity(id: Id) returns (o: Outcome)
      modifies this`ids
      ensures View() == Revoke(old(View()), id) && o == RevokeOutcome(old(ids), id)
    {
      if id !in ids {
        return NotFound;
      }
      if ids[id].status == Revoked {
        assert ids == ids[id := ids[id].(status := Revoked)];
        return Done;
      }
      if ids[id].role == ADMIN {
        var n := CountActiveAdmins();
        if n - 1 < 1 {
          return LastAdmin;
        }
      }
      ids := ids[id := ids[id].(status := Revoked)];
      return Done;
    }

    method GrantCapability(id: Id, c: Capability) returns (o: Outcome)
      modifies this`ids
      ensures View() == AddCapability(old(View()), id, c) && o == if id in old(ids) then Done else NotFound
    {
      if id !in ids {
        return NotFound;
      }
      var cur := ids[id];
      if c in cur.added {
        assert ids == ids[id := cur];
        return Done;
      }
      var removed := Filtered(cur.removed, c);
      ids := ids[id := cur.(removed := removed, added := cur.added + [c])];
      return Done;
    }

    method TakeCapability(id: Id, c: Capability) returns (o: Outcome)
      modifies this`ids
      ensures View() == RemoveCapability(old(View()), id, c) && o == if id in old(ids) then Done else NotFound
      ensures o == Done ==>
                && ids.Keys == old(ids).Keys && (forall k :: k in ids && k != id ==> ids[k] == old(ids)[k])
                && (c !in old(ids)[id].removed ==> !HasCapability(ids[id], c))
                && forall d :: d != c ==> (HasCapability(ids[id], d) <==> HasCapability(old(ids)[id], d))
    {
      if id in ids {
        RemovedIsGone(ids[id], c);
      }
      if id !in ids {
        return NotFound;
      }
      var cur := ids[id];
      if c in cur.removed {
        assert ids == ids[id := cur];
        return Done;
      }
      var added := Filtered(cur.added, c);
      ids := ids[id := cur.(added := added, removed := cur.removed + [c])];
      return Done;
    }

    method Filtered(list: seq<Capability>, c: Capability) returns (kept: seq<Capability>)
      ensures kept == Without(list, c)
    {
      var a := new Capability[|list|](i requires 0 <= i < |list| => list[i]);
      assert a[..] == list;
      var n := FilterOut(a, c);
      kept := a[..n];
    }

    method CreatePairing(token: string, p: Pairing) returns (o: Outcome)
      modifies this`pairings
      ensures View() == PairingCreate(old(View()), token, p)
      ensures pairings ==
              if exists t :: t in old(pairings) && old(pairings)[t].surface == p.surface
                             && old(pairings)[t].surfaceId == p.surfaceId
              then old(pairings) else old(pairings)[token := p]
      ensures o == if Requested(old(pairings), p.surface, p.surfaceId) then AlreadyExists else Done
    {
      var rest := pairings.Keys;
      while rest != {}
        invariant rest <= pairings.Keys
        invariant forall t :: t in pairings && pairings[t].surface == p.surface ==>
                    pairings[t].surfaceId == p.surfaceId ==> t in rest
        decreases |rest|
      {
        var t :| t in rest;
        if pairings[t].surface == p.surface && pairings[t].surfaceId == p.surfaceId {
          return AlreadyExists;
        }
        rest := rest - {t};
      }
      pairings := pairings[token := p];
      return Done;
    }

    method FindPairing(token: string, now: Time) returns (p: Option<Pairing>)
      ensures p == PairingByToken(View(), token, now)
    {
      if token !in pairings {
        return None;
      }
      if pairings[token].expiresAt != Tasks.ZERO_TIME && pairings[token].expiresAt < now {
        return None;
      }
      return Some(pairings[token]);
    }

    method DeletePairing(token: string)
      modifies this`pairings
      ensures View() == PairingDelete(old(View()), token)
    {
      pairings := pairings - {token};
    }

    method SweepPairings(now: Time) returns (n: nat)
      modifies this`pairings
      ensures View() == PairingSweep(old(View()), now)
      ensures forall t :: t in pairings <==>
              t in old(pairings) && (old(pairings)[t].expiresAt == 0 || now <= old(pairings)[t].expiresAt)
      ensures forall t :: t in pairings ==> pairings[t] == old(pairings)[t]
    {
      n := 0;
      var rest := pairings.Keys;
      while rest != {}
        invariant rest <= pairings.Keys <= old(pairings).Keys
        invariant forall t :: t in pairings ==> pairings[t] == old(pairings)[t]
        invariant forall t :: t in old(pairings) && t !in rest ==> (t in pairings <==> !Expired(old(pairings)[t], now))
        decreases |rest|
      {
        var t :| t in rest;
        rest := rest - {t};
        if Expired(pairings[t], now) {
          pairings := pairings - {t};
          n := n + 1;
        }
      }
    }
  }
}

/**
 What a chat message gets done, told in the words an operator types and the rows of the registry, branch by branch:
 pairing, approval, revocation, grants, roles, status and commissions.
 */
module ChatLaws {
  import opened Options
  import opened Text
  import opened PullRing
  import opened Identities
  import opened ChatCommands
  import Parser = CommissionParser

  /** `/minos` and its words, as an operator types them. */
  function Command(words: seq<string>): string {
    "/minos" + Spoken(words)
  }

  ghost predicate Worded(content: string, words: seq<string>) {
    content == Command(words) && forall w :: w in words ==> Word(w)
  }

  lemma SpokenShape(words: seq<string>)
    requires forall w :: w in words ==> Word(w)
    ensures var s := Spoken(words); s == "" || (s[0] == ' ' && !IsSpace(s[|s| - 1]))
    ensures Spoken(words) == "" <==> words == []
  {
    if words != [] {
      SpokenEnds(words);
    }
  }

  /** A command and what follows it are trimmed already, and open with the command. */
  lemma CommandTrimmed(rest: string)
    requires rest == "" || (rest[0] == ' ' && !IsSpace(rest[|rest| - 1]))
    ensures var s := "/minos" + rest;
            && TrimSpace(s) == s && TrimPrefix(s, "/minos") == rest
            && (rest != "" ==> "/minos" + " " <= s) && s[0] == '/' && s[1] == 'm'
  {
    var s := "/minos" + rest;
    assert s[..6] == "/minos" && s[6..] == rest && s[0] == '/' && s[1] == 'm';
    if rest != "" {
      assert s[|s| - 1] == rest[|rest| - 1] && s[..7] == "/minos" + " ";
    }
    TrimmedStays(s);
  }

  /** What opens with one command opens with no other. */
  lemma NoOther(s: string)
    requires |s| >= 2 && s[1] != 'p'
    ensures s != "/pair" && !("/pair" + " " <= s)
  {
    assert ("/pair" + " ")[1] == 'p';
  }

  lemma CommandHeard(content: string, words: seq<string>)
    requires Worded(content, words)
    ensures IsCommand(content, "/minos") && !IsCommand(content, "/pair") && Words(content) == words
  {
    SpokenShape(words);
    CommandTrimmed(Spoken(words));
    NoOther(content);
    FieldsOfTrimmed(words);
    hide TrimSpace, TrimPrefix, Fields, Spoken;
  }

  /** Some registered identity of the sender may do this. */
  ghost predicate MayDo(r: Registry, msg: Message, c: Capability) {
    exists id :: id in r.ids && At(r.ids[id], msg.surface, msg.user) && HasCapability(r.ids[id], c)
  }

  lemma MayDoIsEntitled(r: Registry, msg: Message, c: Capability)
    requires Unique(r.ids)
    ensures MayDo(r, msg, c) <==> Entitled(r, msg, c)
  {
    var found := Lookup(r.ids, msg.surface, msg.user);
    if id :| id in r.ids && At(r.ids[id], msg.surface, msg.user) && HasCapability(r.ids[id], c) {
      assert found.Some? && At(r.ids[found.value], r.ids[id].surface, r.ids[id].surfaceId);
    }
  }

  lemma FoundIsThis(r: Registry, surface: string, surfaceId: string, id: Id)
    requires Unique(r.ids) && id in r.ids && At(r.ids[id], surface, surfaceId)
    ensures Lookup(r.ids, surface, surfaceId) == Some(id)
  {
    var found := Lookup(r.ids, surface, surfaceId);
    assert found.Some? && At(r.ids[found.value], r.ids[id].surface, r.ids[id].surfaceId);
  }

  lemma SubcommandIs(word: string)
    ensures word == "approve" ==> SubcommandOf(word) == ToApprove
    ensures word == "revoke" ==> SubcommandOf(word) == ToRevoke
    ensures word == "grant" ==> SubcommandOf(word) == ToGrant
    ensures word == "role" ==> SubcommandOf(word) == ToChangeRole
    ensures word !in {"approve", "revoke", "grant", "role"} ==> SubcommandOf(word) == Unknown
  {
  }

  /** What an operator's words ask for, as far as the operator may. */
  lemma WordsAsk(r: Registry, msg: Message, words: seq<string>)
    requires Unique(r.ids) && Worded(msg.content, words) && words != []
    ensures Asked(r, msg) ==
            match SubcommandOf(words[0])
            case ToApprove => if MayDo(r, msg, APPROVE_PAIRING) then ApproveAsked(words[1..]) else NoChange
            case ToRevoke => if MayDo(r, msg, MANAGE) then RevokeAsked(r, msg.surface, words[1..]) else NoChange
            case ToGrant => if MayDo(r, msg, MANAGE) then GrantAsked(r, msg.surface, words[1..]) else NoChange
            case ToChangeRole => if MayDo(r, msg, MANAGE) then RoleAsked(r, msg.surface, words[1..]) else NoChange
            case Unknown => NoChange
  {
    CommandHeard(msg.content, words);
    MayDoIsEntitled(r, msg, APPROVE_PAIRING);
    MayDoIsEntitled(r, msg, MANAGE);
    hide IsCommand, Words, MayDo, Worded, HasCapability, ApproveAsked, RevokeAsked, GrantAsked, RoleAsked, PairAsked,
      SubcommandOf, Unique;
  }

  /** Ids are handed out in order. */
  predicate InOrder(r: Registry) {
    forall id :: id in r.ids ==> id < r.nextId
  }

  /** The request under the token is still good, and its contact has no identity yet. */
  ghost predicate Approvable(r: Registry, token: string, now: Time) {
    && token in r.pairings
    && (r.pairings[token].expiresAt == Tasks.ZERO_TIME || now <= r.pairings[token].expiresAt)
    && forall id :: id in r.ids ==> !At(r.ids[id], r.pairings[token].surface, r.pairings[token].surfaceId)
  }

  /** One new row, active, for the contact of the request and in the role asked for; the request is gone. */
  ghost predicate Admitted(r: Registry, s: Registry, token: string, role: string)
    requires token in r.pairings
  {
    var p := r.pairings[token];
    && r.nextId !in r.ids && s.ids == r.ids[r.nextId := Identity(p.surface, p.surfaceId, role, Active, [], [])]
    && s.pairings == r.pairings - {token} && s.nextId == r.nextId + 1
  }

  /** A role chat may give. */
  predicate Assignable(role: string) {
    role in {ADMIN, COMMISSIONER, OBSERVER}
  }

  /** approve <token> [role]: a commissioner unless another role is named, and never a system identity. */
  ghost predicate ApproveLaw(r: Registry, s: Registry, msg: Message, now: Time, words: seq<string>)
    requires |words| >= 2
  {
    var role := if |words| == 2 then COMMISSIONER else words[2];
    if MayDo(r, msg, APPROVE_PAIRING) && Assignable(role) && Approvable(r, words[1], now)
    then Admitted(r, s, words[1], role)
    else s == r
  }

  lemma ApproveAdmits(r: Registry, token: string, role: string, now: Time)
    requires InOrder(r)
    ensures if Approvable(r, token, now) then Admitted(r, Approve(r, token, role, now), token, role)
            else Approve(r, token, role, now) == r
  {
  }

  /** The role an approval names, if it is one a contact may have. */
  lemma ApproveNames(args: seq<string>)
    requires args != []
    ensures var role := if |args| == 1 then COMMISSIONER else args[1];
            ApproveAsked(args) ==
            if Assignable(role) then ApprovePairing(args[0], role) else NoChange
  {
  }

  lemma ApproveAsks(r: Registry, msg: Message, words: seq<string>)
    requires Unique(r.ids) && Worded(msg.content, words) && |words| >= 2 && words[0] == "approve"
    ensures var role := if |words| == 2 then COMMISSIONER else words[2];
            Asked(r, msg) ==
            if MayDo(r, msg, APPROVE_PAIRING) && Assignable(role) then ApprovePairing(words[1], role) else NoChange
  {
    WordsAsk(r, msg, words);
    SubcommandIs(words[0]);
    ApproveNames(words[1..]);
    hide Asked, MayDo, Worded, Unique, SubcommandOf, ApproveAsked, Assignable;
  }

  lemma ApproveMade(r: Registry, msg: Message, token: string, now: Time, may: bool, asked: string, role: string)
    requires Unique(r.ids) && InOrder(r)
    requires Asked(r, msg) == if may then ApprovePairing(asked, role) else NoChange
    ensures var s := Inbound(r, msg, token, now);
            if may && Approvable(r, asked, now) then Admitted(r, s, asked, role) else s == r
  {
    hide Asked, Approvable, Admitted, Approve;
    ApproveAdmits(r, asked, role, now);
  }

  lemma ApproveObeys(r: Registry, msg: Message, token: string, now: Time, words: seq<string>)
    requires Unique(r.ids) && InOrder(r)
    requires Worded(msg.content, words) && |words| >= 2 && words[0] == "approve"
    ensures ApproveLaw(r, Inbound(r, msg, token, now), msg, now, words)
  {
    ApproveAsks(r, msg, words);
    hide Asked, Inbound, MayDo, Worded, Assignable, Approvable, Admitted;
    var role := if |words| == 2 then COMMISSIONER else words[2];
    ApproveMade(r, msg, token, now, MayDo(r, msg, APPROVE_PAIRING) && Assignable(role), words[1], role);
  }

  /** The last of the active admins, or an admin still pending beside only one active. */
  predicate LastOfAdmins(r: Registry, id: Id)
    requires id in r.ids
  {
    r.ids[id].role == ADMIN && |ActiveAdmins(r.ids)| <= 1
  }

  ghost predicate RevokedOrLast(r: Registry, s: Registry, id: Id)
    requires id in r.ids
  {
    s == if r.ids[id].status != Revoked && LastOfAdmins(r, id) then r
         else r.(ids := r.ids[id := r.ids[id].(status := Revoked)])
  }

  lemma RevokeRevokes(r: Registry, id: Id)
    requires id in r.ids
    ensures RevokedOrLast(r, Revoke(r, id), id)
  {
  }

  /** revoke <contact>: the identity is revoked, unless it is the last admin's. */
  ghost predicate RevokeLaw(r: Registry, s: Registry, msg: Message, words: seq<string>)
    requires |words| >= 2
  {
    var target := Lookup(r.ids, msg.surface, words[1]);
    if MayDo(r, msg, MANAGE) && target.Some? then RevokedOrLast(r, s, target.value) else s == r
  }

  lemma RevokeAsks(r: Registry, msg: Message, words: seq<string>)
    requires Unique(r.ids) && Worded(msg.content, words) && |words| >= 2 && words[0] == "revoke"
    ensures var target := Lookup(r.ids, msg.surface, words[1]);
            Asked(r, msg) == if MayDo(r, msg, MANAGE) && target.Some? then RevokeOf(target.value) else NoChange
  {
    WordsAsk(r, msg, words);
    SubcommandIs(words[0]);
    hide Asked, MayDo, Worded, Unique, SubcommandOf;
  }

  lemma RevokeMade(r: Registry, msg: Message, token: string, now: Time, may: bool, target: Option<Id>)
    requires target.Some? ==> target.value in r.ids
    requires Asked(r, msg) == if may && target.Some? then RevokeOf(target.value) else NoChange
    ensures var s := Inbound(r, msg, token, now);
            if may && target.Some? then RevokedOrLast(r, s, target.value) else s == r
  {
    hide Asked, RevokedOrLast, Revoke;
    if target.Some? {
      RevokeRevokes(r, target.value);
    }
  }

  lemma RevokeObeys(r: Registry, msg: Message, token: string, now: Time, words: seq<string>)
    requires Unique(r.ids) && Worded(msg.content, words) && |words| >= 2 && words[0] == "revoke"
    ensures RevokeLaw(r, Inbound(r, msg, token, now), msg, words)
  {
    RevokeAsks(r, msg, words);
    hide Asked, Inbound, MayDo, Worded, Unique, RevokedOrLast;
    RevokeMade(r, msg, token, now, MayDo(r, msg, MANAGE), Lookup(r.ids, msg.surface, words[1]));
  }

  /** Only this row has changed, and nothing else in the registry. */
  ghost predicate OnlyRow(r: Registry, s: Registry, id: Id) {
    && s.ids.Keys == r.ids.Keys && s.pairings == r.pairings && s.nextId == r.nextId
    && forall k :: k in r.ids && k != id ==> s.ids[k] == r.ids[k]
  }

  /** The identity, while active, has this capability now, and no other capability of it has changed. */
  ghost predicate Granted(i: Identity, j: Identity, c: Capability) {
    && j.surface == i.surface && j.surfaceId == i.surfaceId && j.role == i.role && j.status == i.status
    && (j.status == Active ==> HasCapability(j, c))
    && forall d :: d != c ==> (HasCapability(j, d) <==> HasCapability(i, d))
  }

  /** The capability is granted to this identity, and nothing else happens. */
  ghost predicate GrantedTo(r: Registry, s: Registry, id: Id, c: Capability)
    requires id in r.ids
  {
    OnlyRow(r, s, id) && Granted(r.ids[id], s.ids[id], c)
  }

  lemma AddedIsGranted(i: Identity, c: Capability)
    ensures Granted(i, WithAdded(i, c), c)
  {
    WithoutIsFilter(i.removed, c);
    var j := WithAdded(i, c);
    forall d | d != c ensures HasCapability(j, d) <==> HasCapability(i, d) {
      assert multiset(Without(i.removed, c))[d] == multiset(i.removed)[d];
      assert d in Without(i.removed, c) <==> d in i.removed;
    }
  }

  lemma AddedToOne(r: Registry, id: Id, c: Capability)
    requires id in r.ids
    ensures GrantedTo(r, AddCapability(r, id, c), id, c)
  {
    AddedIsGranted(r.ids[id], c);
    hide WithAdded, Granted;
  }

  /** grant <contact> <capability>. */
  ghost predicate GrantLaw(r: Registry, s: Registry, msg: Message, words: seq<string>)
    requires |words| >= 3
  {
    var target := Lookup(r.ids, msg.surface, words[1]);
    if MayDo(r, msg, MANAGE) && target.Some? then GrantedTo(r, s, target.value, words[2]) else s == r
  }

  lemma GrantAsks(r: Registry, msg: Message, words: seq<string>)
    requires Unique(r.ids) && Worded(msg.content, words) && |words| >= 3 && words[0] == "grant"
    ensures var target := Lookup(r.ids, msg.surface, words[1]);
            Asked(r, msg) == if MayDo(r, msg, MANAGE) && target.Some? then GrantTo(target.value, words[2]) else NoChange
  {
    WordsAsk(r, msg, words);
    SubcommandIs(words[0]);
    hide Asked, MayDo, Worded, Unique, SubcommandOf;
  }

  lemma GrantMade(r: Registry, msg: Message, token: string, now: Time, may: bool, target: Option<Id>, c: Capability)
    requires target.Some? ==> target.value in r.ids
    requires Asked(r, msg) == if may && target.Some? then GrantTo(target.value, c) else NoChange
    ensures var s := Inbound(r, msg, token, now);
            if may && target.Some? then GrantedTo(r, s, target.value, c) else s == r
  {
    hide Asked, GrantedTo, AddCapability;
    if target.Some? {
      AddedToOne(r, target.value, c);
    }
  }

  lemma GrantObeys(r: Registry, msg: Message, token: string, now: Time, words: seq<string>)
    requires Unique(r.ids) && Worded(msg.content, words) && |words| >= 3 && words[0] == "grant"
    ensures GrantLaw(r, Inbound(r, msg, token, now), msg, words)
  {
    GrantAsks(r, msg, words);
    hide Asked, Inbound, MayDo, Worded, Unique, GrantedTo;
    GrantMade(r, msg, token, now, MayDo(r, msg, MANAGE), Lookup(r.ids, msg.surface, words[1]), words[2]);
  }

  predicate BootstrapOnly(role: string) {
    role == SYSTEM
  }

  ghost predicate RoleSetOrLast(r: Registry, s: Registry, id: Id, role: string)
    requires id in r.ids
  {
    s == if role != ADMIN && LastOfAdmins(r, id) then r else r.(ids := r.ids[id := r.ids[id].(role := role)])
  }

  lemma SetRoleSets(r: Registry, id: Id, role: string)
    requires id in r.ids && !BootstrapOnly(role)
    ensures if Assignable(role) then RoleSetOrLast(r, SetRole(r, id, role), id, role) else SetRole(r, id, role) == r
  {
  }

  /** role <contact> <role>: the role is set, unless it is no role or the system's, or the last admin would go. */
  ghost predicate RoleLaw(r: Registry, s: Registry, msg: Message, words: seq<string>)
    requires |words| >= 3
  {
    var target := Lookup(r.ids, msg.surface, words[1]);
    if MayDo(r, msg, MANAGE) && target.Some? && Assignable(words[2]) then RoleSetOrLast(r, s, target.value, words[2])
    else s == r
  }

  lemma RoleAsks(r: Registry, msg: Message, words: seq<string>)
    requires Unique(r.ids) && Worded(msg.content, words) && |words| >= 3 && words[0] == "role"
    ensures var target := Lookup(r.ids, msg.surface, words[1]);
            Asked(r, msg) ==
            if MayDo(r, msg, MANAGE) && target.Some? && !BootstrapOnly(words[2]) then RoleOf(target.value, words[2])
            else NoChange
  {
    WordsAsk(r, msg, words);
    SubcommandIs(words[0]);
    hide Asked, MayDo, Worded, Unique, SubcommandOf;
  }

  lemma AssignableInChat(role: string)
    requires Assignable(role)
    ensures !BootstrapOnly(role)
  {
  }

  lemma RoleMade(r: Registry, msg: Message, token: string, now: Time, may: bool, target: Option<Id>, role: string)
    requires target.Some? ==> target.value in r.ids
    requires Asked(r, msg) ==
             if may && target.Some? && !BootstrapOnly(role) then RoleOf(target.value, role) else NoChange
    ensures var s := Inbound(r, msg, token, now);
            if may && target.Some? && Assignable(role) then RoleSetOrLast(r, s, target.value, role) else s == r
  {
    hide Asked, RoleSetOrLast, SetRole, Assignable, BootstrapOnly;
    if Assignable(role) {
      AssignableInChat(role);
    }
    if target.Some? && !BootstrapOnly(role) {
      SetRoleSets(r, target.value, role);
    }
  }

  lemma RoleObeys(r: Registry, msg: Message, token: string, now: Time, words: seq<string>)
    requires Unique(r.ids) && Worded(msg.content, words) && |words| >= 3 && words[0] == "role"
    ensures RoleLaw(r, Inbound(r, msg, token, now), msg, words)
  {
    RoleAsks(r, msg, words);
    hide Asked, Inbound, MayDo, Worded, Unique, RoleSetOrLast, Assignable, BootstrapOnly;
    RoleMade(r, msg, token, now, MayDo(r, msg, MANAGE), Lookup(r.ids, msg.surface, words[1]), words[2]);
  }

  /** Words that make no whole command. */
  predicate Idle(words: seq<string>) {
    || words == []
    || words[0] !in {"approve", "revoke", "grant", "role"}
    || (words[0] in {"approve", "revoke"} && |words| < 2)
    || (words[0] in {"grant", "role"} && |words| < 3)
  }

  lemma IdleObeys(r: Registry, msg: Message, token: string, now: Time, words: seq<string>)
    requires Unique(r.ids) && Worded(msg.content, words) && Idle(words)
    ensures Inbound(r, msg, token, now) == r
  {
    if words == [] {
      CommandHeard(msg.content, words);
      hide IsCommand, Words;
    } else {
      WordsAsk(r, msg, words);
      NothingAsked(r, msg.surface, words);
      SubcommandIs(words[0]);
      hide Asked, MayDo, Worded, Unique, SubcommandOf, Idle, ApproveAsked, RevokeAsked, GrantAsked, RoleAsked;
    }
  }

  lemma NothingAsked(r: Registry, surface: string, words: seq<string>)
    requires Idle(words) && words != []
    ensures words[0] == "approve" ==> ApproveAsked(words[1..]) == NoChange
    ensures words[0] == "revoke" ==> RevokeAsked(r, surface, words[1..]) == NoChange
    ensures words[0] == "grant" ==> GrantAsked(r, surface, words[1..]) == NoChange
    ensures words[0] == "role" ==> RoleAsked(r, surface, words[1..]) == NoChange
  {
  }

  /** What the registry is after a message of these words. */
  ghost predicate CommandLaw(r: Registry, s: Registry, msg: Message, now: Time, words: seq<string>) {
    if Idle(words) then s == r
    else if words[0] == "approve" then ApproveLaw(r, s, msg, now, words)
    else if words[0] == "revoke" then RevokeLaw(r, s, msg, words)
    else if words[0] == "grant" then GrantLaw(r, s, msg, words)
    else RoleLaw(r, s, msg, words)
  }

  lemma CommandObeys(r: Registry, msg: Message, token: string, now: Time, words: seq<string>)
    requires Unique(r.ids) && InOrder(r) && Worded(msg.content, words)
    ensures CommandLaw(r, Inbound(r, msg, token, now), msg, now, words)
  {
    hide ApproveLaw, RevokeLaw, GrantLaw, RoleLaw, Inbound, Worded;
    if Idle(words) {
      IdleObeys(r, msg, token, now, words);
    } else if words[0] == "approve" {
      ApproveObeys(r, msg, token, now, words);
    } else if words[0] == "revoke" {
      RevokeObeys(r, msg, token, now, words);
    } else if words[0] == "grant" {
      GrantObeys(r, msg, token, now, words);
    } else {
      RoleObeys(r, msg, token, now, words);
    }
  }

  /** The message begins with the command, once trimmed. */
  predicate Opens(content: string, command: string) {
    TrimSpace(content) == command || command + " " <= TrimSpace(content)
  }

  /**
   A request to be paired: unless the sender is active or has a request already, it is filed under the token for a day.
   Any other message that is no `/minos` command, and any of an unknown sender, leaves the registry alone.
   */
  ghost predicate PairLaw(r: Registry, s: Registry, msg: Message, token: string, now: Time) {
    if Opens(msg.content, "/pair") then
      if (exists id :: id in r.ids && At(r.ids[id], msg.surface, msg.user) && r.ids[id].status == Active)
         || Requested(r.pairings, msg.surface, msg.user)
      then s == r
      else s == r.(pairings := r.pairings[token := Pairing(msg.surface, msg.user, now + 86_400_000_000_000)])
    else
      !Opens(msg.content, "/minos") || !Taken(r.ids, msg.surface, msg.user) ==> s == r
  }

  lemma PairObeys(r: Registry, msg: Message, token: string, now: Time)
    requires Unique(r.ids)
    ensures PairLaw(r, Inbound(r, msg, token, now), msg, token, now)
  {
    forall id | id in r.ids && At(r.ids[id], msg.surface, msg.user) {
      FoundIsThis(r, msg.surface, msg.user, id);
    }
    hide Words;
  }

  /** What a registered contact that sends no `/pair` and no `/minos` sets off. */
  ghost predicate ActionLaw(r: Registry, msg: Message, action: Action) {
    && (!Taken(r.ids, msg.surface, msg.user) || Opens(msg.content, "/pair") || Opens(msg.content, "/minos") ==>
          action == NoAction)
    && (Taken(r.ids, msg.surface, msg.user) && Opens(msg.content, "/status") ==>
          action == if MayDo(r, msg, QUERY_STATE) then StatusReply else CapabilityRefused(QUERY_STATE))
    && (Taken(r.ids, msg.surface, msg.user) && TrimSpace(msg.content) != "" && TrimSpace(msg.content)[0] != '/' ==>
          action in {NoAction, StatusReply, CapabilityRefused(QUERY_STATE)})
    && (action.Commissioned? ==> MayDo(r, msg, COMMISSION_CODE) && "/commission" <= TrimSpace(msg.content))
  }

  /** Text without a slash in front is no command. */
  lemma Slashless(content: string)
    requires TrimSpace(content) != "" && TrimSpace(content)[0] != '/'
    ensures !IsCommand(content, "/pair") && !IsCommand(content, "/minos") && !("/commission" <= TrimSpace(content))
  {
  }

  lemma OpensIs(content: string, command: string)
    ensures Opens(content, command) <==> IsCommand(content, command)
  {
  }

  lemma CommissionIsNoOther(content: string)
    requires "/commission" <= TrimSpace(content)
    ensures !IsCommand(content, "/pair") && !IsCommand(content, "/minos") && !AsksStatus(content)
  {
    var t := TrimSpace(content);
    assert t[..11] == "/commission" && t[0] == '/' && t[1] == 'c';
    assert Fold(t[0]) == '/' && "what's running?"[0] == 'w' && "what is running?"[0] == 'w';
  }

  lemma StatusIsNoOther(content: string)
    requires IsCommand(content, "/status")
    ensures !IsCommand(content, "/pair") && !IsCommand(content, "/minos")
  {
    var t := TrimSpace(content);
    assert t[0] == '/' && t[1] == 's';
  }

  lemma ActionObeys(r: Registry, msg: Message)
    requires Unique(r.ids)
    ensures ActionLaw(r, msg, ActionOf(r, msg))
  {
    MayDoIsEntitled(r, msg, QUERY_STATE);
    MayDoIsEntitled(r, msg, COMMISSION_CODE);
    ParsedIs(msg.content);
    Parser.OnlyCommandsParse(msg.content);
    OpensIs(msg.content, "/pair");
    OpensIs(msg.content, "/minos");
    OpensIs(msg.content, "/status");
    if TrimSpace(msg.content) != "" && TrimSpace(msg.content)[0] != '/' {
      Slashless(msg.content);
    }
    if IsCommand(msg.content, "/status") {
      StatusIsNoOther(msg.content);
      assert AsksStatus(msg.content);
    }
    hide Parsed, EqualFold, IsCommand, Opens, MayDo, HasCapability, AsksStatus;
  }

  /** A commission as an operator writes it is taken up with its fields by a contact that may commission. */
  lemma CommissionObeys(r: Registry, msg: Message, ws: seq<Parser.Written>, summary: string)
    requires Unique(r.ids) && Taken(r.ids, msg.surface, msg.user)
    requires msg.content == Parser.Printed(ws, summary) && forall w :: w in ws ==> Parser.Writable(w)
    requires Parser.Summary(summary) && Parser.Lex(summary) == None
    ensures var f := Parser.WithAll(Parser.BLANK_REQUEST, ws).(summary := summary);
            ActionOf(r, msg) ==
            if f.repo == "" || f.branch == "" then Complaint
            else if MayDo(r, msg, COMMISSION_CODE) then Commissioned(f) else CapabilityRefused(COMMISSION_CODE)
  {
    MayDoIsEntitled(r, msg, COMMISSION_CODE);
    Parser.RoundTrip(ws, summary);
    ParsedIs(msg.content);
    Parser.PrintedOpens(ws, summary);
    assert "/commission" <= TrimSpace(msg.content);
    CommissionIsNoOther(msg.content);
    ActionOnCommission(r, msg);
    hide ActionOf, Parsed, IsCommand, AsksStatus, MayDo, HasCapability, Taken, Unique;
  }

  lemma ActionOnCommission(r: Registry, msg: Message)
    requires Taken(r.ids, msg.surface, msg.user)
    requires !IsCommand(msg.content, "/pair") && !IsCommand(msg.content, "/minos") && !AsksStatus(msg.content)
    ensures ActionOf(r, msg) ==
            match Parsed(msg.content)
            case NotACommand => NoAction
            case Ok(request) =>
              if Entitled(r, msg, COMMISSION_CODE) then Commissioned(request) else CapabilityRefused(COMMISSION_CODE)
            case _ => Complaint
  {
    hide Parsed, IsCommand, AsksStatus, HasCapability;
  }

  /** All of these. */
  ghost predicate Lawful(r: Registry, s: Registry, msg: Message, token: string, now: Time, action: Action) {
    && (forall words :: Worded(msg.content, words) && InOrder(r) ==>
          CommandLaw(r, s, msg, now, words))
    && PairLaw(r, s, msg, token, now)
    && ActionLaw(r, msg, action)
  }

  lemma InboundLawful(r: Registry, msg: Message, token: string, now: Time)
    requires Unique(r.ids)
    ensures Lawful(r, Inbound(r, msg, token, now), msg, token, now, ActionOf(r, msg))
  {
    hide CommandLaw, PairLaw, ActionLaw, Inbound, ActionOf, Worded;
    forall words | Worded(msg.content, words) && InOrder(r)
      ensures CommandLaw(r, Inbound(r, msg, token, now), msg, now, words)
    {
      CommandObeys(r, msg, token, now, words);
    }
    PairObeys(r, msg, token, now);
    ActionObeys(r, msg);
  }

  /** What a freshly registered identity of each role may do. */
  lemma RoleMeaning(surface: string, surfaceId: string, role: string, c: Capability)
    ensures HasCapability(NewIdentity(surface, surfaceId, role), c) <==>
            || (role == ADMIN && c in {COMMISSION_CODE, DIRECT, QUERY_STATE, APPROVE_PAIRING, MANAGE})
            || (role in {COMMISSIONER, SYSTEM} && c in {COMMISSION_CODE, DIRECT, QUERY_STATE})
            || (role == OBSERVER && c == QUERY_STATE)
  {
  }
}

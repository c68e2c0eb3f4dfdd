/**
 The chat commands of minos/core/pairing.go and the command gate of minos/core/intake.go: what a message asks of the
 identity registry and what else it sets off, as far as its sender is entitled to it.
 */
module ChatCommands {
  import opened Options
  import opened Text
  import opened PullRing
  import opened Identities
  import Parser = CommissionParser

  /** How long a pairing request stays approvable: 24 hours, in nanoseconds. */
  const PAIRING_TTL: Time := 86_400_000_000_000

  // ---- Chat commands ----

  predicate IsCommand(content: string, command: string) {
    TrimSpace(content) == command || command + " " <= TrimSpace(content)
  }

  /** What a message may do to the registry. */
  datatype Change =
    | NoChange
    | RequestPairing
    | ApprovePairing(token: string, role: string)
    | RevokeOf(id: Id)
    | GrantTo(id: Id, capability: Capability)
    | RoleOf(id: Id, role: string)

  function Approve(r: Registry, token: string, role: string, now: Time): Registry {
    match PairingByToken(r, token, now)
    case None => r
    case Some(p) =>
      if Taken(r.ids, p.surface, p.surfaceId) then r
      else PairingDelete(Insert(r, NewIdentity(p.surface, p.surfaceId, role)), token)
  }

  function Perform(r: Registry, change: Change, msg: Message, token: string, now: Time): Registry {
    match change
    case NoChange => r
    case RequestPairing => PairingCreate(r, token, Pairing(msg.surface, msg.user, now + PAIRING_TTL))
    case ApprovePairing(t, role) => Approve(r, t, role, now)
    case RevokeOf(id) => Revoke(r, id)
    case GrantTo(id, capability) => AddCapability(r, id, capability)
    case RoleOf(id, role) => SetRole(r, id, role)
  }

  ghost function PairAsked(r: Registry, msg: Message): Change {
    var existing := Lookup(r.ids, msg.surface, msg.user);
    if existing.Some? && r.ids[existing.value].status == Active then NoChange else RequestPairing
  }

  function ApproveAsked(args: seq<string>): Change {
    if |args| < 1 then NoChange
    else if |args| < 2 then ApprovePairing(args[0], COMMISSIONER)
    else if args[1] == SYSTEM || !ValidRole(args[1]) then NoChange
    else ApprovePairing(args[0], args[1])
  }

  ghost function RevokeAsked(r: Registry, surface: string, args: seq<string>): Change {
    if |args| < 1 || Lookup(r.ids, surface, args[0]) == None then NoChange
    else RevokeOf(Lookup(r.ids, surface, args[0]).value)
  }

  ghost function GrantAsked(r: Registry, surface: string, args: seq<string>): Change {
    if |args| < 2 || Lookup(r.ids, surface, args[0]) == None then NoChange
    else GrantTo(Lookup(r.ids, surface, args[0]).value, args[1])
  }

  ghost function RoleAsked(r: Registry, surface: string, args: seq<string>): Change {
    if |args| < 2 || Lookup(r.ids, surface, args[0]) == None || args[1] == SYSTEM then NoChange
    else RoleOf(Lookup(r.ids, surface, args[0]).value, args[1])
  }

  /** The words after `/minos`. */
  function Words(content: string): seq<string> {
    Fields(TrimSpace(TrimPrefix(TrimSpace(content), "/minos")))
  }

  datatype Subcommand = ToApprove | ToRevoke | ToGrant | ToChangeRole | Unknown

  function SubcommandOf(word: string): Subcommand {
    if word == "approve" then ToApprove
    else if word == "revoke" then ToRevoke
    else if word == "grant" then ToGrant
    else if word == "role" then ToChangeRole
    else Unknown
  }

  ghost function CommandAsked(r: Registry, msg: Message, caller: Identity): Change {
    var words := Words(msg.content);
    if words == [] then NoChange
    else
      var args := words[1..];
      match SubcommandOf(words[0])
      case ToApprove => if HasCapability(caller, APPROVE_PAIRING) then ApproveAsked(args) else NoChange
      case ToRevoke => if HasCapability(caller, MANAGE) then RevokeAsked(r, msg.surface, args) else NoChange
      case ToGrant => if HasCapability(caller, MANAGE) then GrantAsked(r, msg.surface, args) else NoChange
      case ToChangeRole => if HasCapability(caller, MANAGE) then RoleAsked(r, msg.surface, args) else NoChange
      case Unknown => NoChange
  }

  ghost function Sender(r: Registry, msg: Message): Option<Identity> {
    var id := Lookup(r.ids, msg.surface, msg.user);
    if id.None? then None else Some(r.ids[id.value])
  }

  /** What an inbound message asks of the registry, as far as its sender is entitled to it. */
  ghost function Asked(r: Registry, msg: Message): Change {
    if IsCommand(msg.content, "/pair") then PairAsked(r, msg)
    else match Sender(r, msg)
         case None => NoChange
         case Some(caller) => if IsCommand(msg.content, "/minos") then CommandAsked(r, msg, caller) else NoChange
  }

  /** What one inbound message does to the registry. */
  ghost function Inbound(r: Registry, msg: Message, token: string, now: Time): Registry {
    Perform(r, Asked(r, msg), msg, token, now)
  }

  /** What else an inbound message sets off. */
  datatype Action = NoAction | StatusReply | Commissioned(request: Parser.Request) | Complaint
      | CapabilityRefused(missing: Capability)

  predicate AsksStatus(content: string) {
    var t := TrimSpace(content);
    IsCommand(content, "/status") || EqualFold(t, "what's running?") || EqualFold(t, "what is running?")
  }

  function Parsed(content: string): Parser.Parsed {
    Parser.Parse(content)
  }

  ghost function ActionOf(r: Registry, msg: Message): Action {
    var sender := Sender(r, msg);
    if IsCommand(msg.content, "/pair") || sender.None? || IsCommand(msg.content, "/minos") then NoAction
    else if AsksStatus(msg.content) then
      if HasCapability(sender.value, QUERY_STATE) then StatusReply else CapabilityRefused(QUERY_STATE)
    else match Parsed(msg.content)
         case NotACommand => NoAction
         case Ok(request) =>
           if HasCapability(sender.value, COMMISSION_CODE) then Commissioned(request)
               else CapabilityRefused(COMMISSION_CODE)
         case _ => Complaint
  }

  // ---- Authority ----

  /** The sender is registered, active, and holds the capability. */
  ghost predicate Entitled(r: Registry, msg: Message, c: Capability) {
    Sender(r, msg).Some? && HasCapability(Sender(r, msg).value, c)
  }

  ghost predicate Covered(r: Registry, msg: Message, change: Change) {
    match change
    case NoChange => true
    case RequestPairing => true
    case ApprovePairing(_, role) => Entitled(r, msg, APPROVE_PAIRING) && ValidRole(role) && role != SYSTEM
    case RevokeOf(id) => Entitled(r, msg, MANAGE) && id in r.ids
    case GrantTo(id, _) => Entitled(r, msg, MANAGE) && id in r.ids
    case RoleOf(id, role) => Entitled(r, msg, MANAGE) && id in r.ids && role != SYSTEM
  }

  /**
   What a message gets done to the registry is covered by a capability of its sender, and never makes a system
   identity.
   */
  lemma AskedIsCovered(r: Registry, msg: Message)
    ensures Covered(r, msg, Asked(r, msg))
  {
    hide IsCommand, Words, SubcommandOf;
  }

  /** So is everything else done on the strength of a message. */
  lemma ActionIsCovered(r: Registry, msg: Message)
    ensures ActionOf(r, msg).StatusReply? ==> Entitled(r, msg, QUERY_STATE)
    ensures ActionOf(r, msg).Commissioned? ==>
              Entitled(r, msg, COMMISSION_CODE) && Parser.Parse(msg.content) == Parser.Ok(ActionOf(r, msg).request)
  {
    hide IsCommand, AsksStatus, Parsed;
    ParsedIs(msg.content);
  }

  /** A contact without an active identity has no say: at most it may ask to be paired. */
  lemma InactiveIsPowerless(r: Registry, msg: Message)
    requires Sender(r, msg).Some? ==> Sender(r, msg).value.status != Active
    ensures Asked(r, msg) == NoChange || Asked(r, msg) == RequestPairing
    ensures !ActionOf(r, msg).StatusReply? && !ActionOf(r, msg).Commissioned?
  {
    hide IsCommand, AsksStatus, Parsed, Words, SubcommandOf;
  }

  lemma ParsedIs(content: string)
    ensures Parsed(content) == Parser.Parse(content)
  {
  }
}

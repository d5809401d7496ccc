/**
 * The console, RCON and chat command layer of the Permissions plugin: each
 * command line is split at runs of spaces, checked for its number of tokens
 * and its numbers, and handed to the service; the outcome is routed back as a
 * coloured message or an RCON reply.
 */
module Commands {
  import opened Wrappers
  import opened Text
  import opened Backend
  import opened Host
  import opened Registry
  import opened GroupText
  import opened Permissions

  /** The commands that change the store. */
  datatype Command =
    | AddPlayer | RemovePlayer | AddPlayerTimed | RemovePlayerTimed
    | AddTribe | RemoveTribe | AddTribeTimed | RemoveTribeTimed
    | AddGroupCmd | RemoveGroupCmd | Grant | Revoke

  /** A command line that passed its checks, with the values it carries. */
  datatype Request =
    | AddPlayerReq(eosId: string, group: string)
    | RemovePlayerReq(eosId: string, group: string)
    | AddPlayerTimedReq(eosId: string, group: string, secs: int, delaySecs: int)
    | RemovePlayerTimedReq(eosId: string, group: string)
    | AddTribeReq(tribeId: int, group: string)
    | RemoveTribeReq(tribeId: int, group: string)
    | AddTribeTimedReq(tribeId: int, group: string, secs: int, delaySecs: int)
    | RemoveTribeTimedReq(tribeId: int, group: string)
    | AddGroupReq(group: string)
    | RemoveGroupReq(group: string)
    | GrantReq(group: string, permission: string)
    | RevokeReq(group: string, permission: string)

  const WrongSyntax := "Wrong syntax"
  const ParsingError := "Parsing error"
  const PlayerTimedSyntax := "Wrong syntax, Should be AddPlayerToTimedGroup eos_id hours delayHours"
  const TribeTimedSyntax := "Wrong syntax, Should be AddTribeToTimedGroup tribeId hours delayHours"

  /** The name each command is registered under, for the console and for RCON. */
  function CommandName(kind: Command): string
  {
    match kind
    case AddPlayer => "Permissions.Add"
    case RemovePlayer => "Permissions.Remove"
    case AddPlayerTimed => "Permissions.AddTimed"
    case RemovePlayerTimed => "Permissions.RemoveTimed"
    case AddTribe => "Permissions.AddTribe"
    case RemoveTribe => "Permissions.RemoveTribe"
    case AddTribeTimed => "Permissions.AddTribeTimed"
    case RemoveTribeTimed => "Permissions.RemoveTribeTimed"
    case AddGroupCmd => "Permissions.AddGroup"
    case RemoveGroupCmd => "Permissions.RemoveGroup"
    case Grant => "Permissions.Grant"
    case Revoke => "Permissions.Revoke"
  }

  /** The fewest tokens, the command name included, each command accepts. */
  function MinTokens(kind: Command): nat
  {
    match kind
    case AddGroupCmd | RemoveGroupCmd => 2
    case AddPlayerTimed | AddTribeTimed => 4
    case _ => 3
  }

  function SyntaxMessage(kind: Command): string
  {
    match kind
    case AddPlayerTimed => PlayerTimedSyntax
    case AddTribeTimed => TribeTimedSyntax
    case _ => WrongSyntax
  }

  /**
   * The duration and the delay of a timed command: `hours*3600`, plus
   * `delayHours*3600` when the fifth token is present; the delay alone is
   * the second value.
   */
  function TimedSpan(t: seq<string>): (r: Result<(int, int)>)
    requires |t| >= 4
    ensures r.Failure? ==> r.error == ParsingError
    ensures r.Success? <==> ParseInt(t[3]).Some? && (|t| > 4 ==> ParseInt(t[4]).Some?)
    ensures r.Success? ==>
      var d := if |t| > 4 then ParseInt(t[4]).value else 0;
      r.value == (ParseInt(t[3]).value * 3600 + d * 3600, d * 3600)
  {
    match ParseInt(t[3])
    case None => Failure(ParsingError)
    case Some(h) =>
      var secs := h * 3600;
      if |t| > 4 then
        match ParseInt(t[4])
        case None => Failure(ParsingError)
        case Some(d) =>
          var delaySecs := d * 3600;
          Success((secs + delaySecs, delaySecs))
      else Success((secs, 0))
  }

  /** The command's checks, on its tokens; the first token is the command name. */
  function ParseTokens(kind: Command, t: seq<string>): Result<Request>
  {
    if |t| < MinTokens(kind) then Failure(SyntaxMessage(kind))
    else
      match kind
      case AddPlayer => Success(AddPlayerReq(t[1], t[2]))
      case RemovePlayer => Success(RemovePlayerReq(t[1], t[2]))
      case RemovePlayerTimed => Success(RemovePlayerTimedReq(t[1], t[2]))
      case AddPlayerTimed =>
        (match TimedSpan(t)
         case Failure(e) => Failure(e)
         case Success(span) =>
           if span.0 < 0 || span.1 < 0 then Failure(PlayerTimedSyntax)
           else Success(AddPlayerTimedReq(t[1], t[2], span.0, span.1)))
      case AddTribe =>
        (match ParseNat(t[1])
         case None => Failure(ParsingError)
         case Some(id) => Success(AddTribeReq(id, t[2])))
      case RemoveTribe =>
        (match ParseNat(t[1])
         case None => Failure(ParsingError)
         case Some(id) => Success(RemoveTribeReq(id, t[2])))
      case RemoveTribeTimed =>
        (match ParseNat(t[1])
         case None => Failure(ParsingError)
         case Some(id) => Success(RemoveTribeTimedReq(id, t[2])))
      case AddTribeTimed =>
        (match ParseNat(t[1])
         case None => Failure(ParsingError)
         case Some(id) =>
           (match TimedSpan(t)
            case Failure(e) => Failure(e)
            case Success(span) =>
              if span.0 < 0 || span.1 < 0 then Failure(TribeTimedSyntax)
              else Success(AddTribeTimedReq(id, t[2], span.0, span.1))))
      case AddGroupCmd => Success(AddGroupReq(t[1]))
      case RemoveGroupCmd => Success(RemoveGroupReq(t[1]))
      case Grant => Success(GrantReq(t[1], t[2]))
      case Revoke => Success(RevokeReq(t[1], t[2]))
  }

  /** AddPlayerToGroup(cmd) … GroupRevokePermission(cmd): the checks before the service is called. */
  function Parse(kind: Command, cmd: string): Result<Request>
  {
    ParseTokens(kind, Tokenize(cmd))
  }

  function KindOf(req: Request): Command
  {
    match req
    case AddPlayerReq(_, _) => AddPlayer
    case RemovePlayerReq(_, _) => RemovePlayer
    case AddPlayerTimedReq(_, _, _, _) => AddPlayerTimed
    case RemovePlayerTimedReq(_, _) => RemovePlayerTimed
    case AddTribeReq(_, _) => AddTribe
    case RemoveTribeReq(_, _) => RemoveTribe
    case AddTribeTimedReq(_, _, _, _) => AddTribeTimed
    case RemoveTribeTimedReq(_, _) => RemoveTribeTimed
    case AddGroupReq(_) => AddGroupCmd
    case RemoveGroupReq(_) => RemoveGroupCmd
    case GrantReq(_, _) => Grant
    case RevokeReq(_, _) => Revoke
  }

  // ---------------------------------------------------------------- properties of the checks

  /** Too few tokens: the command's syntax message, whatever the tokens say. */
  lemma ShortCommandRejected(kind: Command, cmd: string)
    requires |Tokenize(cmd)| < MinTokens(kind)
    ensures Parse(kind, cmd) == Failure(SyntaxMessage(kind))
  {
  }

  /** An accepted command had enough tokens, and its names are the tokens at their places. */
  lemma AcceptedFields(kind: Command, cmd: string)
    requires Parse(kind, cmd).Success?
    ensures var t := Tokenize(cmd); var req := Parse(kind, cmd).value;
      |t| >= MinTokens(kind) && KindOf(req) == kind
      && (req.AddPlayerReq? || req.RemovePlayerReq? || req.AddPlayerTimedReq? || req.RemovePlayerTimedReq?
          ==> req.eosId == t[1] && req.group == t[2])
      && (req.AddTribeReq? || req.RemoveTribeReq? || req.AddTribeTimedReq? || req.RemoveTribeTimedReq?
          ==> ParseNat(t[1]) == Some(req.tribeId) && req.group == t[2])
      && (req.AddGroupReq? || req.RemoveGroupReq? ==> req.group == t[1])
      && (req.GrantReq? || req.RevokeReq? ==> req.group == t[1] && req.permission == t[2])
  {
  }

  /** A tribe id that is not a run of digits is a parsing error. */
  lemma TribeIdMustBeNumeric(kind: Command, cmd: string)
    requires kind in {AddTribe, RemoveTribe, AddTribeTimed, RemoveTribeTimed}
    requires |Tokenize(cmd)| >= MinTokens(kind) && ParseNat(Tokenize(cmd)[1]).None?
    ensures Parse(kind, cmd) == Failure(ParsingError)
  {
  }

  /**
   * A timed command is accepted exactly when its hour counts are numbers and
   * neither the total nor the delay is negative; it then carries
   * `hours*3600 + delayHours*3600` and `delayHours*3600`.
   */
  lemma TimedArithmetic(cmd: string)
    requires |Tokenize(cmd)| >= 4
    ensures var t := Tokenize(cmd);
      var h := ParseInt(t[3]);
      var d := if |t| > 4 then ParseInt(t[4]) else Some(0);
      match Parse(AddPlayerTimed, cmd)
      case Success(req) =>
        h.Some? && d.Some? && req == AddPlayerTimedReq(t[1], t[2], h.value * 3600 + d.value * 3600, d.value * 3600)
        && req.secs >= 0 && req.delaySecs >= 0
      case Failure(e) =>
        if h.None? || d.None? then e == ParsingError
        else e == PlayerTimedSyntax && (h.value * 3600 + d.value * 3600 < 0 || d.value < 0)
  {
  }

  /**
   * The guard checks the sum, not the hours: "-1" hours with a delay of 2 is
   * accepted, as one hour of membership that only starts after two.
   */
  lemma NegativeHoursAccepted()
    ensures Parse(AddPlayerTimed, Join(" ", ["Permissions.AddTimed", "abc", "VIP", "-1", "2"]))
            == Success(AddPlayerTimedReq("abc", "VIP", 3600, 7200))
  {
    var t := NegativeHoursLine();
    CommandNamePiece(AddPlayerTimed);
    assert IntToString(-1) == "-1" && IntToString(2) == "2";
    forall i | 0 <= i < |t| ensures IsPiece(t[i], ' ') {
      if i == 0 {
        assert t[0] == CommandName(AddPlayerTimed);
      }
    }
    TokenizeJoin(t);
    ParseIntRoundTrip(-1);
    ParseIntRoundTrip(2);
    assert TimedSpan(t) == Success((3600, 7200));
  }

  function NegativeHoursLine(): seq<string>
  {
    [CommandName(AddPlayerTimed), "abc", "VIP", IntToString(-1), IntToString(2)]
  }

  /** …and the membership it records is never active. */
  lemma NegativeHoursNeverActive(db: Database, now: int, at: int)
    requires IsGroupExists(db, "VIP") && now >= 0
    ensures var u := AddToTimedGroup(db, Player("abc"), "VIP", 3600, 7200, now);
      var t := Hydrate(u.db, Player("abc")).timedGroups;
      |t| > 0 && !IsActive(t[|t| - 1], at)
  {
  }

  // ---------------------------------------------------------------- rendering, the inverse of the checks

  /** A request whose names are tokens and whose numbers a command line can spell. */
  ghost predicate Spellable(req: Request)
  {
    match req
    case AddPlayerReq(e, g) => IsPiece(e, ' ') && IsPiece(g, ' ')
    case RemovePlayerReq(e, g) => IsPiece(e, ' ') && IsPiece(g, ' ')
    case AddPlayerTimedReq(e, g, s, d) =>
      IsPiece(e, ' ') && IsPiece(g, ' ') && s >= 0 && d >= 0 && s % 3600 == 0 && d % 3600 == 0
    case RemovePlayerTimedReq(e, g) => IsPiece(e, ' ') && IsPiece(g, ' ')
    case AddTribeReq(id, g) => id >= 0 && IsPiece(g, ' ')
    case RemoveTribeReq(id, g) => id >= 0 && IsPiece(g, ' ')
    case AddTribeTimedReq(id, g, s, d) =>
      id >= 0 && IsPiece(g, ' ') && s >= 0 && d >= 0 && s % 3600 == 0 && d % 3600 == 0
    case RemoveTribeTimedReq(id, g) => id >= 0 && IsPiece(g, ' ')
    case AddGroupReq(g) => IsPiece(g, ' ')
    case RemoveGroupReq(g) => IsPiece(g, ' ')
    case GrantReq(g, p) => IsPiece(g, ' ') && IsPiece(p, ' ')
    case RevokeReq(g, p) => IsPiece(g, ' ') && IsPiece(p, ' ')
  }

  /** The tokens of a command line that asks for `req`. */
  function RenderTokens(req: Request): seq<string>
    requires Spellable(req)
  {
    match req
    case AddPlayerReq(e, g) => [CommandName(AddPlayer), e, g]
    case RemovePlayerReq(e, g) => [CommandName(RemovePlayer), e, g]
    case AddPlayerTimedReq(e, g, s, d) =>
      [CommandName(AddPlayerTimed), e, g, IntToString((s - d) / 3600), IntToString(d / 3600)]
    case RemovePlayerTimedReq(e, g) => [CommandName(RemovePlayerTimed), e, g]
    case AddTribeReq(id, g) => [CommandName(AddTribe), NatToString(id), g]
    case RemoveTribeReq(id, g) => [CommandName(RemoveTribe), NatToString(id), g]
    case AddTribeTimedReq(id, g, s, d) =>
      [CommandName(AddTribeTimed), NatToString(id), g, IntToString((s - d) / 3600), IntToString(d / 3600)]
    case RemoveTribeTimedReq(id, g) => [CommandName(RemoveTribeTimed), NatToString(id), g]
    case AddGroupReq(g) => [CommandName(AddGroupCmd), g]
    case RemoveGroupReq(g) => [CommandName(RemoveGroupCmd), g]
    case GrantReq(g, p) => [CommandName(Grant), g, p]
    case RevokeReq(g, p) => [CommandName(Revoke), g, p]
  }

  function Render(req: Request): string
    requires Spellable(req)
  {
    Join(" ", RenderTokens(req))
  }

  lemma RenderTokenizes(req: Request)
    requires Spellable(req)
    ensures Tokenize(Render(req)) == RenderTokens(req)
  {
    var t := RenderTokens(req);
    CommandNamePiece(KindOf(req));
    if req.AddTribeReq? || req.RemoveTribeReq? || req.AddTribeTimedReq? || req.RemoveTribeTimedReq? {
      DigitsNoSpace(NatToString(req.tribeId));
    }
    forall i | 0 <= i < |t| ensures IsPiece(t[i], ' ') {
      if i == 0 {
        assert t[0] == CommandName(KindOf(req));
      }
    }
    TokenizeJoin(t);
  }

  /** A command name is one token. */
  lemma CommandNamePiece(kind: Command)
    ensures IsPiece(CommandName(kind), ' ')
  {
  }

  /** Whole hours split back into the hours and the delay hours the line spells. */
  lemma WholeHours(s: int, d: int)
    requires s % 3600 == 0 && d % 3600 == 0
    ensures ((s - d) / 3600) * 3600 + (d / 3600) * 3600 == s && (d / 3600) * 3600 == d
  {
    var a := s / 3600;
    var b := d / 3600;
    assert s == a * 3600 && d == b * 3600;
    assert s - d == (a - b) * 3600;
    assert (s - d) / 3600 == a - b;
  }

  lemma TimedSpanRender(s: int, d: int, t: seq<string>)
    requires s % 3600 == 0 && d % 3600 == 0
    requires |t| == 5 && t[3] == IntToString((s - d) / 3600) && t[4] == IntToString(d / 3600)
    ensures TimedSpan(t) == Success((s, d))
  {
    ParseIntRoundTrip((s - d) / 3600);
    ParseIntRoundTrip(d / 3600);
    WholeHours(s, d);
  }

  /** Every spellable request is what the command line rendering it asks for. */
  lemma ParseRender(req: Request)
    requires Spellable(req)
    ensures Parse(KindOf(req), Render(req)) == Success(req)
  {
    RenderTokenizes(req);
    if req.AddPlayerReq? || req.RemovePlayerReq? || req.AddPlayerTimedReq? || req.RemovePlayerTimedReq? {
      ParsePlayerTokens(req);
    } else if req.AddTribeReq? || req.RemoveTribeReq? || req.AddTribeTimedReq? || req.RemoveTribeTimedReq? {
      ParseTribeTokens(req);
    } else {
      ParseGroupTokens(req);
    }
  }

  lemma ParsePlayerTokens(req: Request)
    requires Spellable(req)
    requires req.AddPlayerReq? || req.RemovePlayerReq? || req.AddPlayerTimedReq? || req.RemovePlayerTimedReq?
    ensures ParseTokens(KindOf(req), RenderTokens(req)) == Success(req)
  {
    if req.AddPlayerTimedReq? {
      TimedSpanRender(req.secs, req.delaySecs, RenderTokens(req));
    }
  }

  lemma ParseTribeTokens(req: Request)
    requires Spellable(req)
    requires req.AddTribeReq? || req.RemoveTribeReq? || req.AddTribeTimedReq? || req.RemoveTribeTimedReq?
    ensures ParseTokens(KindOf(req), RenderTokens(req)) == Success(req)
  {
    if req.AddTribeTimedReq? {
      ParseTribeTimedTokens(req);
    } else {
      ParseTribeUntimedTokens(req);
    }
  }

  lemma ParseTribeTimedTokens(req: Request)
    requires Spellable(req) && req.AddTribeTimedReq?
    ensures ParseTokens(KindOf(req), RenderTokens(req)) == Success(req)
  {
    ParseTribeTimed(req.tribeId, req.group, req.secs, req.delaySecs);
  }

  lemma ParseTribeUntimedTokens(req: Request)
    requires Spellable(req)
    requires req.AddTribeReq? || req.RemoveTribeReq? || req.RemoveTribeTimedReq?
    ensures ParseTokens(KindOf(req), RenderTokens(req)) == Success(req)
  {
    ParseNatRoundTrip(req.tribeId);
    ParseTribeUntimed(req, RenderTokens(req));
  }

  lemma ParseTribeUntimed(req: Request, t: seq<string>)
    requires req.AddTribeReq? || req.RemoveTribeReq? || req.RemoveTribeTimedReq?
    requires |t| == 3 && ParseNat(t[1]) == Some(req.tribeId) && t[2] == req.group
    ensures ParseTokens(KindOf(req), t) == Success(req)
  {
  }

  lemma ParseTribeTimed(id: nat, g: string, s: int, d: int)
    requires s % 3600 == 0 && d % 3600 == 0 && s >= 0 && d >= 0
    ensures var t := [CommandName(AddTribeTimed), NatToString(id), g, IntToString((s - d) / 3600), IntToString(d / 3600)];
      ParseTokens(AddTribeTimed, t) == Success(AddTribeTimedReq(id, g, s, d))
  {
    var t := [CommandName(AddTribeTimed), NatToString(id), g, IntToString((s - d) / 3600), IntToString(d / 3600)];
    ParseNatRoundTrip(id);
    TimedSpanRender(s, d, t);
  }

  lemma ParseGroupTokens(req: Request)
    requires Spellable(req)
    requires req.AddGroupReq? || req.RemoveGroupReq? || req.GrantReq? || req.RevokeReq?
    ensures ParseTokens(KindOf(req), RenderTokens(req)) == Success(req)
  {
  }

  // ---------------------------------------------------------------- running a request

  /** The store call each request makes. */
  function Effect(db: Database, req: Request, now: int): Update
  {
    match req
    case AddPlayerReq(e, g) => AddToGroup(db, Player(e), g)
    case RemovePlayerReq(e, g) => RemoveFromGroup(db, Player(e), g)
    case AddPlayerTimedReq(e, g, s, d) => AddToTimedGroup(db, Player(e), g, s, d, now)
    case RemovePlayerTimedReq(e, g) => RemoveFromTimedGroup(db, Player(e), g)
    case AddTribeReq(id, g) => AddToGroup(db, Tribe(id), g)
    case RemoveTribeReq(id, g) => RemoveFromGroup(db, Tribe(id), g)
    case AddTribeTimedReq(id, g, s, d) => AddToTimedGroup(db, Tribe(id), g, s, d, now)
    case RemoveTribeTimedReq(id, g) => RemoveFromTimedGroup(db, Tribe(id), g)
    case AddGroupReq(g) => Backend.AddGroup(db, g)
    case RemoveGroupReq(g) => Backend.RemoveGroup(db, g)
    case GrantReq(g, p) => Backend.GroupGrantPermission(db, g, p)
    case RevokeReq(g, p) => Backend.GroupRevokePermission(db, g, p)
  }

  /** The subscriber calls each request makes, seeing the store before and after. */
  function Notices(subs: seq<Entry<()>>, req: Request, before: Database, after: Database): seq<Delivery>
  {
    match req
    case AddPlayerReq(e, _) => NotifyEvents(subs, e, 0, after)
    case RemovePlayerReq(e, _) => NotifyEvents(subs, e, 0, before) + NotifyEvents(subs, e, 0, after)
    case AddPlayerTimedReq(e, _, _, _) => NotifyEvents(subs, e, 0, before) + NotifyEvents(subs, e, 0, after)
    case RemovePlayerTimedReq(e, _) => NotifyEvents(subs, e, 0, after)
    case AddTribeReq(id, _) => NotifyEvents(subs, "", id, after)
    case RemoveTribeReq(id, _) => NotifyEvents(subs, "", id, after)
    case AddTribeTimedReq(id, _, _, _) => NotifyEvents(subs, "", id, after)
    case RemoveTribeTimedReq(id, _) => NotifyEvents(subs, "", id, after)
    case _ => []
  }

  /**
   * The parser and then the service: a command line that fails its checks
   * changes nothing and notifies nobody; the others make their store call,
   * notify as their wrapper does, and return the store's error.
   */
  method Execute(svc: Service, kind: Command, cmd: string, now: int) returns (result: Option<string>)
    modifies svc`db, svc`deliveries
    ensures Parse(kind, cmd).Failure? ==>
      result == Some(Parse(kind, cmd).error) && svc.db == old(svc.db) && svc.deliveries == old(svc.deliveries)
    ensures Parse(kind, cmd).Success? ==>
      var req := Parse(kind, cmd).value;
      var u := Effect(old(svc.db), req, now);
      result == u.error && svc.db == u.db
      && svc.deliveries == old(svc.deliveries) + Notices(svc.subscribers, req, old(svc.db), u.db)
  {
    var parsed := Parse(kind, cmd);
    if parsed.Failure? {
      return Some(parsed.error);
    }
    var req := parsed.value;
    if req.AddPlayerReq? || req.RemovePlayerReq? || req.AddPlayerTimedReq? || req.RemovePlayerTimedReq? {
      result := ExecutePlayer(svc, req, now);
    } else if req.AddTribeReq? || req.RemoveTribeReq? || req.AddTribeTimedReq? || req.RemoveTribeTimedReq? {
      result := ExecuteTribe(svc, req, now);
    } else {
      result := ExecuteGroup(svc, req);
    }
  }

  method ExecutePlayer(svc: Service, req: Request, now: int) returns (result: Option<string>)
    requires req.AddPlayerReq? || req.RemovePlayerReq? || req.AddPlayerTimedReq? || req.RemovePlayerTimedReq?
    modifies svc`db, svc`deliveries
    ensures var u := Effect(old(svc.db), req, now);
      result == u.error && svc.db == u.db
      && svc.deliveries == old(svc.deliveries) + Notices(svc.subscribers, req, old(svc.db), u.db)
  {
    ghost var before := svc.db;
    match req {
      case AddPlayerReq(e, g) =>
        assert Effect(before, req, now) == AddToGroup(before, Player(e), g);
        result := svc.AddPlayerToGroup(e, g);
      case RemovePlayerReq(e, g) =>
        assert Effect(before, req, now) == RemoveFromGroup(before, Player(e), g);
        result := svc.RemovePlayerFromGroup(e, g);
      case AddPlayerTimedReq(e, g, s, d) =>
        assert Effect(before, req, now) == AddToTimedGroup(before, Player(e), g, s, d, now);
        result := svc.AddPlayerToTimedGroup(e, g, s, d, now);
      case RemovePlayerTimedReq(e, g) =>
        assert Effect(before, req, now) == RemoveFromTimedGroup(before, Player(e), g);
        result := svc.RemovePlayerFromTimedGroup(e, g);
    }
  }

  method ExecuteTribe(svc: Service, req: Request, now: int) returns (result: Option<string>)
    requires req.AddTribeReq? || req.RemoveTribeReq? || req.AddTribeTimedReq? || req.RemoveTribeTimedReq?
    modifies svc`db, svc`deliveries
    ensures var u := Effect(old(svc.db), req, now);
      result == u.error && svc.db == u.db
      && svc.deliveries == old(svc.deliveries) + Notices(svc.subscribers, req, old(svc.db), u.db)
  {
    match req {
      case AddTribeReq(id, g) => result := svc.AddTribeToGroup(id, g);
      case RemoveTribeReq(id, g) => result := svc.RemoveTribeFromGroup(id, g);
      case AddTribeTimedReq(id, g, s, d) => result := svc.AddTribeToTimedGroup(id, g, s, d, now);
      case RemoveTribeTimedReq(id, g) => result := svc.RemoveTribeFromTimedGroup(id, g);
    }
  }

  method ExecuteGroup(svc: Service, req: Request) returns (result: Option<string>)
    requires req.AddGroupReq? || req.RemoveGroupReq? || req.GrantReq? || req.RevokeReq?
    modifies svc`db
    ensures var u := Effect(old(svc.db), req, 0);
      result == u.error && svc.db == u.db && Notices(svc.subscribers, req, old(svc.db), u.db) == []
  {
    match req {
      case AddGroupReq(g) => result := svc.AddGroup(g);
      case RemoveGroupReq(g) => result := svc.RemoveGroup(g);
      case GrantReq(g, p) => result := svc.GroupGrantPermission(g, p);
      case RevokeReq(g, p) => result := svc.GroupRevokePermission(g, p);
    }
  }

  /** Group-level commands notify nobody; membership commands notify every subscriber. */
  lemma GroupCommandsSilent(subs: seq<Entry<()>>, req: Request, before: Database, after: Database)
    ensures Notices(subs, req, before, after) == []
            <==> req.AddGroupReq? || req.RemoveGroupReq? || req.GrantReq? || req.RevokeReq? || |subs| == 0
    ensures (req.RemovePlayerReq? || req.AddPlayerTimedReq?) ==> |Notices(subs, req, before, after)| == 2 * |subs|
    ensures (req.AddPlayerReq? || req.RemovePlayerTimedReq? || req.AddTribeReq? || req.RemoveTribeReq?
             || req.AddTribeTimedReq? || req.RemoveTribeTimedReq?) ==> |Notices(subs, req, before, after)| == |subs|
  {
  }

  // ---------------------------------------------------------------- replies

  /** What the console command reports on success. */
  function ChatSuccess(kind: Command): string
  {
    match kind
    case AddPlayer => "Successfully added player."
    case RemovePlayer => "Successfully removed player."
    case AddPlayerTimed => "Successfully added player to timed group."
    case RemovePlayerTimed => "Successfully aremoved player from timed group."
    case AddTribe => "Successfully added tribe."
    case RemoveTribe => "Successfully removed tribe."
    case AddTribeTimed => "Successfully added tribe to timed group."
    case RemoveTribeTimed => "Successfully removed tribe from timed group."
    case AddGroupCmd => "Successfully added group"
    case RemoveGroupCmd => "Successfully removed group"
    case Grant => "Successfully granted permission"
    case Revoke => "Successfully revoked permission"
  }

  /** What the RCON command reports on success; it differs from the console text once. */
  function RconSuccess(kind: Command): (r: string)
    ensures kind != RemoveTribeTimed ==> r == ChatSuccess(kind)
  {
    if kind == RemoveTribeTimed then "Successfully aremoved tribe from timed group." else ChatSuccess(kind)
  }

  /** The RCON reply: the error if there is one, otherwise the success text. */
  function RconReply(kind: Command, result: Option<string>): (r: string)
    ensures result.Some? ==> r == result.value
    ensures result.None? ==> r == RconSuccess(kind)
  {
    match result
    case Some(e) => e
    case None => RconSuccess(kind)
  }

  datatype Channel = Notification | ServerMessage
  datatype Color = Red | Green

  /** A message shown to the player who typed the command. */
  datatype Shown = Shown(channel: Channel, color: Color, text: string)

  /** The two switches read from the configuration. */
  datatype MessageSettings = MessageSettings(hideAllPlayerSuccessMessages: bool, sendMessagesAsNotification: bool)

  /** HandlePlayerMessage(player_controller, result, message). */
  function HandlePlayerMessage(settings: MessageSettings, result: Option<string>, message: string): (r: Option<Shown>)
    ensures result.Some? ==> r == Some(Shown(if settings.sendMessagesAsNotification then Notification else ServerMessage,
                                             Red, result.value))
    ensures result.None? && settings.hideAllPlayerSuccessMessages ==> r.None?
    ensures result.None? && !settings.hideAllPlayerSuccessMessages ==>
      r == Some(Shown(if settings.sendMessagesAsNotification then Notification else ServerMessage, Green, message))
  {
    if settings.sendMessagesAsNotification && result.Some? then Some(Shown(Notification, Red, result.value))
    else if !settings.sendMessagesAsNotification && result.Some? then Some(Shown(ServerMessage, Red, result.value))
    else if !settings.hideAllPlayerSuccessMessages && settings.sendMessagesAsNotification then
      Some(Shown(Notification, Green, message))
    else if !settings.hideAllPlayerSuccessMessages then Some(Shown(ServerMessage, Green, message))
    else None
  }

  /** Something is shown unless a success is hidden; it is red exactly for an error. */
  lemma MessageRouting(settings: MessageSettings, result: Option<string>, message: string)
    ensures HandlePlayerMessage(settings, result, message).None?
            <==> result.None? && settings.hideAllPlayerSuccessMessages
    ensures HandlePlayerMessage(settings, result, message).Some? ==>
      (HandlePlayerMessage(settings, result, message).value.color == Red <==> result.Some?)
      && (HandlePlayerMessage(settings, result, message).value.channel == Notification
          <==> settings.sendMessagesAsNotification)
  {
  }

  // ---------------------------------------------------------------- the two query commands

  /** PlayerGroups(cmd): the player text of the second token, or nothing. */
  function PlayerGroupsReply(db: Database, cmd: string, world: World, now: int): (r: string)
    ensures |Tokenize(cmd)| < 2 ==> r == ""
    ensures |Tokenize(cmd)| >= 2 ==> r == PlayerGroupsStr(db, Tokenize(cmd)[1], false, world, now)
    ensures r != "" ==> |Tokenize(cmd)| >= 2 && IsPlayerExists(db, Tokenize(cmd)[1])
  {
    var parsed := Tokenize(cmd);
    if |parsed| < 2 then "" else PlayerGroupsStr(db, parsed[1], false, world, now)
  }

  /** TribeGroups(cmd): the tribe text of the tribe id in the second token, without defaults. */
  function TribeGroupsReply(db: Database, cmd: string, now: int): (r: string)
    ensures |Tokenize(cmd)| < 2 || ParseNat(Tokenize(cmd)[1]).None? ==> r == ""
    ensures |Tokenize(cmd)| >= 2 && ParseNat(Tokenize(cmd)[1]).Some? ==>
      r == TribeGroupsStr(db, "", ParseNat(Tokenize(cmd)[1]).value, false, now)
    ensures r != "" ==> (|Tokenize(cmd)| >= 2 && ParseNat(Tokenize(cmd)[1]).Some?
                         && IsTribeExists(db, ParseNat(Tokenize(cmd)[1]).value)
                         && |r| >= |TribeHeader| && r[..|TribeHeader|] == TribeHeader)
  {
    var parsed := Tokenize(cmd);
    if |parsed| < 2 then ""
    else
      match ParseNat(parsed[1])
      case None => ""
      case Some(id) => TribeGroupsStr(db, "", id, false, now)
  }
}

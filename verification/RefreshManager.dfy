/** The session manager behind a page's clients: one token in memory, at most one refresh
    in flight. The code between two awaits is one step here. */
module RefreshManager {
  import opened Text
  import opened SessionStorage

  datatype TokenResult = TokenResult(token: string, expiresIn: int, agentIds: seq<string>, userId: string)

  datatype Seed = Seed(jwt: string, expiresAt: int, agentIds: seq<string>, userId: string)

  /** A well-formed refresh response: the next token, and the refresh token that replaces the
      one submitted. */
  datatype Grant = Grant(result: TokenResult, refreshToken: string)

  /** How the refresh request ended. A 2xx status alone changes nothing before its body has
      been read, so both awaits of a success are one here. */
  datatype Answer = NoConnection | Unauthorized | VersionRejected | NotOk | Malformed | Success(grant: Grant)

  datatype Result = Ok(value: TokenResult) | Err(code: string)

  const REFRESH_LEEWAY_MS := 10_000

  datatype Manager = Manager(partitionKey: string, currentToken: Option<string>, currentExpiresAt: int,
                             currentAgentIds: seq<string>, currentUserId: Option<string>,
                             inFlight: Option<nat>, cleared: bool)

  function NewManager(partitionKey: string): Manager {
    Manager(partitionKey, None, 0, [], None, None, false)
  }

  function Cleared(m: Manager): Manager {
    m.(cleared := true, currentToken := None, currentExpiresAt := 0, currentAgentIds := [], currentUserId := None)
  }

  function Seeded(m: Manager, s: Seed): Manager {
    m.(cleared := false, currentToken := Some(s.jwt), currentExpiresAt := s.expiresAt,
       currentAgentIds := s.agentIds, currentUserId := Some(s.userId))
  }

  predicate Fresh(m: Manager, now: int) {
    m.currentToken.Some? && m.currentToken.value != "" && now + REFRESH_LEEWAY_MS < m.currentExpiresAt
  }

  /** What a caller of tokenProvider or forceRefresh gets at once: a refusal, the cached
      token, a share in the refresh under way, or a new refresh, which fails without a
      request when no refresh token is stored. */
  datatype Reply =
    | Refused(code: string)
    | Cached(result: TokenResult)
    | Joined(refresh: nat)
    | Requested(refresh: nat, submitted: string)
    | NothingToSubmit(refresh: nat)

  function Snapshot(m: Manager, now: int): Reply {
    if m.currentToken.None? || m.currentToken.value == "" || m.currentUserId.None? then Refused("NO_REFRESH_TOKEN")
    else
      var expiresIn := (m.currentExpiresAt - now) / 1000;
      Cached(TokenResult(m.currentToken.value, if expiresIn < 1 then 1 else expiresIn,
                         m.currentAgentIds, m.currentUserId.value))
  }

  function ReplyTo(m: Manager, stored: Option<SessionData>, now: int, forced: bool, id: nat): Reply {
    if m.cleared then Refused("NO_REFRESH_TOKEN")
    else if m.inFlight.Some? then Joined(m.inFlight.value)
    else if !forced && Fresh(m, now) then Snapshot(m, now)
    else if stored.None? || stored.value.refreshToken == "" then NothingToSubmit(id)
    else Requested(id, stored.value.refreshToken)
  }

  function AfterReply(m: Manager, r: Reply): Manager {
    if r.Requested? || r.NothingToSubmit? then m.(inFlight := Some(r.refresh)) else m
  }

  function Rotated(m: Manager, g: TokenResult, now: int): Manager {
    m.(cleared := false, currentToken := Some(g.token), currentExpiresAt := now + g.expiresIn * 1000,
       currentAgentIds := g.agentIds, currentUserId := Some(g.userId))
  }

  /** The manager once an answer has been dealt with. */
  function Absorbed(m: Manager, a: Answer, now: int): Manager {
    match a
    case Unauthorized => Cleared(m)
    case Success(g) => if m.cleared then m else Rotated(m, g.result, now)
    case _ => m
  }

  /** The partition's session once an answer has been dealt with. */
  function StoredAfter(m: Manager, stored: Option<SessionData>, a: Answer): Option<SessionData> {
    match a
    case Unauthorized => None
    case Success(g) =>
      if m.cleared || stored.None? then stored
      else Some(stored.value.(agentIds := g.result.agentIds, userId := g.result.userId, refreshToken := g.refreshToken))
    case _ => stored
  }

  /** How the callers' promise settles. */
  function Outcome(m: Manager, a: Answer): Result {
    match a
    case Unauthorized => Err("REFRESH_FAILED")
    case VersionRejected => Err("PROTOCOL_VERSION_REJECTED")
    case Success(g) => if m.cleared then Err("NO_REFRESH_TOKEN") else Ok(g.result)
    case _ => Err("REFRESH_NETWORK_ERROR")
  }

  class EmbeddedAuthSessionManager {
    const storage: StorageBackend
    const partitionKey: string
    var currentToken: Option<string>
    var currentExpiresAt: int
    var currentAgentIds: seq<string>
    var currentUserId: Option<string>
    var inFlight: Option<nat>
    var cleared: bool
    /** How often onAuthError was called since the last seed. */
    ghost var authErrors: nat

    function State(): Manager
      reads this
    {
      Manager(partitionKey, currentToken, currentExpiresAt, currentAgentIds, currentUserId, inFlight, cleared)
    }

    /** onAuthError fires at most once between seeds: once it has, the manager is cleared
        and its refresh settled, so no other can begin. */
    ghost predicate Valid(awaiting: bool)
      reads this
    {
      && (awaiting ==> inFlight.Some?)
      && authErrors <= 1
      && (authErrors == 1 ==> cleared && !awaiting)
      && (cleared ==> currentToken == None)
    }

    constructor (storage: StorageBackend, partitionKey: string)
      ensures this.storage == storage && State() == NewManager(partitionKey) && Valid(false)
    {
      this.storage, this.partitionKey := storage, partitionKey;
      currentToken, currentExpiresAt, currentAgentIds, currentUserId := None, 0, [], None;
      inFlight, cleared, authErrors := None, false, 0;
    }

    method SeedFromEnvelope(s: Seed, ghost awaiting: bool)
      requires Valid(awaiting)
      modifies this
      ensures State() == Seeded(old(State()), s) && authErrors == 0 && Valid(awaiting)
    {
      cleared := false;
      currentToken, currentExpiresAt := Some(s.jwt), s.expiresAt;
      currentAgentIds, currentUserId := s.agentIds, Some(s.userId);
      authErrors := 0;
    }

    method Clear(ghost awaiting: bool)
      requires Valid(awaiting)
      modifies this
      ensures State() == Cleared(old(State())) && authErrors == old(authErrors) && Valid(awaiting)
    {
      cleared := true;
      currentToken, currentExpiresAt, currentAgentIds, currentUserId := None, 0, [], None;
    }

    /** refreshDeduped, and doRefresh up to its fetch. id names the new promise. */
    method RefreshDeduped(id: nat) returns (reply: Reply)
      modifies this`inFlight, storage, storage.store
      ensures old(inFlight).Some? ==> reply == Joined(old(inFlight).value)
      ensures old(inFlight).None? ==> reply == var stored := old(Stored(storage.Contents(), partitionKey));
                if stored.None? || stored.value.refreshToken == "" then NothingToSubmit(id)
                else Requested(id, stored.value.refreshToken)
      ensures State() == AfterReply(old(State()), reply)
    {
      if inFlight.Some? {
        return Joined(inFlight.value);
      }
      var session := storage.GetSession(partitionKey);
      inFlight := Some(id);
      if session.None? || session.value.refreshToken == "" {
        return NothingToSubmit(id);
      }
      return Requested(id, session.value.refreshToken);
    }

    method TokenProvider(now: int, id: nat, ghost awaiting: bool) returns (reply: Reply)
      requires Valid(awaiting)
      modifies this`inFlight, storage, storage.store
      ensures reply == ReplyTo(old(State()), old(Stored(storage.Contents(), partitionKey)), now, false, id)
      ensures State() == AfterReply(old(State()), reply)
      ensures Valid(awaiting || reply.Requested?)
    {
      if cleared {
        return Refused("NO_REFRESH_TOKEN");
      }
      if inFlight.Some? {
        return Joined(inFlight.value);
      }
      if Fresh(State(), now) {
        return Snapshot(State(), now);
      }
      reply := RefreshDeduped(id);
    }

    method ForceRefresh(now: int, id: nat, ghost awaiting: bool) returns (reply: Reply)
      requires Valid(awaiting)
      modifies this`inFlight, storage, storage.store
      ensures reply == ReplyTo(old(State()), old(Stored(storage.Contents(), partitionKey)), now, true, id)
      ensures State() == AfterReply(old(State()), reply)
      ensures Valid(awaiting || reply.Requested?)
    {
      if cleared {
        return Refused("NO_REFRESH_TOKEN");
      }
      reply := RefreshDeduped(id);
    }

    /** doRefresh from the answer on. Whatever happened to the manager in the meantime, a
        cleared one takes no token and stores none. */
    method OnAnswer(a: Answer, now: int) returns (outcome: Result)
      requires Valid(true) && Agreement(storage.Contents())
      modifies this, storage, storage.store
      ensures State() == Absorbed(old(State()), a, now)
      ensures Stored(storage.Contents(), partitionKey)
           == StoredAfter(old(State()), old(Stored(storage.Contents(), partitionKey)), a)
      ensures outcome == Outcome(old(State()), a)
      ensures a.NoConnection? || a.NotOk? || a.Malformed? || a.VersionRejected? ==>
        && outcome == Err(if a.VersionRejected? then "PROTOCOL_VERSION_REJECTED" else "REFRESH_NETWORK_ERROR")
        && State() == old(State()) && storage.Contents() == old(storage.Contents())
      ensures a.Unauthorized? ==> outcome == Err("REFRESH_FAILED") && cleared && currentToken == None
                                  && Stored(storage.Contents(), partitionKey) == None
      ensures a.Success? && old(cleared) ==> outcome == Err("NO_REFRESH_TOKEN") && State() == old(State())
      ensures a.Success? && !old(cleared) ==>
        && outcome == Ok(a.grant.result) && !cleared && currentToken == Some(a.grant.result.token)
        && currentExpiresAt == now + 1000 * a.grant.result.expiresIn
      ensures Agreement(storage.Contents())
      ensures old(cleared) && a.Success? ==> storage.Contents() == old(storage.Contents())
      ensures authErrors == old(authErrors) + (if a.Unauthorized? then 1 else 0) && Valid(false)
    {
      match a {
        case Unauthorized =>
          storage.Clear(partitionKey);
          Clear(true);
          authErrors := authErrors + 1;
          return Err("REFRESH_FAILED");
        case VersionRejected =>
          return Err("PROTOCOL_VERSION_REJECTED");
        case Success(g) =>
          if cleared {
            return Err("NO_REFRESH_TOKEN");
          }
          currentToken, currentExpiresAt := Some(g.result.token), now + g.result.expiresIn * 1000;
          currentAgentIds, currentUserId := g.result.agentIds, Some(g.result.userId);
          cleared := false;
          storage.UpdateScope(partitionKey, g.result.agentIds, g.result.userId, g.refreshToken);
          return Ok(g.result);
        case _ =>
          return Err("REFRESH_NETWORK_ERROR");
      }
    }

    /** The promise's finally. */
    method Finally()
      requires Valid(false)
      modifies this`inFlight
      ensures State() == old(State()).(inFlight := None) && Valid(false)
    {
      inFlight := None;
    }
  }
}

// The server's first session handler: the decision on a client's authentication
// request, the permissions read from its connection token, and the reaction to a packet
// that fails to deserialize.

module InitialSession {
  import opened Voxel
  import opened Version

  datatype AuthError = InvalidToken | ProtocolError | UpgradeRequired | ServerIsOutdated | InternalError

  datatype DisconnectionType = Later | Kick

  /** A permission is the bit it occupies in the player's permission flags. */
  type PlayerPermission = nat

  type Uuid = seq<bv8>

  /** The player part of a decrypted connection token. */
  datatype TokenPlayer = TokenPlayer(
    uuid: Uuid, nickname: string, permissions: seq<string>, apiUrl: string, refreshToken: string)

  /** The token of an authentication request. For an authenticated player, `decrypted`
      is what authenticating and decrypting the connection token with the server's key
      gives: `None` for every failure. */
  datatype AuthToken =
    | AnonymousPlayer(nickname: string)
    | AuthenticatedPlayer(decrypted: Option<TokenPlayer>)

  datatype AuthRequest = AuthRequest(gameVersion: nat, token: AuthToken)

  /** What the server compares a request against: the oldest accepted client version,
      the server's own build, and the packing of version numbers. */
  datatype ServerBuild = ServerBuild(
    requiredClientVersion: nat, build: BuildData, buildVersion: (nat, nat, nat) -> nat)

  /** How an auth request ends: refused by one of the checks, refused after the
      checks passed and the protocol version was set because no player could be
      created, or accepted. */
  datatype AuthOutcome =
    | Rejected(error: AuthError)
    | CreationFailed(protocolVersion: nat)
    | Accepted(uuid: Option<Uuid>, login: string, permissions: set<PlayerPermission>, protocolVersion: nat)

  /** Messages a rejected or accepted session receives, in order. */
  datatype SessionAction =
    | SendAuthResponse(result: Result<(), AuthError>)
    | SetProtocolVersion(version: nat)
    | SendNetworkStrings
    | StartPlayerSession
    | Disconnect(kind: DisconnectionType)

  const MaxProtocolVersion: nat := 0xFFFF_FFFF

  // ---------------------------------------------------------------------------
  // Trimming

  /** Characters with Unicode's White_Space property. */
  predicate IsSpace(c: char) {
    || '\U{9}' <= c <= '\U{D}' || c == ' ' || c == '\U{85}' || c == '\U{A0}' || c == '\U{1680}'
    || '\U{2000}' <= c <= '\U{200A}' || c == '\U{2028}' || c == '\U{2029}' || c == '\U{202F}'
    || c == '\U{205F}' || c == '\U{3000}'
  }

  function TrimStart(s: string): (t: string)
    ensures |t| <= |s| && t == s[|s| - |t|..]
    ensures t == [] || !IsSpace(t[0])
  {
    if s != [] && IsSpace(s[0]) then TrimStart(s[1..]) else s
  }

  function TrimEnd(s: string): (t: string)
    ensures |t| <= |s| && t == s[..|t|]
    ensures t == [] || !IsSpace(t[|t| - 1])
  {
    if s != [] && IsSpace(s[|s| - 1]) then TrimEnd(s[..|s| - 1]) else s
  }

  /** Whitespace removed from both ends. */
  function Trim(s: string): string {
    TrimEnd(TrimStart(s))
  }

  /** A text is its own trimmed form exactly when it is empty or starts and ends with
      something other than whitespace. */
  lemma TrimmedIff(s: string)
    ensures s == Trim(s) <==> (s == [] || (!IsSpace(s[0]) && !IsSpace(s[|s| - 1])))
  {
    if s != [] && !IsSpace(s[0]) && !IsSpace(s[|s| - 1]) {
      assert TrimStart(s) == s;
      assert TrimEnd(s) == s;
    }
  }

  // ---------------------------------------------------------------------------
  // Permissions

  /** The flags named by a token's permission strings; `fromString` recognises the
      known names, and the others add nothing. */
  function PermissionsOf(names: seq<string>, fromString: string -> Option<PlayerPermission>): set<PlayerPermission> {
    if names == [] then {}
    else
      var known := fromString(names[|names| - 1]);
      PermissionsOf(names[..|names| - 1], fromString) + (if known.Some? then {known.value} else {})
  }

  /** A flag is set exactly when some string of the token names it. */
  lemma {:induction false} PermissionsOfIff(names: seq<string>, fromString: string -> Option<PlayerPermission>, p: PlayerPermission)
    ensures p in PermissionsOf(names, fromString) <==> exists i :: 0 <= i < |names| && fromString(names[i]) == Some(p)
  {
    if names != [] {
      var front := names[..|names| - 1];
      PermissionsOfIff(front, fromString, p);
      if p in PermissionsOf(front, fromString) {
        var i :| 0 <= i < |front| && fromString(front[i]) == Some(p);
        assert names[i] == front[i];
      }
      if exists i :: 0 <= i < |names| && fromString(names[i]) == Some(p) {
        var i :| 0 <= i < |names| && fromString(names[i]) == Some(p);
        if i < |front| {
          assert front[i] == names[i];
        }
      }
    }
  }

  /** The loop over the token's permission strings, OR-ing each known one into the
      flags and skipping unknown ones. */
  method AccumulatePermissions(names: seq<string>, fromString: string -> Option<PlayerPermission>)
    returns (flags: set<PlayerPermission>)
    ensures flags == PermissionsOf(names, fromString)
  {
    flags := {};
    for i := 0 to |names|
      invariant flags == PermissionsOf(names[..i], fromString)
    {
      assert names[..i + 1][..i] == names[..i];
      var permission := fromString(names[i]);
      if permission.Some? {
        flags := flags + {permission.value};
      }
    }
    assert names[..|names|] == names;
  }

  // ---------------------------------------------------------------------------
  // The authentication decision

  /** The login the request carries: the anonymous nickname, or the one inside a
      valid token. */
  function LoginOf(token: AuthToken): string {
    match token
    case AnonymousPlayer(nickname) => nickname
    case AuthenticatedPlayer(decrypted) => if decrypted.Some? then decrypted.value.nickname else ""
  }

  function UuidOf(token: AuthToken): Option<Uuid> {
    match token
    case AnonymousPlayer(_) => None
    case AuthenticatedPlayer(decrypted) => if decrypted.Some? then Some(decrypted.value.uuid) else None
  }

  function FlagsOf(token: AuthToken, fromString: string -> Option<PlayerPermission>): set<PlayerPermission> {
    match token
    case AnonymousPlayer(_) => {}
    case AuthenticatedPlayer(decrypted) => if decrypted.Some? then PermissionsOf(decrypted.value.permissions, fromString) else {}
  }

  /** `HandlePacket(AuthRequest)`: the token, then the login, then a too old client,
      then a client newer than the server, then the creation of the player; the first
      check that fails decides. `playerCreated` is whether the server instance could
      create the player, which is tried only after the protocol version is set. */
  function Authenticate(req: AuthRequest, server: ServerBuild, fromString: string -> Option<PlayerPermission>, playerCreated: bool): (o: AuthOutcome)
    ensures !o.Rejected? ==> LoginOf(req.token) != [] && LoginOf(req.token) == Trim(LoginOf(req.token))
    ensures !o.Rejected? ==> server.requiredClientVersion <= req.gameVersion <= GameVersion(server.build, server.buildVersion)
    ensures !o.Rejected? ==> o.protocolVersion == ProtocolFor(req, server)
    ensures o.CreationFailed? <==> !o.Rejected? && !playerCreated
    ensures o.Accepted? ==> o.login == LoginOf(req.token)
    ensures o.Accepted? ==> o.uuid == UuidOf(req.token) && o.permissions == FlagsOf(req.token, fromString)
    ensures req.token.AuthenticatedPlayer? && req.token.decrypted.None? ==> o == Rejected(InvalidToken)
  {
    if req.token.AuthenticatedPlayer? && req.token.decrypted.None? then Rejected(InvalidToken)
    else
      var login := LoginOf(req.token);
      if login == [] || login != Trim(login) then Rejected(ProtocolError)
      else if req.gameVersion < server.requiredClientVersion then Rejected(UpgradeRequired)
      else if req.gameVersion > GameVersion(server.build, server.buildVersion) then Rejected(ServerIsOutdated)
      else if !playerCreated then CreationFailed(ProtocolFor(req, server))
      else Accepted(UuidOf(req.token), login, FlagsOf(req.token, fromString), ProtocolFor(req, server))
  }

  /** The protocol version the session is given once the checks pass: the
      client's version, or the largest one on a development server. */
  function ProtocolFor(req: AuthRequest, server: ServerBuild): nat {
    if IsDevVersion(server.build.branch) then MaxProtocolVersion else req.gameVersion
  }

  /** Every check the request fails, in the order the handler runs them. */
  function Failures(req: AuthRequest, server: ServerBuild, playerCreated: bool): seq<AuthError> {
    var login := LoginOf(req.token);
    (if req.token.AuthenticatedPlayer? && req.token.decrypted.None? then [InvalidToken] else [])
    + (if login == [] || login != Trim(login) then [ProtocolError] else [])
    + (if req.gameVersion < server.requiredClientVersion then [UpgradeRequired] else [])
    + (if req.gameVersion > GameVersion(server.build, server.buildVersion) then [ServerIsOutdated] else [])
    + (if !playerCreated then [InternalError] else [])
  }

  /** The outcome is the first failed check, and acceptance means none failed;
      a failed creation of the player, the last check, keeps the protocol version
      set before it. */
  lemma FirstFailureDecides(req: AuthRequest, server: ServerBuild, fromString: string -> Option<PlayerPermission>, playerCreated: bool)
    ensures var f := Failures(req, server, playerCreated);
            Authenticate(req, server, fromString, playerCreated) ==
              if f == [] then Accepted(UuidOf(req.token), LoginOf(req.token), FlagsOf(req.token, fromString), ProtocolFor(req, server))
              else if f[0] == InternalError then CreationFailed(ProtocolFor(req, server))
              else Rejected(f[0])
  {
    var login := LoginOf(req.token);
    var f := Failures(req, server, playerCreated);
    var tail := (if req.gameVersion < server.requiredClientVersion then [UpgradeRequired] else [])
      + (if req.gameVersion > GameVersion(server.build, server.buildVersion) then [ServerIsOutdated] else [])
      + (if !playerCreated then [InternalError] else []);
    if req.token.AuthenticatedPlayer? && req.token.decrypted.None? {
      assert f[0] == InvalidToken;
    } else if login == [] || login != Trim(login) {
      assert f[0] == ProtocolError;
    } else {
      assert f == tail;
    }
  }

  /** A client older than required is told to upgrade whatever the server's own
      version, so a server older than its own requirement still sends UpgradeRequired. */
  lemma TooOldBeforeTooNew(req: AuthRequest, server: ServerBuild, fromString: string -> Option<PlayerPermission>, playerCreated: bool)
    requires !(req.token.AuthenticatedPlayer? && req.token.decrypted.None?)
    requires LoginOf(req.token) != [] && LoginOf(req.token) == Trim(LoginOf(req.token))
    requires req.gameVersion < server.requiredClientVersion
    ensures Authenticate(req, server, fromString, playerCreated) == Rejected(UpgradeRequired)
  {
  }

  /** The token is registered with the API component as soon as it decrypts, before
      the login and version checks. */
  function TokenRegistration(req: AuthRequest): (r: Option<TokenPlayer>)
    ensures r.Some? <==> req.token.AuthenticatedPlayer? && req.token.decrypted.Some?
  {
    if req.token.AuthenticatedPlayer? then req.token.decrypted else None
  }

  /** What the session is sent: a rejection by a check is answered and the session
      is closed once the answer has gone; once the checks pass the protocol version
      is set first, then either the failed creation is answered with InternalError
      and the session closed later, or the session is answered Ok, sent the network
      strings and handed to a player handler. */
  function AuthActions(o: AuthOutcome): (acts: seq<SessionAction>)
    ensures o.Rejected? ==> acts == [SendAuthResponse(Err(o.error)), Disconnect(Later)]
    ensures !o.Rejected? ==> |acts| > 0 && acts[0] == SetProtocolVersion(o.protocolVersion)
    ensures o.CreationFailed? ==> acts[1..] == [SendAuthResponse(Err(InternalError)), Disconnect(Later)]
    ensures o.Accepted? ==> acts[|acts| - 1] == StartPlayerSession && Disconnect(Later) !in acts && Disconnect(Kick) !in acts
    ensures SendAuthResponse(Ok(())) in acts <==> o.Accepted?
    ensures Disconnect(Later) in acts <==> !o.Accepted?
  {
    match o
    case Rejected(error) => [SendAuthResponse(Err(error)), Disconnect(Later)]
    case CreationFailed(protocol) => [SetProtocolVersion(protocol), SendAuthResponse(Err(InternalError)), Disconnect(Later)]
    case Accepted(_, _, _, protocol) => [SetProtocolVersion(protocol), SendAuthResponse(Ok(())), SendNetworkStrings, StartPlayerSession]
  }

  /** `OnDeserializationError`: a broken AuthRequest is answered with ProtocolError
      and closed later; any other broken packet kicks the peer. */
  function OnDeserializationError(packetIndex: nat, authRequestIndex: nat): (acts: seq<SessionAction>)
    ensures packetIndex == authRequestIndex <==> acts == [SendAuthResponse(Err(ProtocolError)), Disconnect(Later)]
    ensures packetIndex != authRequestIndex <==> acts == [Disconnect(Kick)]
  {
    if packetIndex == authRequestIndex then [SendAuthResponse(Err(ProtocolError)), Disconnect(Later)]
    else [Disconnect(Kick)]
  }
}

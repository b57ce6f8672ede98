/** Authorization codes, grants, refresh tokens and access tokens, one request at a time. */
module OauthGrants {
  import opened Wrappers

  // OauthServer runs the handlers statement by statement against the four tables; each handler is proved to do what
  // a function of the tables says. What any run of requests keeps is then proved about those functions. Storage
  // calls succeed.
  //
  // Codes and tokens are named by their hashes, which is all that is stored. What other parts of the host decide
  // about a request (client identification, client policy, secrets, the assertion's issuer and signature) comes in
  // as a Gate.

  const CODE_TTL_S := 60
  const CLOCK_SKEW_S := 60
  const ASSERTION_SKEW_S := 300

  type Hash = string

  datatype Code = Code(
    tenant: int, client: string, clientMethod: string, redirectUri: string, challenge: string,
    resource: string, scope: string, grant: Option<nat>, expires: int, consumed: Option<int>)

  datatype Grant = Grant(
    tenant: int, client: string, clientMethod: string, resource: string, scope: string,
    created: int, revoked: Option<int>)

  datatype Refresh = Refresh(grant: nat, resource: string, expires: int, rotated: Option<int>)

  datatype JtiRow = JtiRow(grant: nat, tenant: int, resource: string, expires: int, denied: Option<int>)

  /** A grant's id is its position: ids are handed out in order and never reused. */
  datatype Db = Db(
    codes: map<Hash, Code>,
    grants: seq<Grant>,
    refresh: map<Hash, Refresh>,
    jtis: map<string, JtiRow>,
    assertions: set<(string, string)>)

  /** The claims of a signed access token that this model follows. */
  datatype Claims = Claims(jti: string, aud: string, scope: string, client: string, exp: int)

  datatype Policy = Policy(accessTtl: int, refreshTtl: int, maxAge: Option<int>, reconsentAfter: Option<int>)

  datatype Secret = NotNeeded | Missing | Wrong | Correct

  datatype Gate = Gate(identified: bool, blocked: bool, secret: Secret, policy: Policy)

  /** The freshly generated names a mint uses. */
  datatype Fresh = Fresh(jti: string, refreshHash: Hash)

  datatype Refusal =
    | InvalidRequest | UnknownCode | CodeUsed | CodeExpired | ClientMismatch | RedirectMismatch
    | ResourceMismatch | VerifierMissing | VerifierMismatch | UnknownClient | ClientBlocked
    | SecretMissing | SecretWrong | UnknownRefreshToken | AlreadyRotated | GrantNotFound
    | GrantRevoked | GrantExpired | ReconsentRequired | RefreshExpired
    | AssertionRejected | AssertionMalformed | AssertionExpired | AssertionNotYetValid | AssertionReplayed
    | SubjectRevoked

  datatype TokenReply = Minted(claims: Claims, refresh: Option<Hash>) | Refused(why: Refusal)

  datatype BearerError = Expired | Revoked | WrongAudience

  datatype Caller = Caller(tenant: int, scope: string, enterprise: bool)

  // ---- single statements -------------------------------------------------------------

  function RevokeGrant(db: Db, g: nat, now: int): Db {
    if g < |db.grants| && db.grants[g].revoked.None?
    then db.(grants := db.grants[g := db.grants[g].(revoked := Some(now))])
    else db
  }

  function DenyJtis(db: Db, g: nat, now: int): Db {
    db.(jtis := map j | j in db.jtis ::
          if db.jtis[j].grant == g && db.jtis[j].denied.None?
          then db.jtis[j].(denied := Some(now)) else db.jtis[j])
  }

  function RetireRefresh(db: Db, g: nat, now: int): Db {
    db.(refresh := map h | h in db.refresh ::
          if db.refresh[h].grant == g && db.refresh[h].rotated.None?
          then db.refresh[h].(rotated := Some(now)) else db.refresh[h])
  }

  function RevokeFamily(db: Db, g: nat, now: int): Db {
    RetireRefresh(DenyJtis(RevokeGrant(db, g, now), g, now), g, now)
  }

  function Claim(db: Db, c: Hash, now: int): Db
    requires c in db.codes
  {
    db.(codes := db.codes[c := db.codes[c].(consumed := Some(now))])
  }

  function Rotate(db: Db, h: Hash, now: int): Db
    requires h in db.refresh
  {
    db.(refresh := db.refresh[h := db.refresh[h].(rotated := Some(now))])
  }

  /** Records an access token and, when asked to, a refresh token of grant `g`. */
  function Issue(
    db: Db, g: nat, tenant: int, resource: string, scope: string, client: string,
    withRefresh: bool, policy: Policy, names: Fresh, now: int): (Db, TokenReply)
  {
    var exp := now + policy.accessTtl;
    var db1 := db.(jtis := db.jtis[names.jti := JtiRow(g, tenant, resource, exp, None)]);
    var claims := Claims(names.jti, resource, scope, client, exp);
    if withRefresh then
      (db1.(refresh := db1.refresh[names.refreshHash := Refresh(g, resource, now + policy.refreshTtl, None)]),
       Minted(claims, Some(names.refreshHash)))
    else (db1, Minted(claims, None))
  }

  // ---- requests ------------------------------------------------------------------------

  /** `challenge` is the S256 digest of the presented verifier. */
  datatype Redemption = Redemption(
    code: Option<Hash>, client: Option<string>, redirectUri: Option<string>,
    resource: Option<string>, challenge: Option<string>)

  function RedeemCheck(db: Db, req: Redemption, gate: Gate, now: int): Option<Refusal> {
    if req.code.None? || req.client.None? then Some(InvalidRequest)
    else if req.code.value !in db.codes then Some(UnknownCode)
    else
      var row := db.codes[req.code.value];
      if row.consumed.Some? then Some(CodeUsed)
      else if now > row.expires then Some(CodeExpired)
      else if row.client != req.client.value then Some(ClientMismatch)
      else if req.redirectUri != Some(row.redirectUri) then Some(RedirectMismatch)
      else if req.resource.Some? && req.resource.value != row.resource then Some(ResourceMismatch)
      else if req.challenge.None? then Some(VerifierMissing)
      else if req.challenge.value != row.challenge then Some(VerifierMismatch)
      else if !gate.identified then Some(UnknownClient)
      else if gate.blocked then Some(ClientBlocked)
      else if gate.secret == Missing then Some(SecretMissing)
      else if gate.secret == Wrong then Some(SecretWrong)
      else None
  }

  function Redeem(db: Db, req: Redemption, gate: Gate, names: Fresh, now: int): (Db, TokenReply) {
    match RedeemCheck(db, req, gate, now)
    case Some(CodeUsed) =>
      var row := db.codes[req.code.value];
      (if row.grant.Some? then RevokeFamily(db, row.grant.value, now) else db, Refused(CodeUsed))
    case Some(why) => (db, Refused(why))
    case None =>
      var c := req.code.value;
      var row := db.codes[c];
      var g := |db.grants|;
      var db1 := db.(
        codes := db.codes[c := row.(consumed := Some(now), grant := Some(g))],
        grants := db.grants + [Grant(row.tenant, row.client, row.clientMethod, row.resource, row.scope, now, None)]);
      Issue(db1, g, row.tenant, row.resource, row.scope, row.client, true, gate.policy, names, now)
  }

  function RefreshCheck(db: Db, token: Option<Hash>, gate: Gate, now: int): Option<Refusal> {
    if token.None? then Some(InvalidRequest)
    else if token.value !in db.refresh then Some(UnknownRefreshToken)
    else
      var row := db.refresh[token.value];
      if row.rotated.Some? then Some(AlreadyRotated)
      else if row.grant >= |db.grants| then Some(GrantNotFound)
      else
        var grant := db.grants[row.grant];
        var age := now - grant.created;
        if grant.revoked.Some? then Some(GrantRevoked)
        else if gate.blocked then Some(ClientBlocked)
        else if gate.policy.maxAge.Some? && age > gate.policy.maxAge.value then Some(GrantExpired)
        else if gate.policy.reconsentAfter.Some? && age > gate.policy.reconsentAfter.value then Some(ReconsentRequired)
        else if now > row.expires then Some(RefreshExpired)
        else None
  }

  function RefreshGrant(db: Db, token: Option<Hash>, gate: Gate, names: Fresh, now: int): (Db, TokenReply) {
    match RefreshCheck(db, token, gate, now)
    case Some(AlreadyRotated) =>
      (RevokeFamily(db, db.refresh[token.value].grant, now), Refused(AlreadyRotated))
    case Some(why) => (db, Refused(why))
    case None =>
      var row := db.refresh[token.value];
      var grant := db.grants[row.grant];
      Issue(Rotate(db, token.value, now), row.grant, grant.tenant, row.resource, grant.scope, grant.client,
            true, gate.policy, names, now)
  }

  /** `authentic` sums up everything checked before the claims' times: the resource names
      a tenant, the issuer is trusted for it, client, scope, signature, audience. */
  datatype Assertion = Assertion(
    authentic: bool, issuer: string, jti: Option<string>, exp: Option<int>, nbf: Option<int>, iat: Option<int>,
    tenant: int, client: string, resource: string, scope: string, subjectRevoked: bool, offline: bool)

  function AssertionCheck(db: Db, a: Assertion, now: int): Option<Refusal> {
    if !a.authentic then Some(AssertionRejected)
    else if a.exp.None? then Some(AssertionMalformed)
    else if now > a.exp.value + ASSERTION_SKEW_S then Some(AssertionExpired)
    else if a.nbf.Some? && now + ASSERTION_SKEW_S < a.nbf.value then Some(AssertionNotYetValid)
    else if a.iat.Some? && a.iat.value > now + ASSERTION_SKEW_S then Some(AssertionNotYetValid)
    else if a.jti.None? || a.jti.value == "" then Some(AssertionMalformed)
    else if (a.issuer, a.jti.value) in db.assertions then Some(AssertionReplayed)
    else None
  }

  function Assert(db: Db, a: Assertion, policy: Policy, names: Fresh, now: int): (Db, TokenReply) {
    match AssertionCheck(db, a, now)
    case Some(why) => (db, Refused(why))
    case None =>
      var db1 := db.(assertions := db.assertions + {(a.issuer, a.jti.value)});
      if a.subjectRevoked then (db1, Refused(SubjectRevoked))
      else
        var db2 := db1.(grants := db1.grants + [Grant(a.tenant, a.client, "xaa", a.resource, a.scope, now, None)]);
        Issue(db2, |db.grants|, a.tenant, a.resource, a.scope, a.client, a.offline, policy, names, now)
  }

  function TenantRevoke(db: Db, g: nat, tenant: int, now: int): (Db, bool) {
    if g < |db.grants| && db.grants[g].tenant == tenant && db.grants[g].revoked.None?
    then (RevokeFamily(db, g, now), true)
    else (db, false)
  }

  function TokenRevoke(db: Db, token: Hash, now: int): Db {
    if token in db.refresh then RevokeFamily(db, db.refresh[token].grant, now) else db
  }

  function Consent(
    db: Db, c: Hash, tenant: int, client: string, clientMethod: string, redirectUri: string,
    challenge: string, resource: string, scope: string, now: int): Db
  {
    db.(codes := db.codes[c := Code(tenant, client, clientMethod, redirectUri, challenge, resource, scope,
                                    None, now + CODE_TTL_S, None)])
  }

  /** What a bearer token with these (signature-checked) claims may do now. */
  function Validate(db: Db, claims: Claims, now: int): Result<Caller, BearerError> {
    if now > claims.exp + CLOCK_SKEW_S then Failure(Expired)
    else if claims.jti !in db.jtis then Failure(Revoked)
    else
      var row := db.jtis[claims.jti];
      if row.denied.Some? then Failure(Revoked)
      else if claims.aud != row.resource then Failure(WrongAudience)
      else Success(Caller(row.tenant, claims.scope,
                          row.grant < |db.grants| && db.grants[row.grant].clientMethod == "xaa"))
  }

  // ---- the handlers --------------------------------------------------------------------

  class OauthServer {
    var codes: map<Hash, Code>
    var grants: seq<Grant>
    var refresh: map<Hash, Refresh>
    var jtis: map<string, JtiRow>
    var assertions: set<(string, string)>

    function Tables(): Db
      reads this
    {
      Db(codes, grants, refresh, jtis, assertions)
    }

    constructor ()
      ensures Tables() == EMPTY
    {
      codes, grants, refresh, jtis, assertions := map[], [], map[], map[], {};
    }

    method RevokeAndDeny(g: nat, now: int)
      modifies this
      ensures Tables() == RevokeFamily(old(Tables()), g, now)
    {
      if g < |grants| && grants[g].revoked.None? {
        grants := grants[g := grants[g].(revoked := Some(now))];
      }
      jtis := map j | j in jtis ::
        if jtis[j].grant == g && jtis[j].denied.None? then jtis[j].(denied := Some(now)) else jtis[j];
      refresh := map h | h in refresh ::
        if refresh[h].grant == g && refresh[h].rotated.None? then refresh[h].(rotated := Some(now)) else refresh[h];
    }

    /** The guarded update of a code: true iff this call consumed it. */
    method ClaimCode(c: Hash, now: int) returns (claimed: bool)
      modifies this`codes
      ensures claimed <==> c in old(codes) && old(codes)[c].consumed.None?
      ensures codes == if claimed then Claim(old(Tables()), c, now).codes else old(codes)
    {
      claimed := c in codes && codes[c].consumed.None?;
      if claimed {
        codes := codes[c := codes[c].(consumed := Some(now))];
      }
    }

    method ClaimRefresh(h: Hash, now: int) returns (claimed: bool)
      modifies this`refresh
      ensures claimed <==> h in old(refresh) && old(refresh)[h].rotated.None?
      ensures refresh == if claimed then Rotate(old(Tables()), h, now).refresh else old(refresh)
    {
      claimed := h in refresh && refresh[h].rotated.None?;
      if claimed {
        refresh := refresh[h := refresh[h].(rotated := Some(now))];
      }
    }

    method IssueTokens(
      g: nat, tenant: int, resource: string, scope: string, client: string,
      withRefresh: bool, policy: Policy, names: Fresh, now: int) returns (reply: TokenReply)
      modifies this`jtis, this`refresh
      ensures (Tables(), reply) ==
        Issue(old(Tables()), g, tenant, resource, scope, client, withRefresh, policy, names, now)
    {
      var exp := now + policy.accessTtl;
      var claims := Claims(names.jti, resource, scope, client, exp);
      jtis := jtis[names.jti := JtiRow(g, tenant, resource, exp, None)];
      if withRefresh {
        refresh := refresh[names.refreshHash := Refresh(g, resource, now + policy.refreshTtl, None)];
        return Minted(claims, Some(names.refreshHash));
      }
      reply := Minted(claims, None);
    }

    method TokenAuthorizationCode(req: Redemption, gate: Gate, names: Fresh, now: int) returns (reply: TokenReply)
      modifies this
      ensures (Tables(), reply) == Redeem(old(Tables()), req, gate, names, now)
    {
      if req.code.None? || req.client.None? {
        return Refused(InvalidRequest);
      }
      var c := req.code.value;
      if c !in codes {
        return Refused(UnknownCode);
      }
      var row := codes[c];
      if row.consumed.Some? {
        if row.grant.Some? {
          RevokeAndDeny(row.grant.value, now);
        }
        return Refused(CodeUsed);
      }
      if now > row.expires {
        return Refused(CodeExpired);
      }
      if row.client != req.client.value {
        return Refused(ClientMismatch);
      }
      if req.redirectUri != Some(row.redirectUri) {
        return Refused(RedirectMismatch);
      }
      if req.resource.Some? && req.resource.value != row.resource {
        return Refused(ResourceMismatch);
      }
      if req.challenge.None? {
        return Refused(VerifierMissing);
      }
      if req.challenge.value != row.challenge {
        return Refused(VerifierMismatch);
      }
      if !gate.identified {
        return Refused(UnknownClient);
      }
      if gate.blocked {
        return Refused(ClientBlocked);
      }
      match gate.secret {
        case Missing => return Refused(SecretMissing);
        case Wrong => return Refused(SecretWrong);
        case _ =>
      }
      var claimed := ClaimCode(c, now);
      if !claimed {
        return Refused(CodeUsed);
      }
      var g := |grants|;
      grants := grants + [Grant(row.tenant, row.client, row.clientMethod, row.resource, row.scope, now, None)];
      codes := codes[c := codes[c].(grant := Some(g))];
      assert codes == old(codes)[c := row.(consumed := Some(now), grant := Some(g))];
      reply := IssueTokens(g, row.tenant, row.resource, row.scope, req.client.value, true, gate.policy, names, now);
    }

    method TokenRefreshToken(token: Option<Hash>, gate: Gate, names: Fresh, now: int) returns (reply: TokenReply)
      modifies this
      ensures (Tables(), reply) == RefreshGrant(old(Tables()), token, gate, names, now)
    {
      if token.None? {
        return Refused(InvalidRequest);
      }
      var h := token.value;
      if h !in refresh {
        return Refused(UnknownRefreshToken);
      }
      var row := refresh[h];
      if row.rotated.Some? {
        RevokeAndDeny(row.grant, now);
        return Refused(AlreadyRotated);
      }
      if row.grant >= |grants| {
        return Refused(GrantNotFound);
      }
      var grant := grants[row.grant];
      if grant.revoked.Some? {
        return Refused(GrantRevoked);
      }
      if gate.blocked {
        return Refused(ClientBlocked);
      }
      var age := now - grant.created;
      if gate.policy.maxAge.Some? && age > gate.policy.maxAge.value {
        return Refused(GrantExpired);
      }
      if gate.policy.reconsentAfter.Some? && age > gate.policy.reconsentAfter.value {
        return Refused(ReconsentRequired);
      }
      if now > row.expires {
        return Refused(RefreshExpired);
      }
      var claimed := ClaimRefresh(h, now);
      if !claimed {
        return Refused(AlreadyRotated);
      }
      reply := IssueTokens(row.grant, grant.tenant, row.resource, grant.scope, grant.client, true,
                           gate.policy, names, now);
    }

    method TokenJwtBearer(a: Assertion, policy: Policy, names: Fresh, now: int) returns (reply: TokenReply)
      modifies this
      ensures (Tables(), reply) == Assert(old(Tables()), a, policy, names, now)
    {
      if !a.authentic {
        return Refused(AssertionRejected);
      }
      if a.exp.None? {
        return Refused(AssertionMalformed);
      }
      if now > a.exp.value + ASSERTION_SKEW_S {
        return Refused(AssertionExpired);
      }
      if a.nbf.Some? && now + ASSERTION_SKEW_S < a.nbf.value {
        return Refused(AssertionNotYetValid);
      }
      if a.iat.Some? && a.iat.value > now + ASSERTION_SKEW_S {
        return Refused(AssertionNotYetValid);
      }
      if a.jti.None? || a.jti.value == "" {
        return Refused(AssertionMalformed);
      }
      if (a.issuer, a.jti.value) in assertions {
        return Refused(AssertionReplayed);
      }
      assertions := assertions + {(a.issuer, a.jti.value)};
      if a.subjectRevoked {
        return Refused(SubjectRevoked);
      }
      var g := |grants|;
      grants := grants + [Grant(a.tenant, a.client, "xaa", a.resource, a.scope, now, None)];
      reply := IssueTokens(g, a.tenant, a.resource, a.scope, a.client, a.offline, policy, names, now);
    }

    method GrantRevoke(g: nat, tenant: int, now: int) returns (revoked: bool)
      modifies this
      ensures (Tables(), revoked) == TenantRevoke(old(Tables()), g, tenant, now)
    {
      revoked := g < |grants| && grants[g].tenant == tenant && grants[g].revoked.None?;
      if revoked {
        RevokeAndDeny(g, now);
      }
    }

    method PostRevoke(token: Hash, now: int)
      modifies this
      ensures Tables() == TokenRevoke(old(Tables()), token, now)
    {
      if token in refresh {
        RevokeAndDeny(refresh[token].grant, now);
      }
    }

    method ValidateHostedBearer(claims: Claims, now: int) returns (r: Result<Caller, BearerError>)
      ensures r == Validate(Tables(), claims, now)
    {
      if now > claims.exp + CLOCK_SKEW_S {
        return Failure(Expired);
      }
      if claims.jti !in jtis {
        return Failure(Revoked);
      }
      var row := jtis[claims.jti];
      if row.denied.Some? {
        return Failure(Revoked);
      }
      if claims.aud != row.resource {
        return Failure(WrongAudience);
      }
      var enterprise := row.grant < |grants| && grants[row.grant].clientMethod == "xaa";
      r := Success(Caller(row.tenant, claims.scope, enterprise));
    }
  }

  const EMPTY := Db(map[], [], map[], map[], {})

  // ---- runs ------------------------------------------------------------------------------

  datatype Op =
    | DoConsent(c: Hash, tenant: int, client: string, clientMethod: string, redirectUri: string,
                challenge: string, resource: string, scope: string, now: int)
    | DoRedeem(req: Redemption, gate: Gate, names: Fresh, now: int)
    | DoRefresh(token: Option<Hash>, gate: Gate, names: Fresh, now: int)
    | DoAssert(a: Assertion, policy: Policy, names: Fresh, now: int)
    | DoTenantRevoke(g: nat, tenant: int, now: int)
    | DoTokenRevoke(presented: Hash, now: int)

  /** The tables and every access token ever signed, by jti. */
  datatype World = World(db: Db, signed: map<string, Claims>)

  const START := World(EMPTY, map[])

  /** Generated codes, jtis and refresh tokens are new. */
  predicate CanDo(w: World, op: Op) {
    match op
    case DoConsent(c, _, _, _, _, _, _, _, _) => c !in w.db.codes
    case DoRedeem(_, _, names, _) => IsFresh(w.db, names)
    case DoRefresh(_, _, names, _) => IsFresh(w.db, names)
    case DoAssert(_, _, names, _) => IsFresh(w.db, names)
    case _ => true
  }

  predicate IsFresh(db: Db, names: Fresh) {
    names.jti !in db.jtis && names.refreshHash !in db.refresh
  }

  function Sign(w: World, r: (Db, TokenReply)): World {
    World(r.0, if r.1.Minted? then w.signed[r.1.claims.jti := r.1.claims] else w.signed)
  }

  function Do(w: World, op: Op): World {
    match op
    case DoConsent(c, tenant, client, clientMethod, redirectUri, challenge, resource, scope, now) =>
      w.(db := Consent(w.db, c, tenant, client, clientMethod, redirectUri, challenge, resource, scope, now))
    case DoRedeem(req, gate, names, now) => Sign(w, Redeem(w.db, req, gate, names, now))
    case DoRefresh(token, gate, names, now) => Sign(w, RefreshGrant(w.db, token, gate, names, now))
    case DoAssert(a, policy, names, now) => Sign(w, Assert(w.db, a, policy, names, now))
    case DoTenantRevoke(g, tenant, now) => w.(db := TenantRevoke(w.db, g, tenant, now).0)
    case DoTokenRevoke(token, now) => w.(db := TokenRevoke(w.db, token, now))
  }

  predicate Run(w: World, ops: seq<Op>, v: World)
    decreases |ops|
  {
    if ops == [] then w == v
    else CanDo(w, ops[0]) && Run(Do(w, ops[0]), ops[1..], v)
  }

  // ---- what every request keeps ------------------------------------------------------------

  function Live(db: Db, g: nat): set<Hash> {
    set h | h in db.refresh && db.refresh[h].grant == g && db.refresh[h].rotated.None?
  }

  /** Everything an access token says is what its grant says, and it is denied exactly
      when the grant is revoked. */
  predicate TokenOfGrant(w: World, j: string)
    requires j in w.db.jtis && j in w.signed
  {
    var row, claims := w.db.jtis[j], w.signed[j];
    && row.grant < |w.db.grants|
    && var g := w.db.grants[row.grant];
    && claims == Claims(j, g.resource, g.scope, g.client, row.expires)
    && row.resource == g.resource && row.tenant == g.tenant
    && (row.denied.Some? <==> g.revoked.Some?)
  }

  predicate TokensOfGrants(w: World) {
    && w.signed.Keys == w.db.jtis.Keys
    && forall j <- w.db.jtis :: TokenOfGrant(w, j)
  }

  predicate RefreshOfGrant(db: Db, h: Hash)
    requires h in db.refresh
  {
    var row := db.refresh[h];
    && row.grant < |db.grants|
    && row.resource == db.grants[row.grant].resource
    && (db.grants[row.grant].revoked.Some? ==> row.rotated.Some?)
  }

  /** A code is consumed exactly when it has its grant, which says what the code said. */
  predicate CodeOfGrant(db: Db, c: Hash)
    requires c in db.codes
  {
    var row := db.codes[c];
    && (row.consumed.Some? <==> row.grant.Some?)
    && (row.grant.Some? ==>
          && row.grant.value < |db.grants|
          && var g := db.grants[row.grant.value];
             g == Grant(row.tenant, row.client, row.clientMethod, row.resource, row.scope, g.created, g.revoked))
  }

  predicate CodesApart(db: Db) {
    forall c <- db.codes, d <- db.codes | db.codes[c].grant.Some? && db.codes[c].grant == db.codes[d].grant :: c == d
  }

  /** Rows name the grant they belong to and agree with it. */
  ghost predicate Ties(w: World) {
    && TokensOfGrants(w)
    && (forall h <- w.db.refresh :: RefreshOfGrant(w.db, h))
    && (forall c <- w.db.codes :: CodeOfGrant(w.db, c))
    && CodesApart(w.db)
  }

  /** The grants that were ever given a refresh token. */
  function Renewable(db: Db): set<nat> {
    set h | h in db.refresh :: db.refresh[h].grant
  }

  /** An unrevoked grant that has refresh tokens has exactly one that is not rotated. */
  predicate Linear(db: Db, g: nat) {
    g < |db.grants| && db.grants[g].revoked.None? && g in Renewable(db) ==> |Live(db, g)| == 1
  }

  predicate CodeRenewable(db: Db, c: Hash)
    requires c in db.codes
  {
    db.codes[c].grant.Some? ==> db.codes[c].grant.value in Renewable(db)
  }

  ghost predicate Families(db: Db) {
    && (forall g: nat :: Linear(db, g))
    && (forall c <- db.codes :: CodeRenewable(db, c))
  }

  ghost predicate Inv(w: World) {
    Ties(w) && Families(w.db)
  }

  lemma ConsentInv(w: World, c: Hash, row: Code)
    requires Inv(w) && c !in w.db.codes && row.consumed.None? && row.grant.None?
    ensures Inv(w.(db := w.db.(codes := w.db.codes[c := row])))
  {
    var v := w.(db := w.db.(codes := w.db.codes[c := row]));
    forall j <- v.db.jtis ensures TokenOfGrant(v, j) {
      assert TokenOfGrant(w, j);
    }
    forall k <- v.db.codes ensures CodeOfGrant(v.db, k) {
      assert k != c ==> CodeOfGrant(w.db, k);
    }
    SameRefresh(w.db, v.db);
    forall k <- v.db.codes ensures CodeRenewable(v.db, k) {
      assert k != c ==> CodeRenewable(w.db, k);
    }
  }

  lemma SameRefresh(db: Db, e: Db)
    requires db.refresh == e.refresh && Families(db)
    requires forall g: nat | g < |e.grants| && e.grants[g].revoked.None? && g in Renewable(db) ::
      g < |db.grants| && db.grants[g].revoked.None?
    ensures forall g: nat :: Linear(e, g)
    ensures Renewable(e) == Renewable(db)
  {
    forall g: nat ensures Linear(e, g) {
      assert Linear(db, g) && Live(e, g) == Live(db, g);
    }
  }

  lemma RevokeToken(w: World, g: nat, now: int, j: string)
    requires j in w.db.jtis && j in w.signed && TokenOfGrant(w, j)
    ensures TokenOfGrant(w.(db := RevokeFamily(w.db, g, now)), j)
  {
  }

  lemma RevokeRefresh(db: Db, g: nat, now: int, h: Hash)
    requires h in db.refresh && RefreshOfGrant(db, h)
    ensures RefreshOfGrant(RevokeFamily(db, g, now), h)
  {
  }

  lemma RevokeCode(db: Db, g: nat, now: int, c: Hash)
    requires c in db.codes && CodeOfGrant(db, c)
    ensures CodeOfGrant(RevokeFamily(db, g, now), c)
  {
  }

  lemma RevokeTies(w: World, g: nat, now: int)
    requires Ties(w)
    ensures Ties(w.(db := RevokeFamily(w.db, g, now)))
  {
    var v := w.(db := RevokeFamily(w.db, g, now));
    forall j <- v.db.jtis ensures TokenOfGrant(v, j) {
      RevokeToken(w, g, now, j);
    }
    forall h <- v.db.refresh ensures RefreshOfGrant(v.db, h) {
      RevokeRefresh(w.db, g, now, h);
    }
    forall c <- v.db.codes ensures CodeOfGrant(v.db, c) {
      RevokeCode(w.db, g, now, c);
    }
  }

  lemma RevokeFamilies(db: Db, g: nat, now: int)
    requires Families(db)
    ensures Families(RevokeFamily(db, g, now))
  {
    var e := RevokeFamily(db, g, now);
    forall k <- Renewable(db) ensures k in Renewable(e) {
      var h :| h in db.refresh && db.refresh[h].grant == k;
      assert h in e.refresh && e.refresh[h].grant == k;
    }
    forall k: nat ensures Linear(e, k) {
      assert Linear(db, k);
      if k != g {
        assert Live(e, k) == Live(db, k);
      }
    }
    forall c <- e.codes ensures CodeRenewable(e, c) {
      assert CodeRenewable(db, c);
    }
  }

  lemma RevokeInv(w: World, g: nat, now: int)
    requires Inv(w)
    ensures Inv(w.(db := RevokeFamily(w.db, g, now)))
  {
    RevokeTies(w, g, now);
    RevokeFamilies(w.db, g, now);
  }

  /** Everything about families but the one grant `g`, which has no live refresh token. */
  ghost predicate FamiliesBut(db: Db, g: nat) {
    && (forall k: nat | k != g :: Linear(db, k))
    && (forall c <- db.codes | db.codes[c].grant != Some(g) :: CodeRenewable(db, c))
    && Live(db, g) == {}
  }

  /** A grant that comes into being, whose code, if any, is consumed for it. */
  function Founded(db: Db, grant: Grant, c: Option<Hash>, now: int): Db {
    var db1 := db.(grants := db.grants + [grant]);
    if c.Some? && c.value in db.codes
    then db1.(codes := db.codes[c.value := db.codes[c.value].(consumed := Some(now), grant := Some(|db.grants|))])
    else db1
  }

  lemma FoundedCode(db: Db, grant: Grant, c: Option<Hash>, now: int, k: Hash)
    requires k in db.codes && CodeOfGrant(db, k)
    requires c == Some(k) ==>
      var row := db.codes[k];
      grant == Grant(row.tenant, row.client, row.clientMethod, row.resource, row.scope, grant.created, None)
    ensures CodeOfGrant(Founded(db, grant, c, now), k)
  {
  }

  lemma FoundedTies(w: World, grant: Grant, c: Option<Hash>, now: int)
    requires Inv(w) && grant.revoked.None?
    requires c.Some? ==> c.value in w.db.codes && w.db.codes[c.value].grant.None?
    requires c.Some? ==>
      var row := w.db.codes[c.value];
      grant == Grant(row.tenant, row.client, row.clientMethod, row.resource, row.scope, grant.created, None)
    ensures Ties(w.(db := Founded(w.db, grant, c, now)))
    ensures FamiliesBut(Founded(w.db, grant, c, now), |w.db.grants|)
    ensures |w.db.grants| !in Renewable(Founded(w.db, grant, c, now))
  {
    var v := w.(db := Founded(w.db, grant, c, now));
    forall j <- v.db.jtis ensures TokenOfGrant(v, j) {
      assert TokenOfGrant(w, j);
    }
    forall k <- v.db.codes ensures CodeOfGrant(v.db, k) {
      FoundedCode(w.db, grant, c, now, k);
    }
    forall h <- v.db.refresh ensures RefreshOfGrant(v.db, h) && v.db.refresh[h].grant != |w.db.grants| {
      assert RefreshOfGrant(w.db, h);
    }
    SameRefresh(w.db, v.db);
    forall k <- v.db.codes | v.db.codes[k].grant != Some(|w.db.grants|) ensures CodeRenewable(v.db, k) {
      assert CodeRenewable(w.db, k);
    }
  }

  /** The mint of grant `g` in a world. */
  function Mint(w: World, g: nat, withRefresh: bool, policy: Policy, names: Fresh, now: int): World
    requires g < |w.db.grants|
  {
    var grant := w.db.grants[g];
    Sign(w, Issue(w.db, g, grant.tenant, grant.resource, grant.scope, grant.client, withRefresh, policy, names, now))
  }

  lemma MintTies(w: World, g: nat, withRefresh: bool, policy: Policy, names: Fresh, now: int)
    requires Ties(w) && g < |w.db.grants| && w.db.grants[g].revoked.None? && IsFresh(w.db, names)
    ensures Ties(Mint(w, g, withRefresh, policy, names, now))
  {
    var v := Mint(w, g, withRefresh, policy, names, now);
    forall j <- v.db.jtis ensures TokenOfGrant(v, j) {
      assert j != names.jti ==> TokenOfGrant(w, j);
    }
    forall h <- v.db.refresh ensures RefreshOfGrant(v.db, h) {
      assert h != names.refreshHash ==> RefreshOfGrant(w.db, h);
    }
    forall c <- v.db.codes ensures CodeOfGrant(v.db, c) {
      assert CodeOfGrant(w.db, c);
    }
  }

  lemma MintFamilies(w: World, g: nat, withRefresh: bool, policy: Policy, names: Fresh, now: int)
    requires FamiliesBut(w.db, g) && g < |w.db.grants| && IsFresh(w.db, names)
    requires !withRefresh ==>
      g !in Renewable(w.db) && forall c <- w.db.codes :: w.db.codes[c].grant != Some(g)
    ensures Families(Mint(w, g, withRefresh, policy, names, now).db)
  {
    var db, e := w.db, Mint(w, g, withRefresh, policy, names, now).db;
    if withRefresh {
      assert e.refresh[names.refreshHash].grant == g;
    }
    forall h <- db.refresh ensures h in e.refresh && e.refresh[h] == db.refresh[h] {
    }
    assert Renewable(e) == Renewable(db) + if withRefresh then {g} else {};
    forall k: nat ensures Linear(e, k) {
      if k != g {
        assert Linear(db, k) && Live(e, k) == Live(db, k);
      } else if withRefresh {
        assert Live(e, k) == {names.refreshHash};
      }
    }
    forall c <- e.codes ensures CodeRenewable(e, c) {
      assert db.codes[c].grant != Some(g) ==> CodeRenewable(db, c);
    }
  }

  /** Rotating the one live refresh token of a family. */
  lemma RotateTies(w: World, h: Hash, now: int)
    requires Inv(w) && h in w.db.refresh && w.db.refresh[h].rotated.None?
    requires w.db.grants[w.db.refresh[h].grant].revoked.None?
    ensures Ties(w.(db := Rotate(w.db, h, now)))
    ensures FamiliesBut(Rotate(w.db, h, now), w.db.refresh[h].grant)
  {
    var v := w.(db := Rotate(w.db, h, now));
    var g := w.db.refresh[h].grant;
    forall j <- v.db.jtis ensures TokenOfGrant(v, j) {
      assert TokenOfGrant(w, j);
    }
    forall k <- v.db.refresh ensures RefreshOfGrant(v.db, k) {
      assert RefreshOfGrant(w.db, k);
    }
    forall c <- v.db.codes ensures CodeOfGrant(v.db, c) {
      assert CodeOfGrant(w.db, c);
    }
    RotateFamilies(w.db, h, now);
  }

  lemma RotateFamilies(db: Db, h: Hash, now: int)
    requires Families(db) && h in db.refresh && db.refresh[h].rotated.None?
    requires db.refresh[h].grant < |db.grants| && db.grants[db.refresh[h].grant].revoked.None?
    ensures FamiliesBut(Rotate(db, h, now), db.refresh[h].grant)
  {
    var e, g := Rotate(db, h, now), db.refresh[h].grant;
    assert Linear(db, g) && h in Live(db, g);
    assert |Live(db, g) - {h}| == 0;
    assert Live(e, g) == Live(db, g) - {h};
    forall k <- Renewable(db) ensures k in Renewable(e) {
      var i :| i in db.refresh && db.refresh[i].grant == k;
      assert e.refresh[i].grant == k;
    }
    forall k: nat | k != g ensures Linear(e, k) {
      assert Linear(db, k) && Live(e, k) == Live(db, k);
    }
    forall c <- e.codes ensures CodeRenewable(e, c) {
      assert CodeRenewable(db, c);
    }
  }

  lemma RedeemInv(w: World, req: Redemption, gate: Gate, names: Fresh, now: int)
    requires Inv(w) && IsFresh(w.db, names)
    ensures Inv(Do(w, DoRedeem(req, gate, names, now)))
  {
    match RedeemCheck(w.db, req, gate, now)
    case Some(CodeUsed) =>
      var row := w.db.codes[req.code.value];
      if row.grant.Some? {
        RevokeInv(w, row.grant.value, now);
      }
    case Some(_) =>
    case None =>
      var row := w.db.codes[req.code.value];
      var grant := Grant(row.tenant, row.client, row.clientMethod, row.resource, row.scope, now, None);
      assert CodeOfGrant(w.db, req.code.value);
      FoundedTies(w, grant, req.code, now);
      var v := w.(db := Founded(w.db, grant, req.code, now));
      MintTies(v, |w.db.grants|, true, gate.policy, names, now);
      MintFamilies(v, |w.db.grants|, true, gate.policy, names, now);
      assert Do(w, DoRedeem(req, gate, names, now)) == Mint(v, |w.db.grants|, true, gate.policy, names, now);
  }

  lemma RefreshInv(w: World, token: Option<Hash>, gate: Gate, names: Fresh, now: int)
    requires Inv(w) && IsFresh(w.db, names)
    ensures Inv(Do(w, DoRefresh(token, gate, names, now)))
  {
    match RefreshCheck(w.db, token, gate, now)
    case Some(AlreadyRotated) => RevokeInv(w, w.db.refresh[token.value].grant, now);
    case Some(_) =>
    case None =>
      var g := w.db.refresh[token.value].grant;
      assert RefreshOfGrant(w.db, token.value);
      RotateTies(w, token.value, now);
      var v := w.(db := Rotate(w.db, token.value, now));
      MintTies(v, g, true, gate.policy, names, now);
      MintFamilies(v, g, true, gate.policy, names, now);
      assert Do(w, DoRefresh(token, gate, names, now)) == Mint(v, g, true, gate.policy, names, now);
  }

  lemma AssertInv(w: World, a: Assertion, policy: Policy, names: Fresh, now: int)
    requires Inv(w) && IsFresh(w.db, names)
    ensures Inv(Do(w, DoAssert(a, policy, names, now)))
  {
    if AssertionCheck(w.db, a, now).None? {
      var w1 := w.(db := w.db.(assertions := w.db.assertions + {(a.issuer, a.jti.value)}));
      ClaimedInv(w, {(a.issuer, a.jti.value)});
      if !a.subjectRevoked {
        var grant := Grant(a.tenant, a.client, "xaa", a.resource, a.scope, now, None);
        FoundedTies(w1, grant, None, now);
        var v := w1.(db := Founded(w1.db, grant, None, now));
        MintTies(v, |w.db.grants|, a.offline, policy, names, now);
        assert forall c <- v.db.codes :: CodeOfGrant(w1.db, c);
        MintFamilies(v, |w.db.grants|, a.offline, policy, names, now);
        assert Do(w, DoAssert(a, policy, names, now)) == Mint(v, |w.db.grants|, a.offline, policy, names, now);
      }
    }
  }

  lemma ClaimedInv(w: World, more: set<(string, string)>)
    requires Inv(w)
    ensures Inv(w.(db := w.db.(assertions := w.db.assertions + more)))
  {
    var v := w.(db := w.db.(assertions := w.db.assertions + more));
    forall j <- v.db.jtis ensures TokenOfGrant(v, j) {
      assert TokenOfGrant(w, j);
    }
    SameRefresh(w.db, v.db);
  }

  lemma StepInv(w: World, op: Op)
    requires Inv(w) && CanDo(w, op)
    ensures Inv(Do(w, op))
  {
    match op
    case DoConsent(c, tenant, client, clientMethod, redirectUri, challenge, resource, scope, now) =>
      ConsentInv(w, c, Code(tenant, client, clientMethod, redirectUri, challenge, resource, scope, None,
                            now + CODE_TTL_S, None));
    case DoRedeem(req, gate, names, now) => RedeemInv(w, req, gate, names, now);
    case DoRefresh(token, gate, names, now) => RefreshInv(w, token, gate, names, now);
    case DoAssert(a, policy, names, now) => AssertInv(w, a, policy, names, now);
    case DoTenantRevoke(g, tenant, now) => RevokeInv(w, g, now);
    case DoTokenRevoke(token, now) =>
      if token in w.db.refresh {
        RevokeInv(w, w.db.refresh[token].grant, now);
      }
  }

  lemma {:induction false} RunInv(w: World, ops: seq<Op>, v: World)
    requires Inv(w) && Run(w, ops, v)
    ensures Inv(v)
    decreases |ops|
  {
    if ops != [] {
      StepInv(w, ops[0]);
      RunInv(Do(w, ops[0]), ops[1..], v);
    }
  }

  // ---- whole runs ----------------------------------------------------------------------------

  /** Every access token ever signed is accepted exactly while its grant is not revoked
      and it has not expired, and then speaks for the grant's own tenant and scope. */
  lemma BearerLivesWithGrant(ops: seq<Op>, v: World, j: string, now: int)
    requires Run(START, ops, v) && j in v.signed
    ensures j in v.db.jtis && v.db.jtis[j].grant < |v.db.grants|
    ensures
      var g := v.db.grants[v.db.jtis[j].grant];
      var r := Validate(v.db, v.signed[j], now);
      && (r.Success? <==> g.revoked.None? && now <= v.signed[j].exp + CLOCK_SKEW_S)
      && (r.Success? ==> r.value == Caller(g.tenant, g.scope, g.clientMethod == "xaa"))
      && (r.Failure? && now <= v.signed[j].exp + CLOCK_SKEW_S ==> r.error == Revoked)
  {
    RunInv(START, ops, v);
    assert TokenOfGrant(v, j);
  }

  /** All that a redeemed code's family ever mints is bound to what was consented to. */
  lemma FamilyKeepsConsent(ops: seq<Op>, v: World, c: Hash, j: string)
    requires Run(START, ops, v) && c in v.db.codes && j in v.db.jtis
    requires v.db.codes[c].grant == Some(v.db.jtis[j].grant)
    ensures j in v.signed
    ensures
      var code := v.db.codes[c];
      && v.db.jtis[j].tenant == code.tenant
      && v.signed[j].client == code.client
      && v.signed[j].aud == v.db.jtis[j].resource == code.resource
      && v.signed[j].scope == code.scope
  {
    RunInv(START, ops, v);
    assert TokenOfGrant(v, j) && CodeOfGrant(v.db, c);
  }

  lemma OnlyOne<T>(s: set<T>)
    requires |s| == 1
    ensures exists x :: s == {x}
  {
    var x :| x in s;
    assert |s - {x}| == 0;
    assert s == {x};
  }

  /** Presenting a rotated token revokes its grant, and leaves it no live one. */
  lemma ReuseRevokes(db: Db, g: nat, h: Hash, gate: Gate, names: Fresh, now: int)
    requires g < |db.grants| && h in db.refresh && db.refresh[h].grant == g && h !in Live(db, g)
    ensures
      var (e, reply) := RefreshGrant(db, Some(h), gate, names, now);
      reply.Refused? && e.grants[g].revoked.Some? && Live(e, g) == {}
  {
  }

  /** The family of a redeemed code has, until it is revoked, exactly one refresh token
      that is not rotated; presenting any other one it ever had revokes it. */
  lemma FamilyIsLinear(ops: seq<Op>, v: World, c: Hash, g: nat)
    requires Run(START, ops, v) && c in v.db.codes && v.db.codes[c].grant == Some(g)
    ensures g < |v.db.grants|
    ensures v.db.grants[g].revoked.None? ==> exists h :: Live(v.db, g) == {h}
    ensures v.db.grants[g].revoked.Some? ==> Live(v.db, g) == {}
    ensures forall h, gate, names, now | h in v.db.refresh && v.db.refresh[h].grant == g && h !in Live(v.db, g) ::
      var (db, reply) := RefreshGrant(v.db, Some(h), gate, names, now);
      reply.Refused? && db.grants[g].revoked.Some? && Live(db, g) == {}
  {
    RunInv(START, ops, v);
    assert CodeOfGrant(v.db, c) && CodeRenewable(v.db, c) && Linear(v.db, g);
    if v.db.grants[g].revoked.None? {
      OnlyOne(Live(v.db, g));
    } else {
      forall h <- v.db.refresh ensures h !in Live(v.db, g) {
        assert RefreshOfGrant(v.db, h);
      }
    }
    forall h, gate, names, now | h in v.db.refresh && v.db.refresh[h].grant == g && h !in Live(v.db, g)
      ensures
        var (db, reply) := RefreshGrant(v.db, Some(h), gate, names, now);
        reply.Refused? && db.grants[g].revoked.Some? && Live(db, g) == {}
    {
      ReuseRevokes(v.db, g, h, gate, names, now);
    }
  }

  // ---- what a mint shows about the request ------------------------------------------------------

  /** A code with what was fixed when it was made. */
  function Binding(c: Code): Code {
    c.(grant := None, consumed := None)
  }

  /** Once there, a code keeps its binding, and once used it stays used. */
  predicate SameCode(db: Db, e: Db, c: Hash) {
    && c in db.codes && c in e.codes
    && Binding(e.codes[c]) == Binding(db.codes[c])
    && (db.codes[c].consumed.Some? ==> e.codes[c].consumed.Some?)
  }

  lemma CodeStep(w: World, op: Op, c: Hash)
    requires CanDo(w, op) && c in w.db.codes
    ensures SameCode(w.db, Do(w, op).db, c)
  {
    match op
    case DoRedeem(req, gate, names, now) => CodeRedeem(w.db, req, gate, names, now, c);
    case DoRefresh(token, gate, names, now) =>
    case _ =>
  }

  lemma CodeRedeem(db: Db, req: Redemption, gate: Gate, names: Fresh, now: int, c: Hash)
    requires c in db.codes
    ensures SameCode(db, Redeem(db, req, gate, names, now).0, c)
  {
  }

  lemma {:induction false} CodeRun(w: World, ops: seq<Op>, v: World, c: Hash)
    requires Run(w, ops, v) && c in w.db.codes
    ensures SameCode(w.db, v.db, c)
    decreases |ops|
  {
    if ops != [] {
      CodeStep(w, ops[0], c);
      CodeRun(Do(w, ops[0]), ops[1..], v, c);
    }
  }

  /** However long after the consent, redeeming a code mints exactly when it was never used,
      has not expired, and the client, redirect URI and verifier are those it was made for. */
  lemma RedeemsAsConsented(w: World, ops: seq<Op>, v: World, c: Hash, req: Redemption, gate: Gate, names: Fresh,
                           now: int)
    requires Run(w, ops, v) && c in w.db.codes && req.code == Some(c)
    ensures c in v.db.codes
    ensures
      var row := w.db.codes[c];
      Redeem(v.db, req, gate, names, now).1.Minted? <==>
        && v.db.codes[c].consumed.None? && now <= row.expires
        && req.client == Some(row.client) && req.redirectUri == Some(row.redirectUri)
        && req.challenge == Some(row.challenge)
        && (req.resource.Some? ==> req.resource.value == row.resource)
        && gate.identified && !gate.blocked && (gate.secret == NotNeeded || gate.secret == Correct)
    ensures w.db.codes[c].consumed.Some? ==> Redeem(v.db, req, gate, names, now).1.Refused?
  {
    CodeRun(w, ops, v, c);
    assert Binding(v.db.codes[c]).expires == Binding(w.db.codes[c]).expires;
  }

  /** Refreshing mints exactly for an unrotated, unexpired token of a grant that is neither
      revoked nor too old. */
  lemma RefreshesIff(db: Db, h: Hash, gate: Gate, names: Fresh, now: int)
    requires h in db.refresh && db.refresh[h].grant < |db.grants|
    ensures
      var row, grant := db.refresh[h], db.grants[db.refresh[h].grant];
      RefreshGrant(db, Some(h), gate, names, now).1.Minted? <==>
        && row.rotated.None? && now <= row.expires && grant.revoked.None? && !gate.blocked
        && (gate.policy.maxAge.Some? ==> now - grant.created <= gate.policy.maxAge.value)
        && (gate.policy.reconsentAfter.Some? ==> now - grant.created <= gate.policy.reconsentAfter.value)
  {
  }

  // ---- when an assertion mints --------------------------------------------------------------------

  /** An assertion that may be taken, if it has not been taken before: authentic, neither
      expired nor of the future, each with five minutes to spare, and named. */
  predicate Presentable(a: Assertion, now: int) {
    && a.authentic
    && a.exp.Some? && now <= a.exp.value + 300
    && (a.nbf.Some? ==> a.nbf.value <= now + 300)
    && (a.iat.Some? ==> a.iat.value <= now + 300)
    && a.jti.Some? && a.jti.value != ""
  }

  /** The request presents an assertion of that issuer and jti that may be taken. */
  predicate Presents(op: Op, issuer: string, jti: string) {
    op.DoAssert? && Presentable(op.a, op.now) && op.a.issuer == issuer && op.a.jti == Some(jti)
  }

  predicate PresentedIn(ops: seq<Op>, issuer: string, jti: string) {
    exists i :: 0 <= i < |ops| && Presents(ops[i], issuer, jti)
  }

  lemma AssertionStep(w: World, op: Op, issuer: string, jti: string)
    ensures (issuer, jti) in Do(w, op).db.assertions <==> (issuer, jti) in w.db.assertions || Presents(op, issuer, jti)
  {
    if op.DoAssert? && Presentable(op.a, op.now) {
      assert Assert(w.db, op.a, op.policy, op.names, op.now).0.assertions
        == w.db.assertions + {(op.a.issuer, op.a.jti.value)};
    }
  }

  /** What is recorded as taken is what a request of the run presented. */
  lemma {:induction false} AssertionsRun(w: World, ops: seq<Op>, v: World, issuer: string, jti: string)
    requires Run(w, ops, v)
    ensures (issuer, jti) in v.db.assertions <==> (issuer, jti) in w.db.assertions || PresentedIn(ops, issuer, jti)
    decreases |ops|
  {
    if ops != [] {
      AssertionStep(w, ops[0], issuer, jti);
      AssertionsRun(Do(w, ops[0]), ops[1..], v, issuer, jti);
      assert PresentedIn(ops, issuer, jti) <==> Presents(ops[0], issuer, jti) || PresentedIn(ops[1..], issuer, jti) by {
        PresentedFirst(ops, issuer, jti);
      }
    }
  }

  lemma PresentedFirst(ops: seq<Op>, issuer: string, jti: string)
    requires ops != []
    ensures PresentedIn(ops, issuer, jti) <==> Presents(ops[0], issuer, jti) || PresentedIn(ops[1..], issuer, jti)
  {
    if i :| 0 <= i < |ops| && Presents(ops[i], issuer, jti) {
      assert i > 0 ==> ops[1..][i - 1] == ops[i];
    }
    if i :| 0 <= i < |ops[1..]| && Presents(ops[1..][i], issuer, jti) {
      assert ops[i + 1] == ops[1..][i];
    }
  }

  /** After any run, an assertion mints if and only if it may be taken, no request of the run
      presented one of its issuer and jti that could be, and its subject is not revoked. */
  lemma AssertsIff(ops: seq<Op>, v: World, a: Assertion, policy: Policy, names: Fresh, now: int)
    requires Run(START, ops, v)
    ensures Assert(v.db, a, policy, names, now).1.Minted? <==>
      Presentable(a, now) && !PresentedIn(ops, a.issuer, a.jti.value) && !a.subjectRevoked
  {
    if a.jti.Some? {
      AssertionsRun(START, ops, v, a.issuer, a.jti.value);
    }
  }

  /** What an assertion that mints leaves: a grant of its own with just what it says, one
      access token, a refresh token if and only if it asks for offline use, and nothing else
      changed; one that does not mint leaves the tokens and the grants as they were. */
  lemma AssertRecords(db: Db, a: Assertion, policy: Policy, names: Fresh, now: int)
    ensures
      var (e, reply) := Assert(db, a, policy, names, now);
      var g := |db.grants|;
      && e.codes == db.codes
      && (reply.Refused? ==> e.grants == db.grants && e.jtis == db.jtis && e.refresh == db.refresh)
      && (reply.Minted? ==>
            && e.grants == db.grants + [Grant(a.tenant, a.client, "xaa", a.resource, a.scope, now, None)]
            && reply == Minted(Claims(names.jti, a.resource, a.scope, a.client, now + policy.accessTtl),
                               if a.offline then Some(names.refreshHash) else None)
            && e.jtis == db.jtis[names.jti := JtiRow(g, a.tenant, a.resource, now + policy.accessTtl, None)]
            && e.refresh ==
                 if a.offline
                 then db.refresh[names.refreshHash := Refresh(g, a.resource, now + policy.refreshTtl, None)]
                 else db.refresh)
  {
  }

  /** A code works for a minute from the consent, whatever happens in between. */
  lemma CodeLastsAMinute(w: World, op: Op, ops: seq<Op>, v: World, req: Redemption, gate: Gate, names: Fresh, now: int)
    requires op.DoConsent? && CanDo(w, op) && Run(Do(w, op), ops, v) && req.code == Some(op.c)
    ensures Redeem(v.db, req, gate, names, now).1.Minted? ==> now <= op.now + 60
  {
    RedeemsAsConsented(Do(w, op), ops, v, op.c, req, gate, names, now);
  }

  // ---- why a request is refused -----------------------------------------------------------------------

  /** What each refusal of a code says is wrong. */
  predicate RedeemFault(db: Db, req: Redemption, gate: Gate, now: int, why: Refusal) {
    var named := req.code.Some? && req.client.Some?;
    var found := named && req.code.value in db.codes;
    match why
    case InvalidRequest => !named
    case UnknownCode => named && !found
    case CodeUsed => found && db.codes[req.code.value].consumed.Some?
    case CodeExpired => found && db.codes[req.code.value].expires < now
    case ClientMismatch => found && db.codes[req.code.value].client != req.client.value
    case RedirectMismatch => found && Some(db.codes[req.code.value].redirectUri) != req.redirectUri
    case ResourceMismatch => found && req.resource.Some? && db.codes[req.code.value].resource != req.resource.value
    case VerifierMissing => req.challenge.None?
    case VerifierMismatch => found && req.challenge.Some? && db.codes[req.code.value].challenge != req.challenge.value
    case UnknownClient => !gate.identified
    case ClientBlocked => gate.blocked
    case SecretMissing => gate.secret == Missing
    case SecretWrong => gate.secret == Wrong
    case _ => false
  }

  /** The order in which a code's faults are reported. */
  function RedeemRank(why: Refusal): nat {
    match why
    case InvalidRequest => 0
    case UnknownCode => 1
    case CodeUsed => 2
    case CodeExpired => 3
    case ClientMismatch => 4
    case RedirectMismatch => 5
    case ResourceMismatch => 6
    case VerifierMissing => 7
    case VerifierMismatch => 8
    case UnknownClient => 9
    case ClientBlocked => 10
    case SecretMissing => 11
    case SecretWrong => 12
    case _ => 13
  }

  lemma RedeemFaultsChecked(db: Db, req: Redemption, gate: Gate, now: int)
    ensures
      match RedeemCheck(db, req, gate, now)
      case None => forall w :: !RedeemFault(db, req, gate, now, w)
      case Some(why) =>
        && RedeemFault(db, req, gate, now, why)
        && forall w :: RedeemFault(db, req, gate, now, w) ==> RedeemRank(why) <= RedeemRank(w)
  {
  }

  /** A code is refused for the first fault in that order, and only for a fault. */
  lemma RedeemRefusedFor(db: Db, req: Redemption, gate: Gate, names: Fresh, now: int, why: Refusal)
    ensures Redeem(db, req, gate, names, now).1 == Refused(why) <==>
      && RedeemFault(db, req, gate, now, why)
      && forall w :: RedeemFault(db, req, gate, now, w) ==> RedeemRank(why) <= RedeemRank(w)
  {
    RedeemFaultsChecked(db, req, gate, now);
  }

  predicate RefreshFault(db: Db, token: Option<Hash>, gate: Gate, now: int, why: Refusal) {
    var found := token.Some? && token.value in db.refresh;
    var granted := found && db.refresh[token.value].grant < |db.grants|;
    match why
    case InvalidRequest => token.None?
    case UnknownRefreshToken => token.Some? && !found
    case AlreadyRotated => found && db.refresh[token.value].rotated.Some?
    case GrantNotFound => found && !granted
    case GrantRevoked => granted && db.grants[db.refresh[token.value].grant].revoked.Some?
    case ClientBlocked => gate.blocked
    case GrantExpired =>
      && granted && gate.policy.maxAge.Some?
      && db.grants[db.refresh[token.value].grant].created + gate.policy.maxAge.value < now
    case ReconsentRequired =>
      && granted && gate.policy.reconsentAfter.Some?
      && db.grants[db.refresh[token.value].grant].created + gate.policy.reconsentAfter.value < now
    case RefreshExpired => found && db.refresh[token.value].expires < now
    case _ => false
  }

  function RefreshRank(why: Refusal): nat {
    match why
    case InvalidRequest => 0
    case UnknownRefreshToken => 1
    case AlreadyRotated => 2
    case GrantNotFound => 3
    case GrantRevoked => 4
    case ClientBlocked => 5
    case GrantExpired => 6
    case ReconsentRequired => 7
    case RefreshExpired => 8
    case _ => 9
  }

  lemma RefreshFaultsChecked(db: Db, token: Option<Hash>, gate: Gate, now: int)
    ensures
      match RefreshCheck(db, token, gate, now)
      case None => forall w :: !RefreshFault(db, token, gate, now, w)
      case Some(why) =>
        && RefreshFault(db, token, gate, now, why)
        && forall w :: RefreshFault(db, token, gate, now, w) ==> RefreshRank(why) <= RefreshRank(w)
  {
  }

  /** So is a refresh token. */
  lemma RefreshRefusedFor(db: Db, token: Option<Hash>, gate: Gate, names: Fresh, now: int, why: Refusal)
    ensures RefreshGrant(db, token, gate, names, now).1 == Refused(why) <==>
      && RefreshFault(db, token, gate, now, why)
      && forall w :: RefreshFault(db, token, gate, now, w) ==> RefreshRank(why) <= RefreshRank(w)
  {
    RefreshFaultsChecked(db, token, gate, now);
  }

  /** After a run, what each refusal of an assertion says is wrong. */
  predicate AssertFault(ops: seq<Op>, a: Assertion, now: int, why: Refusal) {
    match why
    case AssertionRejected => !a.authentic
    case AssertionMalformed => a.exp.None? || a.jti.None? || a.jti.value == ""
    case AssertionExpired => a.exp.Some? && a.exp.value + 300 < now
    case AssertionNotYetValid =>
      (a.nbf.Some? && now + 300 < a.nbf.value) || (a.iat.Some? && now + 300 < a.iat.value)
    case AssertionReplayed => a.jti.Some? && PresentedIn(ops, a.issuer, a.jti.value)
    case SubjectRevoked => a.subjectRevoked
    case _ => false
  }

  /** The order in which an assertion's faults are reported; a missing expiry comes first of the
      two ways to be malformed. */
  function AssertRank(a: Assertion, why: Refusal): nat {
    match why
    case AssertionRejected => 0
    case AssertionMalformed => if a.exp.None? then 1 else 4
    case AssertionExpired => 2
    case AssertionNotYetValid => 3
    case AssertionReplayed => 5
    case SubjectRevoked => 6
    case _ => 7
  }

  lemma AssertFaultsChecked(ops: seq<Op>, db: Db, a: Assertion, now: int)
    requires a.jti.Some? ==> ((a.issuer, a.jti.value) in db.assertions <==> PresentedIn(ops, a.issuer, a.jti.value))
    ensures
      match AssertionCheck(db, a, now)
      case None => forall w :: AssertFault(ops, a, now, w) ==> w == SubjectRevoked
      case Some(why) =>
        && AssertFault(ops, a, now, why)
        && forall w :: AssertFault(ops, a, now, w) ==> AssertRank(a, why) <= AssertRank(a, w)
  {
  }

  /** So is an assertion. */
  lemma AssertRefusedFor(ops: seq<Op>, v: World, a: Assertion, policy: Policy, names: Fresh, now: int, why: Refusal)
    requires Run(START, ops, v)
    ensures Assert(v.db, a, policy, names, now).1 == Refused(why) <==>
      && AssertFault(ops, a, now, why)
      && forall w :: AssertFault(ops, a, now, w) ==> AssertRank(a, why) <= AssertRank(a, w)
  {
    if a.jti.Some? {
      AssertionsRun(START, ops, v, a.issuer, a.jti.value);
    }
    AssertFaultsChecked(ops, v.db, a, now);
  }

  // ---- what the other mints leave ------------------------------------------------------------------

  /** Redeeming uses the code up for a new grant with what was consented to, and records one
      access token and one refresh token of it, each with its own lifetime. */
  lemma RedeemRecords(db: Db, req: Redemption, gate: Gate, names: Fresh, now: int)
    requires Redeem(db, req, gate, names, now).1.Minted?
    ensures req.code.Some? && req.code.value in db.codes
    ensures
      var (e, reply) := Redeem(db, req, gate, names, now);
      var row, g := db.codes[req.code.value], |db.grants|;
      && e.codes == db.codes[req.code.value := row.(consumed := Some(now), grant := Some(g))]
      && e.grants ==
           db.grants + [Grant(row.tenant, row.client, row.clientMethod, row.resource, row.scope, now, None)]
      && reply == Minted(Claims(names.jti, row.resource, row.scope, row.client, now + gate.policy.accessTtl),
                         Some(names.refreshHash))
      && e.jtis == db.jtis[names.jti := JtiRow(g, row.tenant, row.resource, now + gate.policy.accessTtl, None)]
      && e.refresh ==
           db.refresh[names.refreshHash := Refresh(g, row.resource, now + gate.policy.refreshTtl, None)]
      && e.assertions == db.assertions
  {
  }

  /** Refreshing retires the token presented and records its successor, under the same grant. */
  lemma RefreshRecords(db: Db, h: Hash, gate: Gate, names: Fresh, now: int)
    requires RefreshGrant(db, Some(h), gate, names, now).1.Minted?
    ensures h in db.refresh && db.refresh[h].grant < |db.grants|
    ensures
      var (e, reply) := RefreshGrant(db, Some(h), gate, names, now);
      var row, grant := db.refresh[h], db.grants[db.refresh[h].grant];
      && e.codes == db.codes && e.grants == db.grants && e.assertions == db.assertions
      && reply == Minted(Claims(names.jti, row.resource, grant.scope, grant.client, now + gate.policy.accessTtl),
                         Some(names.refreshHash))
      && e.jtis ==
           db.jtis[names.jti := JtiRow(row.grant, grant.tenant, row.resource, now + gate.policy.accessTtl, None)]
      && e.refresh ==
           db.refresh[h := row.(rotated := Some(now))]
                     [names.refreshHash := Refresh(row.grant, row.resource, now + gate.policy.refreshTtl, None)]
  {
  }

  /** A bearer token is accepted if and only if it has not expired, a minute to spare, is
      recorded and not denied, and is meant for the resource it was recorded for. */
  lemma BearerIff(db: Db, claims: Claims, now: int)
    ensures Validate(db, claims, now).Success? <==>
      && now <= claims.exp + 60
      && claims.jti in db.jtis && db.jtis[claims.jti].denied.None? && db.jtis[claims.jti].resource == claims.aud
  {
  }

  /** The rows that belong to grant `g`. */
  function TokensOf(db: Db, g: nat): set<string> {
    set j | j in db.jtis && db.jtis[j].grant == g
  }

  function RefreshOf(db: Db, g: nat): set<Hash> {
    set h | h in db.refresh && db.refresh[h].grant == g
  }

  /** Grant `g` and the rows that belong to it are the same in both. */
  predicate SameFamily(db: Db, e: Db, g: nat) {
    && g < |db.grants| && g < |e.grants| && e.grants[g] == db.grants[g]
    && TokensOf(e, g) == TokensOf(db, g)
    && RefreshOf(e, g) == RefreshOf(db, g)
  }

  lemma RevokeSpares(db: Db, k: nat, now: int, g: nat)
    requires g < |db.grants| && db.grants[g].revoked.Some?
    ensures SameFamily(db, RevokeFamily(db, k, now), g)
  {
  }

  lemma IssueSpares(
    db: Db, k: nat, tenant: int, resource: string, scope: string, client: string,
    withRefresh: bool, policy: Policy, names: Fresh, now: int, g: nat)
    requires g < |db.grants| && g != k && IsFresh(db, names)
    ensures SameFamily(db, Issue(db, k, tenant, resource, scope, client, withRefresh, policy, names, now).0, g)
  {
  }

  lemma RedeemSpares(w: World, req: Redemption, gate: Gate, names: Fresh, now: int, g: nat)
    requires IsFresh(w.db, names) && g < |w.db.grants| && w.db.grants[g].revoked.Some?
    ensures SameFamily(w.db, Redeem(w.db, req, gate, names, now).0, g)
  {
    match RedeemCheck(w.db, req, gate, now)
    case Some(CodeUsed) =>
      if w.db.codes[req.code.value].grant.Some? {
        RevokeSpares(w.db, w.db.codes[req.code.value].grant.value, now, g);
      }
    case Some(_) =>
    case None =>
      var c := req.code.value;
      var row, k := w.db.codes[c], |w.db.grants|;
      var db1 := w.db.(
        codes := w.db.codes[c := row.(consumed := Some(now), grant := Some(k))],
        grants := w.db.grants + [Grant(row.tenant, row.client, row.clientMethod, row.resource, row.scope, now, None)]);
      assert SameFamily(w.db, db1, g);
      IssueSpares(db1, k, row.tenant, row.resource, row.scope, row.client, true, gate.policy, names, now, g);
  }

  lemma RefreshSpares(w: World, token: Option<Hash>, gate: Gate, names: Fresh, now: int, g: nat)
    requires IsFresh(w.db, names) && g < |w.db.grants| && w.db.grants[g].revoked.Some?
    ensures SameFamily(w.db, RefreshGrant(w.db, token, gate, names, now).0, g)
  {
    match RefreshCheck(w.db, token, gate, now)
    case Some(AlreadyRotated) => RevokeSpares(w.db, w.db.refresh[token.value].grant, now, g);
    case Some(_) =>
    case None =>
      var row := w.db.refresh[token.value];
      var grant, db1 := w.db.grants[row.grant], Rotate(w.db, token.value, now);
      assert SameFamily(w.db, db1, g);
      IssueSpares(db1, row.grant, grant.tenant, row.resource, grant.scope, grant.client, true, gate.policy, names,
                  now, g);
  }

  lemma AssertSpares(w: World, a: Assertion, policy: Policy, names: Fresh, now: int, g: nat)
    requires IsFresh(w.db, names) && g < |w.db.grants|
    ensures SameFamily(w.db, Assert(w.db, a, policy, names, now).0, g)
  {
    if AssertionCheck(w.db, a, now).None? && !a.subjectRevoked {
      var db2 := w.db.(
        assertions := w.db.assertions + {(a.issuer, a.jti.value)},
        grants := w.db.grants + [Grant(a.tenant, a.client, "xaa", a.resource, a.scope, now, None)]);
      assert SameFamily(w.db, db2, g);
      IssueSpares(db2, |w.db.grants|, a.tenant, a.resource, a.scope, a.client, a.offline, policy, names, now, g);
    }
  }

  lemma RevokedStep(w: World, op: Op, g: nat)
    requires CanDo(w, op) && g < |w.db.grants| && w.db.grants[g].revoked.Some?
    ensures SameFamily(w.db, Do(w, op).db, g)
  {
    match op
    case DoConsent(_, _, _, _, _, _, _, _, _) =>
    case DoRedeem(req, gate, names, now) => RedeemSpares(w, req, gate, names, now, g);
    case DoRefresh(token, gate, names, now) => RefreshSpares(w, token, gate, names, now, g);
    case DoAssert(a, policy, names, now) => AssertSpares(w, a, policy, names, now, g);
    case DoTenantRevoke(k, tenant, now) => RevokeSpares(w.db, k, now, g);
    case DoTokenRevoke(token, now) =>
      if token in w.db.refresh {
        RevokeSpares(w.db, w.db.refresh[token].grant, now, g);
      }
  }

  /** Once a grant is revoked it stays so and nothing is minted for it any more. */
  lemma {:induction false} RevokedForGood(w: World, ops: seq<Op>, v: World, g: nat)
    requires Run(w, ops, v) && g < |w.db.grants| && w.db.grants[g].revoked.Some?
    ensures SameFamily(w.db, v.db, g)
    decreases |ops|
  {
    if ops != [] {
      RevokedStep(w, ops[0], g);
      RevokedForGood(Do(w, ops[0]), ops[1..], v, g);
    }
  }

  lemma RevokedIsRefused(w: World, g: nat)
    requires Inv(w) && g < |w.db.grants| && w.db.grants[g].revoked.Some?
    ensures TokensOf(w.db, g) <= w.signed.Keys
    ensures forall j, now | j in TokensOf(w.db, g) :: Validate(w.db, w.signed[j], now).Failure?
    ensures forall h, gate, names, now | h in RefreshOf(w.db, g) ::
      RefreshGrant(w.db, Some(h), gate, names, now).1.Refused?
  {
    forall j <- TokensOf(w.db, g) ensures j in w.signed && w.db.jtis[j].denied.Some? && w.signed[j].jti == j {
      assert TokenOfGrant(w, j);
    }
    forall h <- RefreshOf(w.db, g) ensures w.db.refresh[h].rotated.Some? {
      assert RefreshOfGrant(w.db, h);
    }
  }

  /** And from then on every access token it ever had is refused, at any time, and none
      of its refresh tokens works. */
  lemma RevokedMeansRefused(ops: seq<Op>, w: World, more: seq<Op>, v: World, g: nat)
    requires Run(START, ops, w) && g < |w.db.grants| && w.db.grants[g].revoked.Some?
    requires Run(w, more, v)
    ensures TokensOf(v.db, g) == TokensOf(w.db, g) <= v.signed.Keys
    ensures forall j, now | j in TokensOf(v.db, g) :: Validate(v.db, v.signed[j], now).Failure?
    ensures forall h, gate, names, now | h in RefreshOf(v.db, g) ::
      RefreshGrant(v.db, Some(h), gate, names, now).1.Refused?
  {
    assert Inv(v) by {
      RunInv(START, ops, w);
      RunInv(w, more, v);
    }
    RevokedForGood(w, more, v, g);
    RevokedIsRefused(v, g);
  }

  /** A stamp that is set once. */
  function Stamped(was: Option<int>, now: int): Option<int> {
    if was.Some? then was else Some(now)
  }

  /** What revoking grant `g` does: it, its access tokens and its refresh tokens are stamped, each
      unless it was before. */
  lemma RevocationStamps(db: Db, g: nat, now: int)
    ensures
      var e := RevokeFamily(db, g, now);
      && |e.grants| == |db.grants| && e.jtis.Keys == db.jtis.Keys && e.refresh.Keys == db.refresh.Keys
      && (g < |db.grants| ==> e.grants[g] == db.grants[g].(revoked := Stamped(db.grants[g].revoked, now)))
      && (forall j <- db.jtis | db.jtis[j].grant == g ::
            e.jtis[j] == db.jtis[j].(denied := Stamped(db.jtis[j].denied, now)))
      && forall h <- db.refresh | db.refresh[h].grant == g ::
           e.refresh[h] == db.refresh[h].(rotated := Stamped(db.refresh[h].rotated, now))
  {
  }

  /** A tenant is told that it revoked a grant if and only if the grant is its own and was not
      revoked before: it is then revoked at that moment, and otherwise nothing changes. */
  lemma TenantRevokesIff(db: Db, g: nat, tenant: int, now: int)
    ensures
      var (e, told) := TenantRevoke(db, g, tenant, now);
      && (told <==> g < |db.grants| && db.grants[g].tenant == tenant && db.grants[g].revoked.None?)
      && (told ==> g < |e.grants| && e.grants[g].revoked == Some(now))
      && (!told ==> e == db)
  {
  }

  /** The rows of grant `g`, stamps and all, are the same in both. */
  predicate SameRows(db: Db, e: Db, g: nat) {
    && (forall j <- db.jtis | db.jtis[j].grant == g :: j in e.jtis && e.jtis[j] == db.jtis[j])
    && (forall h <- db.refresh | db.refresh[h].grant == g :: h in e.refresh && e.refresh[h] == db.refresh[h])
  }

  lemma AllStamped(w: World, g: nat)
    requires Inv(w) && g < |w.db.grants| && w.db.grants[g].revoked.Some?
    ensures forall j <- w.db.jtis | w.db.jtis[j].grant == g :: w.db.jtis[j].denied.Some?
    ensures forall h <- w.db.refresh | w.db.refresh[h].grant == g :: w.db.refresh[h].rotated.Some?
  {
    forall j <- w.db.jtis | w.db.jtis[j].grant == g ensures w.db.jtis[j].denied.Some? {
      assert TokenOfGrant(w, j);
    }
    forall h <- w.db.refresh | w.db.refresh[h].grant == g ensures w.db.refresh[h].rotated.Some? {
      assert RefreshOfGrant(w.db, h);
    }
  }

  /** Every row of grant `g` has its stamp. */
  predicate Sealed(db: Db, g: nat) {
    && (forall j <- db.jtis | db.jtis[j].grant == g :: db.jtis[j].denied.Some?)
    && (forall h <- db.refresh | db.refresh[h].grant == g :: db.refresh[h].rotated.Some?)
  }

  lemma RevokeSameRows(db: Db, k: nat, now: int, g: nat)
    requires Sealed(db, g)
    ensures SameRows(db, RevokeFamily(db, k, now), g)
  {
  }

  lemma RedeemSameRows(db: Db, req: Redemption, gate: Gate, names: Fresh, now: int, g: nat)
    requires Sealed(db, g) && IsFresh(db, names)
    ensures SameRows(db, Redeem(db, req, gate, names, now).0, g)
  {
    if Redeem(db, req, gate, names, now).1.Minted? {
      RedeemRecords(db, req, gate, names, now);
    } else if req.code.Some? && req.code.value in db.codes && db.codes[req.code.value].grant.Some? {
      RevokeSameRows(db, db.codes[req.code.value].grant.value, now, g);
    }
  }

  lemma RefreshSameRows(db: Db, token: Option<Hash>, gate: Gate, names: Fresh, now: int, g: nat)
    requires Sealed(db, g) && IsFresh(db, names)
    ensures SameRows(db, RefreshGrant(db, token, gate, names, now).0, g)
  {
    if token.Some? && token.value in db.refresh {
      if RefreshGrant(db, token, gate, names, now).1.Minted? {
        RefreshRecords(db, token.value, gate, names, now);
        assert db.refresh[token.value].rotated.None?;
      } else {
        RevokeSameRows(db, db.refresh[token.value].grant, now, g);
      }
    }
  }

  lemma AssertSameRows(db: Db, a: Assertion, policy: Policy, names: Fresh, now: int, g: nat)
    requires IsFresh(db, names)
    ensures SameRows(db, Assert(db, a, policy, names, now).0, g)
  {
    AssertRecords(db, a, policy, names, now);
  }

  lemma RowsStep(w: World, op: Op, g: nat)
    requires Inv(w) && CanDo(w, op) && g < |w.db.grants| && w.db.grants[g].revoked.Some?
    ensures SameRows(w.db, Do(w, op).db, g)
  {
    assert Sealed(w.db, g) by {
      AllStamped(w, g);
    }
    match op
    case DoConsent(_, _, _, _, _, _, _, _, _) =>
    case DoRedeem(req, gate, names, now) => RedeemSameRows(w.db, req, gate, names, now, g);
    case DoRefresh(token, gate, names, now) => RefreshSameRows(w.db, token, gate, names, now, g);
    case DoAssert(a, policy, names, now) => AssertSameRows(w.db, a, policy, names, now, g);
    case DoTenantRevoke(k, tenant, now) => RevokeSameRows(w.db, k, now, g);
    case DoTokenRevoke(token, now) =>
      if token in w.db.refresh {
        RevokeSameRows(w.db, w.db.refresh[token].grant, now, g);
      }
  }

  /** After any run, a revoked grant's tokens keep every stamp they have, whatever follows. */
  lemma {:induction false} RevokedRowsFinal(w: World, ops: seq<Op>, v: World, g: nat)
    requires Inv(w) && Run(w, ops, v) && g < |w.db.grants| && w.db.grants[g].revoked.Some?
    ensures SameRows(w.db, v.db, g)
    decreases |ops|
  {
    if ops != [] {
      RowsStep(w, ops[0], g);
      RevokedStep(w, ops[0], g);
      StepInv(w, ops[0]);
      RevokedRowsFinal(Do(w, ops[0]), ops[1..], v, g);
    }
  }

  // ---- what revokes ---------------------------------------------------------------------------------

  /** The requests that are to revoke grant `g`: the replay of a code it was founded on, the
      reuse of one of its rotated refresh tokens, the revocation of any of its refresh tokens,
      and its own tenant's revocation of it. */
  predicate AsksToRevoke(w: World, op: Op, g: nat) {
    match op
    case DoRedeem(req, _, _, _) =>
      && req.code.Some? && req.client.Some? && req.code.value in w.db.codes
      && w.db.codes[req.code.value].consumed.Some? && w.db.codes[req.code.value].grant == Some(g)
    case DoRefresh(token, _, _, _) =>
      && token.Some? && token.value in w.db.refresh
      && w.db.refresh[token.value].grant == g && w.db.refresh[token.value].rotated.Some?
    case DoTokenRevoke(token, _) => token in w.db.refresh && w.db.refresh[token].grant == g
    case DoTenantRevoke(k, tenant, _) => k == g && g < |w.db.grants| && w.db.grants[g].tenant == tenant
    case _ => false
  }

  lemma GrantExists(w: World, op: Op, g: nat)
    requires Inv(w) && AsksToRevoke(w, op, g)
    ensures g < |w.db.grants|
  {
    match op
    case DoRedeem(req, _, _, _) => assert CodeOfGrant(w.db, req.code.value);
    case DoRefresh(token, _, _, _) => assert RefreshOfGrant(w.db, token.value);
    case DoTokenRevoke(token, _) => assert RefreshOfGrant(w.db, token);
    case _ =>
  }

  /** Each of them leaves the grant revoked. */
  lemma RequestRevokes(w: World, op: Op, g: nat)
    requires Inv(w) && CanDo(w, op) && AsksToRevoke(w, op, g)
    ensures g < |Do(w, op).db.grants| && Do(w, op).db.grants[g].revoked.Some?
  {
    GrantExists(w, op, g);
  }

  /** After any such request, at whatever point of whatever run and whatever follows, every
      access token the grant ever had is refused, none of its refresh tokens works, and nothing
      is added to it. */
  lemma RevokedOnceAsked(ops: seq<Op>, w: World, op: Op, more: seq<Op>, v: World, g: nat)
    requires Run(START, ops, w) && CanDo(w, op) && AsksToRevoke(w, op, g)
    requires Run(Do(w, op), more, v)
    ensures TokensOf(v.db, g) == TokensOf(Do(w, op).db, g) <= v.signed.Keys
    ensures forall j, now | j in TokensOf(v.db, g) :: Validate(v.db, v.signed[j], now).Failure?
    ensures forall h, gate, names, now | h in RefreshOf(v.db, g) ::
      RefreshGrant(v.db, Some(h), gate, names, now).1.Refused?
  {
    RunInv(START, ops, w);
    RequestRevokes(w, op, g);
    RunOneMore(START, ops, w, op);
    RevokedMeansRefused(ops + [op], Do(w, op), more, v, g);
  }

  lemma {:induction false} RunOneMore(w: World, ops: seq<Op>, v: World, op: Op)
    requires Run(w, ops, v) && CanDo(v, op)
    ensures Run(w, ops + [op], Do(v, op))
    decreases |ops|
  {
    if ops == [] {
      assert ops + [op] == [op] && [op][1..] == [];
    } else {
      assert (ops + [op])[0] == ops[0] && (ops + [op])[1..] == ops[1..] + [op];
      RunOneMore(Do(w, ops[0]), ops[1..], v, op);
    }
  }

  /** Whatever belongs to other grants is as it was. */
  predicate OthersUntouched(db: Db, e: Db, g: nat) {
    && e.codes == db.codes && e.assertions == db.assertions
    && |e.grants| == |db.grants| && e.jtis.Keys == db.jtis.Keys && e.refresh.Keys == db.refresh.Keys
    && (forall k | 0 <= k < |db.grants| && k != g :: e.grants[k] == db.grants[k])
    && (forall j <- db.jtis | db.jtis[j].grant != g :: e.jtis[j] == db.jtis[j])
    && (forall h <- db.refresh | db.refresh[h].grant != g :: e.refresh[h] == db.refresh[h])
  }

  /** A tenant's revocation reaches its own grant alone, another's not at all; a refresh
      token's revocation reaches the grant it belongs to alone. */
  lemma RevocationReachesOne(db: Db, g: nat, tenant: int, token: Hash, now: int)
    ensures OthersUntouched(db, TenantRevoke(db, g, tenant, now).0, g)
    ensures g < |db.grants| && db.grants[g].tenant != tenant ==> TenantRevoke(db, g, tenant, now) == (db, false)
    ensures if token in db.refresh then OthersUntouched(db, TokenRevoke(db, token, now), db.refresh[token].grant)
      else TokenRevoke(db, token, now) == db
  {
    RevokeFamilyReaches(db, g, now);
    if token in db.refresh {
      RevokeFamilyReaches(db, db.refresh[token].grant, now);
    }
  }

  lemma RevokeFamilyReaches(db: Db, g: nat, now: int)
    ensures OthersUntouched(db, RevokeFamily(db, g, now), g)
  {
  }
}

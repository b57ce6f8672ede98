/** Concurrent token requests, interleaved between any two storage statements. */
module OauthClaims {
  import opened Wrappers

  // A request looks its credential up, claims it with one guarded statement, then creates a grant (a refresh token
  // renews the one it has), records an access token and a refresh token. Another request may run between any of
  // these, any request may fail at any point, and a replayed credential retires the tokens of its grant.

  type Hash = string

  /** What a request presents, each good for one success. */
  datatype Credential =
    | AuthCode(code: Hash)
    | RefreshToken(token: Hash)
    | Assertion(issuer: string, jti: string)

  /** Which credential something was made for, and by which request. */
  datatype Origin = Origin(credential: Credential, request: nat)

  datatype CodeRow = CodeRow(consumed: bool, grant: Option<nat>)

  datatype TokenRow = TokenRow(grant: nat, rotated: bool, origin: Origin)

  datatype AccessRow = AccessRow(grant: nat, origin: Origin)

  datatype Stage =
    | Looking
    | Claiming
    | Founding                          // the claim is won, the grant is next
    | LinkingCode(grant: nat)           // the grant is made, the code learns it
    | MintingAccess(grant: nat)
    | MintingRefresh(grant: nat)
    | Retiring(grant: nat)              // a replay: the grant's tokens are retired
    | Finished

  /** A request, with what it has made so far. */
  datatype Request = Request(
    credential: Credential, stage: Stage,
    grant: Option<nat>, access: Option<nat>, token: Option<Hash>)

  /** The tables, the requests, and (for the record) which request won each claim. */
  datatype State = State(
    codes: map<Hash, CodeRow>,
    tokens: map<Hash, TokenRow>,
    asserted: set<(string, string)>,
    grants: seq<Origin>,
    access: seq<AccessRow>,
    requests: map<nat, Request>,
    winners: map<Credential, nat>)

  datatype Step =
    | Consent(code: Hash)
    | Arrive(r: nat, credential: Credential)
    | Look(r: nat)
    | Claim(r: nat)
    | Found(r: nat)
    | LinkCode(r: nat)
    | MintAccess(r: nat)
    | MintRefresh(r: nat, minted: Hash, wanted: bool)
    | Retire(r: nat)
    | Fail(r: nat)

  predicate At(s: State, r: nat, stage: Stage) {
    r in s.requests && s.requests[r].stage == stage
  }

  predicate CanDo(s: State, step: Step) {
    match step
    case Consent(code) => code !in s.codes && AuthCode(code) !in s.winners
    case Arrive(r, _) => r !in s.requests
    case Look(r) => At(s, r, Looking)
    case Claim(r) => At(s, r, Claiming)
    case Found(r) => At(s, r, Founding)
    case LinkCode(r) => r in s.requests && s.requests[r].stage.LinkingCode?
    case MintAccess(r) => r in s.requests && s.requests[r].stage.MintingAccess?
    case MintRefresh(r, h, _) =>
      && r in s.requests && s.requests[r].stage.MintingRefresh?
      && h !in s.tokens && RefreshToken(h) !in s.winners
    case Retire(r) => r in s.requests && s.requests[r].stage.Retiring?
    case Fail(r) => r in s.requests
  }

  function Goto(s: State, r: nat, stage: Stage): State
    requires r in s.requests
  {
    s.(requests := s.requests[r := s.requests[r].(stage := stage)])
  }

  /** The read-only look: on to the claim, to retiring a replayed family, or refused. */
  function AfterLook(s: State, c: Credential): Stage {
    match c
    case AuthCode(code) =>
      if code !in s.codes then Finished
      else if !s.codes[code].consumed then Claiming
      else if s.codes[code].grant.Some? then Retiring(s.codes[code].grant.value)
      else Finished
    case RefreshToken(h) =>
      if h !in s.tokens then Finished
      else if s.tokens[h].rotated then Retiring(s.tokens[h].grant)
      else Claiming
    case Assertion(_, _) => Claiming
  }

  /** Whether the guarded claim statement would change a row. */
  predicate Unclaimed(s: State, c: Credential) {
    match c
    case AuthCode(code) => code in s.codes && !s.codes[code].consumed
    case RefreshToken(h) => h in s.tokens && !s.tokens[h].rotated
    case Assertion(issuer, jti) => (issuer, jti) !in s.asserted
  }

  function Claimed(s: State, c: Credential): State
    requires Unclaimed(s, c)
  {
    match c
    case AuthCode(code) => s.(codes := s.codes[code := s.codes[code].(consumed := true)])
    case RefreshToken(h) => s.(tokens := s.tokens[h := s.tokens[h].(rotated := true)])
    case Assertion(issuer, jti) => s.(asserted := s.asserted + {(issuer, jti)})
  }

  function Retired(tokens: map<Hash, TokenRow>, g: nat): map<Hash, TokenRow> {
    map h | h in tokens :: if tokens[h].grant == g then tokens[h].(rotated := true) else tokens[h]
  }

  function Do(s: State, step: Step): State
    requires CanDo(s, step)
  {
    match step
    case Consent(code) => s.(codes := s.codes[code := CodeRow(false, None)])
    case Arrive(r, c) => s.(requests := s.requests[r := Request(c, Looking, None, None, None)])
    case Look(r) => Goto(s, r, AfterLook(s, s.requests[r].credential))
    case Claim(r) =>
      var c := s.requests[r].credential;
      if !Unclaimed(s, c) then Goto(s, r, Finished)
      else
        var stage := if c.RefreshToken? then MintingAccess(s.tokens[c.token].grant) else Founding;
        Goto(Claimed(s, c), r, stage).(winners := s.winners[c := r])
    case Found(r) =>
      var q := s.requests[r];
      var g := |s.grants|;
      var stage := if q.credential.AuthCode? then LinkingCode(g) else MintingAccess(g);
      s.(grants := s.grants + [Origin(q.credential, r)],
         requests := s.requests[r := q.(stage := stage, grant := Some(g))])
    case LinkCode(r) =>
      var q := s.requests[r];
      var g := q.stage.grant;
      var s1 := Goto(s, r, MintingAccess(g));
      if q.credential.AuthCode? && q.credential.code in s.codes
      then s1.(codes := s.codes[q.credential.code := s.codes[q.credential.code].(grant := Some(g))])
      else s1
    case MintAccess(r) =>
      var q := s.requests[r];
      s.(access := s.access + [AccessRow(q.stage.grant, Origin(q.credential, r))],
         requests := s.requests[r := q.(stage := MintingRefresh(q.stage.grant), access := Some(|s.access|))])
    case MintRefresh(r, h, wanted) =>
      var q := s.requests[r];
      if !wanted then Goto(s, r, Finished)
      else
        s.(tokens := s.tokens[h := TokenRow(q.stage.grant, false, Origin(q.credential, r))],
           requests := s.requests[r := q.(stage := Finished, token := Some(h))])
    case Retire(r) =>
      Goto(s, r, Finished).(tokens := Retired(s.tokens, s.requests[r].stage.grant))
    case Fail(r) => Goto(s, r, Finished)
  }

  const START := State(map[], map[], {}, [], [], map[], map[])

  predicate Run(s: State, steps: seq<Step>, t: State)
    decreases |steps|
  {
    if steps == [] then s == t
    else CanDo(s, steps[0]) && Run(Do(s, steps[0]), steps[1..], t)
  }

  // ---- what every step keeps ---------------------------------------------------------

  predicate Past(stage: Stage) {
    stage.Founding? || stage.LinkingCode? || stage.MintingAccess? || stage.MintingRefresh?
  }

  /** A request past its claim won it, and has made nothing that is still to come. */
  predicate OnCourse(s: State, r: nat)
    requires r in s.requests
  {
    var q := s.requests[r];
    && (Past(q.stage) ==> q.credential in s.winners && s.winners[q.credential] == r)
    && (q.stage.Looking? || q.stage.Claiming? || q.stage.Founding? || q.stage.Retiring? ==>
          q.grant == None && q.access == None && q.token == None)
    && (q.stage.LinkingCode? || q.stage.MintingAccess? ==> q.access == None && q.token == None)
    && (q.stage.MintingRefresh? ==> q.token == None)
  }

  /** `o` was made by the winner of its credential's claim. */
  predicate ByWinner(s: State, o: Origin) {
    && o.credential in s.winners && s.winners[o.credential] == o.request
    && o.request in s.requests && s.requests[o.request].credential == o.credential
  }

  predicate Inv(s: State) {
    && (forall c <- s.winners :: !Unclaimed(s, c) && s.winners[c] in s.requests)
    && (forall c <- s.winners :: c.AuthCode? ==> c.code in s.codes)
    && (forall r <- s.requests :: OnCourse(s, r))
    && (forall g | 0 <= g < |s.grants| ::
          ByWinner(s, s.grants[g]) && s.requests[s.grants[g].request].grant == Some(g))
    && (forall a | 0 <= a < |s.access| ::
          ByWinner(s, s.access[a].origin) && s.requests[s.access[a].origin.request].access == Some(a))
    && (forall h <- s.tokens ::
          ByWinner(s, s.tokens[h].origin) && s.requests[s.tokens[h].origin.request].token == Some(h))
  }

  /** Going on without having made anything. */
  lemma GotoInv(s: State, r: nat, stage: Stage)
    requires Inv(s) && r in s.requests && OnCourse(Goto(s, r, stage), r)
    ensures Inv(Goto(s, r, stage))
  {
    var t := Goto(s, r, stage);
    forall q <- t.requests ensures OnCourse(t, q) {
      assert OnCourse(s, q);
    }
    forall o | ByWinner(s, o) ensures ByWinner(t, o) {
    }
    forall c ensures Unclaimed(t, c) == Unclaimed(s, c) {
    }
  }

  /** Tables may change under the requests as long as no lost claim comes back. */
  lemma TablesInv(s: State, t: State)
    requires Inv(s) && t == s.(codes := t.codes, tokens := t.tokens, asserted := t.asserted)
    requires s.codes.Keys <= t.codes.Keys && t.tokens.Keys == s.tokens.Keys && s.asserted <= t.asserted
    requires forall c <- s.codes | s.codes[c].consumed :: t.codes[c].consumed
    requires forall h <- t.tokens ::
      t.tokens[h].origin == s.tokens[h].origin && (s.tokens[h].rotated ==> t.tokens[h].rotated)
    requires forall c <- t.codes | c !in s.codes :: AuthCode(c) !in s.winners
    ensures Inv(t)
  {
    forall q <- t.requests ensures OnCourse(t, q) {
      assert OnCourse(s, q);
    }
    forall c <- t.winners ensures !Unclaimed(t, c) {
      assert !Unclaimed(s, c);
    }
  }

  lemma WinInv(s: State, c: Credential, r: nat)
    requires Inv(s) && r in s.requests
    requires c !in s.winners && !Unclaimed(s, c) && (c.AuthCode? ==> c.code in s.codes)
    ensures Inv(s.(winners := s.winners[c := r]))
  {
    var t := s.(winners := s.winners[c := r]);
    forall q <- t.requests ensures OnCourse(t, q) {
      assert OnCourse(s, q);
    }
    forall d <- t.winners ensures !Unclaimed(t, d) {
      assert d in s.winners ==> !Unclaimed(s, d);
    }
  }

  lemma ClaimInv(s: State, r: nat)
    requires Inv(s) && CanDo(s, Claim(r))
    ensures Inv(Do(s, Claim(r)))
  {
    var c := s.requests[r].credential;
    if !Unclaimed(s, c) {
      GotoInv(s, r, Finished);
    } else {
      var t := Claimed(s, c);
      assert OnCourse(s, r);
      TablesInv(s, t);
      WinInv(t, c, r);
      GotoInv(t.(winners := s.winners[c := r]), r, Do(s, Claim(r)).requests[r].stage);
    }
  }

  /** The request's record of what it made grows by what it is about to make. */
  lemma MadeInv(s: State, r: nat, q: Request)
    requires Inv(s) && r in s.requests && q.credential == s.requests[r].credential
    requires q.grant == s.requests[r].grant || s.requests[r].grant == None
    requires q.access == s.requests[r].access || s.requests[r].access == None
    requires q.token == s.requests[r].token || s.requests[r].token == None
    requires OnCourse(s.(requests := s.requests[r := q]), r)
    ensures Inv(s.(requests := s.requests[r := q]))
  {
    var t := s.(requests := s.requests[r := q]);
    forall k <- t.requests ensures OnCourse(t, k) {
      assert OnCourse(s, k);
    }
    forall g | 0 <= g < |t.grants|
      ensures ByWinner(t, t.grants[g]) && t.requests[t.grants[g].request].grant == Some(g)
    {
      assert ByWinner(s, s.grants[g]);
    }
    forall a | 0 <= a < |t.access|
      ensures ByWinner(t, t.access[a].origin) && t.requests[t.access[a].origin.request].access == Some(a)
    {
      assert ByWinner(s, s.access[a].origin);
    }
    forall h <- t.tokens
      ensures ByWinner(t, t.tokens[h].origin) && t.requests[t.tokens[h].origin.request].token == Some(h)
    {
      assert ByWinner(s, s.tokens[h].origin);
    }
  }

  lemma FoundInv(s: State, r: nat)
    requires Inv(s) && CanDo(s, Found(r))
    ensures Inv(Do(s, Found(r)))
  {
    assert OnCourse(s, r);
    var t := Do(s, Found(r));
    MadeInv(s, r, t.requests[r]);
    AddedInv(s.(requests := t.requests), t);
  }

  lemma MintAccessInv(s: State, r: nat)
    requires Inv(s) && CanDo(s, MintAccess(r))
    ensures Inv(Do(s, MintAccess(r)))
  {
    assert OnCourse(s, r);
    var t := Do(s, MintAccess(r));
    MadeInv(s, r, t.requests[r]);
    AddedInv(s.(requests := t.requests), t);
  }

  lemma MintRefreshInv(s: State, r: nat, h: Hash, wanted: bool)
    requires Inv(s) && CanDo(s, MintRefresh(r, h, wanted))
    ensures Inv(Do(s, MintRefresh(r, h, wanted)))
  {
    assert OnCourse(s, r);
    var t := Do(s, MintRefresh(r, h, wanted));
    MadeInv(s, r, t.requests[r]);
    if wanted {
      AddedInv(s.(requests := t.requests), t);
    }
  }

  /** A new row that its maker's record already names. */
  lemma AddedInv(s: State, t: State)
    requires Inv(s) && t == s.(grants := t.grants, access := t.access, tokens := t.tokens)
    requires s.grants <= t.grants && s.access <= t.access && s.tokens.Keys <= t.tokens.Keys
    requires forall h <- s.tokens :: t.tokens[h] == s.tokens[h]
    requires forall h <- t.tokens | h !in s.tokens ::
      RefreshToken(h) !in s.winners && ByWinner(s, t.tokens[h].origin)
      && s.requests[t.tokens[h].origin.request].token == Some(h)
    requires forall g | |s.grants| <= g < |t.grants| ::
      ByWinner(s, t.grants[g]) && s.requests[t.grants[g].request].grant == Some(g)
    requires forall a | |s.access| <= a < |t.access| ::
      ByWinner(s, t.access[a].origin) && s.requests[t.access[a].origin.request].access == Some(a)
    ensures Inv(t)
  {
    forall k <- t.requests ensures OnCourse(t, k) {
      assert OnCourse(s, k);
    }
    forall c <- t.winners ensures !Unclaimed(t, c) {
      assert !Unclaimed(s, c);
    }
  }

  lemma StepInv(s: State, step: Step)
    requires Inv(s) && CanDo(s, step)
    ensures Inv(Do(s, step))
  {
    match step
    case Consent(code) => TablesInv(s, Do(s, step));
    case Arrive(r, c) => ArriveInv(s, r, c);
    case Look(r) =>
      assert OnCourse(s, r);
      GotoInv(s, r, AfterLook(s, s.requests[r].credential));
    case Claim(r) => ClaimInv(s, r);
    case Found(r) => FoundInv(s, r);
    case LinkCode(r) => LinkCodeInv(s, r);
    case MintAccess(r) => MintAccessInv(s, r);
    case MintRefresh(r, h, wanted) => MintRefreshInv(s, r, h, wanted);
    case Retire(r) => RetireInv(s, r);
    case Fail(r) => GotoInv(s, r, Finished);
  }

  lemma LinkCodeInv(s: State, r: nat)
    requires Inv(s) && CanDo(s, LinkCode(r))
    ensures Inv(Do(s, LinkCode(r)))
  {
    var t := Do(s, LinkCode(r));
    assert OnCourse(s, r);
    TablesInv(s, s.(codes := t.codes));
    GotoInv(s.(codes := t.codes), r, MintingAccess(s.requests[r].stage.grant));
  }

  lemma RetireInv(s: State, r: nat)
    requires Inv(s) && CanDo(s, Retire(r))
    ensures Inv(Do(s, Retire(r)))
  {
    var t := s.(tokens := Retired(s.tokens, s.requests[r].stage.grant));
    TablesInv(s, t);
    GotoInv(t, r, Finished);
  }

  lemma ArriveInv(s: State, r: nat, c: Credential)
    requires Inv(s) && CanDo(s, Arrive(r, c))
    ensures Inv(Do(s, Arrive(r, c)))
  {
    var t := Do(s, Arrive(r, c));
    forall q <- t.requests ensures OnCourse(t, q) {
      assert q != r ==> OnCourse(s, q);
    }
  }

  lemma {:induction false} RunInv(s: State, steps: seq<Step>, t: State)
    requires Inv(s) && Run(s, steps, t)
    ensures Inv(t)
    decreases |steps|
  {
    if steps != [] {
      StepInv(s, steps[0]);
      RunInv(Do(s, steps[0]), steps[1..], t);
    }
  }

  /** However requests interleave and fail, one code or one assertion founds at most one
      grant, and any one credential yields at most one access token and at most one
      refresh token. */
  lemma AtMostOnce(steps: seq<Step>, t: State)
    requires Run(START, steps, t)
    ensures forall g, k | 0 <= g < |t.grants| && 0 <= k < |t.grants| ::
      t.grants[g].credential == t.grants[k].credential ==> g == k
    ensures forall a, b | 0 <= a < |t.access| && 0 <= b < |t.access| ::
      t.access[a].origin.credential == t.access[b].origin.credential ==> a == b
    ensures forall h, i | h in t.tokens && i in t.tokens ::
      t.tokens[h].origin.credential == t.tokens[i].origin.credential ==> h == i
  {
    RunInv(START, steps, t);
  }

  // ---- what an undisturbed request does --------------------------------------------------------

  lemma RunFirst(s: State, step: Step, rest: seq<Step>, t: State)
    requires CanDo(s, step) && Run(Do(s, step), rest, t)
    ensures Run(s, [step] + rest, t)
  {
    assert ([step] + rest)[1..] == rest;
  }

  /** A consent offers a code nobody has claimed, and changes nothing else. */
  lemma ConsentOffers(s: State, code: Hash)
    requires CanDo(s, Consent(code))
    ensures
      var t := Do(s, Consent(code));
      && Unclaimed(t, AuthCode(code)) && t.codes[code].grant.None?
      && t == s.(codes := t.codes) && forall k <- s.codes :: k in t.codes && t.codes[k] == s.codes[k]
  {
  }

  /** A request that failed does nothing more. */
  lemma FailedIsOver(s: State, r: nat, step: Step)
    requires r in s.requests && !step.Consent? && !step.Fail? && step.r == r
    ensures !CanDo(Do(s, Fail(r)), step)
  {
  }

  /** The grant a credential leads to: a refresh token's own, or the next one there will be. */
  function GrantFor(s: State, c: Credential): nat
    requires Unclaimed(s, c)
  {
    if c.RefreshToken? then s.tokens[c.token].grant else |s.grants|
  }

  /** The steps from behind the claim. */
  function MintSteps(c: Credential, r: nat, h: Hash, wanted: bool): seq<Step> {
    match c
    case AuthCode(_) => [Found(r)] + ([LinkCode(r)] + [MintAccess(r), MintRefresh(r, h, wanted)])
    case RefreshToken(_) => [MintAccess(r), MintRefresh(r, h, wanted)]
    case Assertion(_, _) => [Found(r)] + [MintAccess(r), MintRefresh(r, h, wanted)]
  }

  predicate Minting(s: State, r: nat, c: Credential, g: nat) {
    r in s.requests && s.requests[r].credential == c && s.requests[r].stage == MintingAccess(g)
  }

  lemma TokensMinted(s: State, r: nat, c: Credential, g: nat, h: Hash, wanted: bool) returns (t: State)
    requires Minting(s, r, c, g) && h !in s.tokens && RefreshToken(h) !in s.winners
    ensures Run(s, [MintAccess(r), MintRefresh(r, h, wanted)], t)
    ensures t.grants == s.grants && t.codes == s.codes && t.asserted == s.asserted && At(t, r, Finished)
    ensures t.access == s.access + [AccessRow(g, Origin(c, r))]
    ensures t.tokens == if wanted then s.tokens[h := TokenRow(g, false, Origin(c, r))] else s.tokens
  {
    var u := Do(s, MintAccess(r));
    t := Do(u, MintRefresh(r, h, wanted));
    assert Run(t, [], t);
    assert [MintRefresh(r, h, wanted)] + [] == [MintRefresh(r, h, wanted)];
    RunFirst(u, MintRefresh(r, h, wanted), [], t);
    RunFirst(s, MintAccess(r), [MintRefresh(r, h, wanted)], t);
    assert [MintAccess(r)] + [MintRefresh(r, h, wanted)] == [MintAccess(r), MintRefresh(r, h, wanted)];
  }

  /** The codes once the claim of `c` has led to grant `g`. */
  function CodesAfter(s: State, c: Credential, g: nat): map<Hash, CodeRow> {
    if c.AuthCode? then s.codes[c.code := CodeRow(true, Some(g))] else s.codes
  }

  lemma GrantMinted(s: State, r: nat, c: Credential, h: Hash, wanted: bool) returns (t: State)
    requires r in s.requests && s.requests[r].credential == c && h !in s.tokens && RefreshToken(h) !in s.winners
    requires if c.RefreshToken? then s.requests[r].stage.MintingAccess? else s.requests[r].stage == Founding
    requires c.AuthCode? ==> c.code in s.codes && s.codes[c.code].consumed
    ensures Run(s, MintSteps(c, r, h, wanted), t) && At(t, r, Finished) && t.asserted == s.asserted
    ensures
      var g := if c.RefreshToken? then s.requests[r].stage.grant else |s.grants|;
      && t.grants == (if c.RefreshToken? then s.grants else s.grants + [Origin(c, r)])
      && t.access == s.access + [AccessRow(g, Origin(c, r))]
      && t.tokens == (if wanted then s.tokens[h := TokenRow(g, false, Origin(c, r))] else s.tokens)
      && t.codes == CodesAfter(s, c, g)
  {
    if c.RefreshToken? {
      t := TokensMinted(s, r, c, s.requests[r].stage.grant, h, wanted);
    } else {
      var g, u := |s.grants|, Do(s, Found(r));
      if c.AuthCode? {
        var v := Do(u, LinkCode(r));
        t := TokensMinted(v, r, c, g, h, wanted);
        RunFirst(u, LinkCode(r), [MintAccess(r), MintRefresh(r, h, wanted)], t);
        RunFirst(s, Found(r), [LinkCode(r)] + [MintAccess(r), MintRefresh(r, h, wanted)], t);
      } else {
        t := TokensMinted(u, r, c, g, h, wanted);
        RunFirst(s, Found(r), [MintAccess(r), MintRefresh(r, h, wanted)], t);
      }
    }
  }

  /** At whatever point, a request with a credential nobody has claimed that runs undisturbed uses
      it up for one access token and, if wanted, one refresh token: of a new grant, or of the refresh
      token's. */
  lemma UndisturbedMints(s: State, r: nat, c: Credential, h: Hash, wanted: bool) returns (t: State)
    requires r !in s.requests && Unclaimed(s, c) && h !in s.tokens && RefreshToken(h) !in s.winners
    ensures Run(s, [Arrive(r, c)] + ([Look(r)] + ([Claim(r)] + MintSteps(c, r, h, wanted))), t)
    ensures At(t, r, Finished) && !Unclaimed(t, c)
    ensures
      var g := GrantFor(s, c);
      && t.grants == (if c.RefreshToken? then s.grants else s.grants + [Origin(c, r)])
      && t.access == s.access + [AccessRow(g, Origin(c, r))]
      && (if wanted then h in t.tokens && t.tokens[h] == TokenRow(g, false, Origin(c, r)) else h !in t.tokens)
      && (c.AuthCode? ==> c.code in t.codes && t.codes[c.code] == CodeRow(true, Some(g)))
  {
    var s1 := Do(s, Arrive(r, c));
    assert Unclaimed(s1, c) && GrantFor(s1, c) == GrantFor(s, c);
    var s2 := Do(s1, Look(r));
    assert At(s2, r, Claiming) && Unclaimed(s2, c);
    var s3 := Do(s2, Claim(r));
    t := GrantMinted(s3, r, c, h, wanted);
    RunFirst(s2, Claim(r), MintSteps(c, r, h, wanted), t);
    RunFirst(s1, Look(r), [Claim(r)] + MintSteps(c, r, h, wanted), t);
    RunFirst(s, Arrive(r, c), [Look(r)] + ([Claim(r)] + MintSteps(c, r, h, wanted)), t);
  }

  /** One that presents a code or a refresh token already used retires every token of its grant,
      and mints nothing. */
  lemma ReplayRetires(s: State, r: nat, c: Credential, g: nat) returns (t: State)
    requires r !in s.requests
    requires match c
      case AuthCode(code) => code in s.codes && s.codes[code] == CodeRow(true, Some(g))
      case RefreshToken(h) => h in s.tokens && s.tokens[h].rotated && s.tokens[h].grant == g
      case Assertion(_, _) => false
    ensures Run(s, [Arrive(r, c)] + ([Look(r)] + [Retire(r)]), t) && At(t, r, Finished)
    ensures t.grants == s.grants && t.access == s.access && t.codes == s.codes && t.tokens.Keys == s.tokens.Keys
    ensures forall h <- s.tokens ::
      t.tokens[h] == if s.tokens[h].grant == g then s.tokens[h].(rotated := true) else s.tokens[h]
  {
    var s1 := Do(s, Arrive(r, c));
    var s2 := Do(s1, Look(r));
    assert At(s2, r, Retiring(g));
    t := Do(s2, Retire(r));
    assert Run(t, [], t) && [Retire(r)] + [] == [Retire(r)];
    RunFirst(s2, Retire(r), [], t);
    RunFirst(s1, Look(r), [Retire(r)], t);
    RunFirst(s, Arrive(r, c), [Look(r)] + [Retire(r)], t);
  }
}

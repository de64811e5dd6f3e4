/** Token issue, rotation, logout and revocation by expiring blacklist entries, with Redis present. */
module Tokens {
  import opened Commerce

  datatype Kind = Access | Refresh

  /** Subject, role and tenant, carried over unchanged by rotation. */
  datatype Claims = Claims(sub: string, role: string, tenant: string)

  /** A signed token; its signature is good exactly if the service issued it. */
  datatype Token = Token(jti: nat, kind: Kind, claims: Claims, exp: int)

  /** Lifetimes of the two kinds, in seconds. */
  datatype Config = Config(access: nat, refresh: nat)

  /** The blacklist maps a token id to the instant its entry disappears. */
  datatype State = State(issued: set<Token>, revoked: map<nat, real>, next: nat)

  datatype Lookup = Found(id: string) | Unauthorized | NotFound

  datatype Pair = Pair(access: Token, refresh: Token)

  function NewPair(c: Config, next: nat, claims: Claims, now: real): Pair {
    Pair(Token(next, Access, claims, (now + c.access as real).Floor), Token(next + 1, Refresh, claims, (now + c.refresh as real).Floor))
  }

  function Issue(c: Config, s: State, claims: Claims, now: real): State {
    var pair := NewPair(c, s.next, claims, now);
    s.(issued := s.issued + {pair.access, pair.refresh}, next := s.next + 2)
  }

  /** The claim check: signature, expiry (the token is dead from exp on) and kind. */
  predicate Decodes(s: State, t: Token, kind: Kind, now: real) {
    t in s.issued && now < t.exp as real && t.kind == kind
  }

  predicate Revoked(s: State, jti: nat, now: real) { jti in s.revoked && now < s.revoked[jti] }

  predicate Accepts(s: State, t: Token, kind: Kind, now: real) { Decodes(s, t, kind, now) && !Revoked(s, t.jti, now) }

  /** Whole seconds the blacklist entry stays: the expiry less the floored clock, at least one. */
  function Ttl(t: Token, now: real): int {
    if t.exp - now.Floor >= 1 then t.exp - now.Floor else 1
  }

  function Revoke(s: State, t: Token, now: real): State {
    s.(revoked := s.revoked[t.jti := now + Ttl(t, now) as real])
  }

  class AuthService {
    const config: Config
    var issued: set<Token>
    var revoked: map<nat, real>
    var next: nat

    ghost function Value(): State
      reads this
    {
      State(issued, revoked, next)
    }

    constructor (config: Config)
      ensures Value() == State({}, map[], 0) && this.config == config
    {
      this.config, issued, revoked, next := config, {}, map[], 0;
    }

    method CreateTokenPair(claims: Claims, now: real) returns (pair: Pair)
      modifies this
      ensures Value() == Issue(config, old(Value()), claims, now)
      ensures pair == NewPair(config, old(next), claims, now)
    {
      pair := NewPair(config, next, claims, now);
      issued := issued + {pair.access, pair.refresh};
      next := next + 2;
    }

    /** Rotation, with the check and the revocation taken as one step. */
    method RefreshTokens(t: Token, now: real) returns (pair: Option<Pair>)
      modifies this
      ensures pair.Some? <==> Accepts(old(Value()), t, Refresh, now)
      ensures pair.None? ==> Value() == old(Value())
      ensures pair.Some? ==> Value() == Issue(config, Revoke(old(Value()), t, now), t.claims, now) &&
                             pair.value == NewPair(config, old(next), t.claims, now) &&
                             pair.value.refresh.claims == pair.value.access.claims == t.claims
    {
      if t !in issued || now >= t.exp as real || t.kind != Refresh {
        return None;
      }
      if t.jti in revoked && now < revoked[t.jti] {
        return None;
      }
      var ttl := if t.exp - now.Floor >= 1 then t.exp - now.Floor else 1;
      revoked := revoked[t.jti := now + ttl as real];
      var renewed := CreateTokenPair(t.claims, now);
      pair := Some(renewed);
    }

    /** Logout blacklists the access token; it does not look whether it already is. */
    method Logout(t: Token, now: real) returns (ok: bool)
      modifies this
      ensures ok <==> Decodes(old(Value()), t, Access, now)
      ensures Value() == if ok then Revoke(old(Value()), t, now) else old(Value())
    {
      ok := t in issued && now < t.exp as real && t.kind == Access;
      if ok {
        var ttl := if t.exp - now.Floor >= 1 then t.exp - now.Floor else 1;
        revoked := revoked[t.jti := now + ttl as real];
      }
    }

    /** The bearer of an access token, looked up among the users' ids. */
    method GetCurrentUser(t: Token, users: set<string>, now: real) returns (user: Lookup)
      ensures user.Unauthorized? <==> !Accepts(Value(), t, Access, now)
      ensures user.NotFound? <==> Accepts(Value(), t, Access, now) && t.claims.sub !in users
      ensures user.Found? ==> user.id == t.claims.sub
    {
      if t !in issued || now >= t.exp as real || t.kind != Access || (t.jti in revoked && now < revoked[t.jti]) {
        return Unauthorized;
      }
      user := if t.claims.sub in users then Found(t.claims.sub) else NotFound;
    }
  }

  // ---------- runs under a monotone clock ----------

  datatype Action =
    | Login(claims: Claims)
    | Rotate(token: Token)
    | LogOut(token: Token)
    | Tick(elapsed: real)

  /** `rotated` lists the tokens that yielded a new pair, `spent` also those logged out. */
  datatype Run = Run(auth: State, now: real, rotated: seq<Token>, spent: set<Token>)

  function Step(c: Config, r: Run, a: Action): Run {
    match a
    case Login(claims) => r.(auth := Issue(c, r.auth, claims, r.now))
    case Rotate(t) =>
      if Accepts(r.auth, t, Refresh, r.now)
      then r.(auth := Issue(c, Revoke(r.auth, t, r.now), t.claims, r.now), rotated := r.rotated + [t], spent := r.spent + {t})
      else r
    case LogOut(t) =>
      if Decodes(r.auth, t, Access, r.now) then r.(auth := Revoke(r.auth, t, r.now), spent := r.spent + {t}) else r
    case Tick(elapsed) => if elapsed >= 0.0 then r.(now := r.now + elapsed) else r
  }

  function RunAll(c: Config, r: Run, actions: seq<Action>): Run {
    if |actions| == 0 then r else Step(c, RunAll(c, r, actions[..|actions| - 1]), actions[|actions| - 1])
  }

  function Initial(now: real): Run { Run(State({}, map[], 0), now, [], {}) }

  /** A blacklist entry outlives the token it was made for, and a live token by less than a second. */
  lemma RevocationOutlivesToken(s: State, t: Token, now: real)
    ensures Revoke(s, t, now).revoked[t.jti] >= t.exp as real
    ensures now < t.exp as real ==> Revoke(s, t, now).revoked[t.jti] < t.exp as real + 1.0
  {
    assert now.Floor as real <= now;
  }

  /** A token id is issued once. */
  ghost predicate UniqueIds(s: State) {
    (forall t :: t in s.issued ==> t.jti < s.next) && (forall jti :: jti in s.revoked ==> jti < s.next) &&
    (forall t, u :: t in s.issued && u in s.issued && t.jti == u.jti ==> t == u)
  }

  /** A spent token is blacklisted until it has expired anyway. */
  ghost predicate Blacklisted(s: State, spent: set<Token>) {
    forall t :: t in spent ==> t in s.issued && t.jti in s.revoked && s.revoked[t.jti] >= t.exp as real
  }

  ghost predicate Sound(r: Run) {
    UniqueIds(r.auth) && Blacklisted(r.auth, r.spent) &&
    (forall i :: 0 <= i < |r.rotated| ==> r.rotated[i] in r.spent) &&
    (forall i, j :: 0 <= i < j < |r.rotated| ==> r.rotated[i] != r.rotated[j])
  }

  lemma IssueKeeps(c: Config, s: State, claims: Claims, now: real, spent: set<Token>)
    requires UniqueIds(s) && Blacklisted(s, spent)
    ensures UniqueIds(Issue(c, s, claims, now)) && Blacklisted(Issue(c, s, claims, now), spent)
  {
  }

  lemma RevokeKeeps(s: State, t: Token, now: real, spent: set<Token>)
    requires UniqueIds(s) && Blacklisted(s, spent) && t in s.issued
    ensures UniqueIds(Revoke(s, t, now)) && Blacklisted(Revoke(s, t, now), spent + {t})
  {
    RevocationOutlivesToken(s, t, now);
  }

  lemma SpentIsRejected(r: Run, t: Token, kind: Kind)
    requires Sound(r) && t in r.spent
    ensures !Accepts(r.auth, t, kind, r.now)
  {
  }

  lemma StepKeepsSound(c: Config, r: Run, a: Action)
    requires Sound(r)
    ensures Sound(Step(c, r, a)) && r.spent <= Step(c, r, a).spent
  {
    match a {
      case Login(claims) => IssueKeeps(c, r.auth, claims, r.now, r.spent);
      case Rotate(t) =>
        if Accepts(r.auth, t, Refresh, r.now) {
          if t in r.spent { SpentIsRejected(r, t, Refresh); }
          RevokeKeeps(r.auth, t, r.now, r.spent);
          IssueKeeps(c, Revoke(r.auth, t, r.now), t.claims, r.now, r.spent + {t});
        }
      case LogOut(t) => if Decodes(r.auth, t, Access, r.now) { RevokeKeeps(r.auth, t, r.now, r.spent); }
      case Tick(_) =>
    }
  }

  lemma {:induction false} RunKeepsSound(c: Config, r: Run, actions: seq<Action>)
    requires Sound(r)
    ensures Sound(RunAll(c, r, actions)) && r.spent <= RunAll(c, r, actions).spent
  {
    if |actions| > 0 {
      RunKeepsSound(c, r, actions[..|actions| - 1]);
      StepKeepsSound(c, RunAll(c, r, actions[..|actions| - 1]), actions[|actions| - 1]);
    }
  }

  lemma {:induction false} RunConcat(c: Config, r: Run, a: seq<Action>, b: seq<Action>)
    ensures RunAll(c, r, a + b) == RunAll(c, RunAll(c, r, a), b)
  {
    if b == [] {
      assert a + b == a;
    } else {
      RunConcat(c, r, a, b[..|b| - 1]);
      assert (a + b)[..|a + b| - 1] == a + b[..|b| - 1];
    }
  }

  /** A refresh token yields at most one new pair. */
  lemma RotatesAtMostOnce(c: Config, start: real, actions: seq<Action>)
    ensures var rotated := RunAll(c, Initial(start), actions).rotated;
            forall i, j :: 0 <= i < j < |rotated| ==> rotated[i].jti != rotated[j].jti
  {
    RunKeepsSound(c, Initial(start), actions);
  }

  /** A token once rotated or logged out is never accepted again, whatever happens later. */
  lemma SpentStaysRejected(c: Config, start: real, before: seq<Action>, after: seq<Action>, t: Token, kind: Kind)
    requires t in RunAll(c, Initial(start), before).spent
    ensures var r := RunAll(c, Initial(start), before + after); !Accepts(r.auth, t, kind, r.now)
  {
    RunConcat(c, Initial(start), before, after);
    RunKeepsSound(c, Initial(start), before);
    RunKeepsSound(c, RunAll(c, Initial(start), before), after);
    SpentIsRejected(RunAll(c, Initial(start), before + after), t, kind);
  }

  /** Only spent tokens are blacklisted. */
  ghost predicate OnlySpentAreRevoked(r: Run) {
    forall t :: t in r.auth.issued && t.jti in r.auth.revoked ==> t in r.spent
  }

  lemma StepRevokesOnlySpent(c: Config, r: Run, a: Action)
    requires Sound(r) && OnlySpentAreRevoked(r)
    ensures OnlySpentAreRevoked(Step(c, r, a))
  {
  }

  lemma {:induction false} RunRevokesOnlySpent(c: Config, start: real, actions: seq<Action>)
    ensures OnlySpentAreRevoked(RunAll(c, Initial(start), actions))
  {
    if |actions| > 0 {
      RunRevokesOnlySpent(c, start, actions[..|actions| - 1]);
      RunKeepsSound(c, Initial(start), actions[..|actions| - 1]);
      StepRevokesOnlySpent(c, RunAll(c, Initial(start), actions[..|actions| - 1]), actions[|actions| - 1]);
    }
  }

  /** In every run, whoever else rotates or logs out, a token is accepted exactly if it is neither spent nor expired. */
  lemma AcceptedIffUnspent(c: Config, start: real, actions: seq<Action>, t: Token)
    requires t in RunAll(c, Initial(start), actions).auth.issued
    ensures var r := RunAll(c, Initial(start), actions);
            Accepts(r.auth, t, t.kind, r.now) <==> t !in r.spent && r.now < t.exp as real
  {
    RunKeepsSound(c, Initial(start), actions);
    RunRevokesOnlySpent(c, start, actions);
    if t in RunAll(c, Initial(start), actions).spent { SpentIsRejected(RunAll(c, Initial(start), actions), t, t.kind); }
  }

  /** A rotation that is accepted, or a logout of a token that decodes. */
  predicate Spends(r: Run, a: Action, t: Token) {
    (a == Rotate(t) && Accepts(r.auth, t, Refresh, r.now)) || (a == LogOut(t) && Decodes(r.auth, t, Access, r.now))
  }

  predicate Asked(c: Config, start: real, actions: seq<Action>, t: Token) {
    |actions| > 0 &&
    (Asked(c, start, actions[..|actions| - 1], t) ||
     Spends(RunAll(c, Initial(start), actions[..|actions| - 1]), actions[|actions| - 1], t))
  }

  lemma StepSpendsIffAsked(c: Config, r: Run, a: Action, t: Token)
    ensures t in Step(c, r, a).spent <==> t in r.spent || Spends(r, a, t)
  {
  }

  /** Exactly the rotations that are accepted and the logouts of live tokens spend a token. */
  lemma {:induction false} SpentIffAsked(c: Config, start: real, actions: seq<Action>, t: Token)
    ensures t in RunAll(c, Initial(start), actions).spent <==> Asked(c, start, actions, t)
    ensures Asked(c, start, actions, t) ==> Rotate(t) in actions || LogOut(t) in actions
  {
    if |actions| > 0 {
      var before, a := actions[..|actions| - 1], actions[|actions| - 1];
      SpentIffAsked(c, start, before, t);
      StepSpendsIffAsked(c, RunAll(c, Initial(start), before), a, t);
      assert actions == before + [a];
    }
  }

  /** Logging in gives a pair that is accepted at once if its lifetime is positive. */
  lemma LoginIsAccepted(c: Config, start: real, actions: seq<Action>, claims: Claims)
    ensures var r := RunAll(c, Initial(start), actions);
            var pair, after := NewPair(c, r.auth.next, claims, r.now), Step(c, r, Login(claims)).auth;
            (Accepts(after, pair.access, Access, r.now) <==> c.access > 0) &&
            (Accepts(after, pair.refresh, Refresh, r.now) <==> c.refresh > 0)
  {
    var r := RunAll(c, Initial(start), actions);
    RunKeepsSound(c, Initial(start), actions);
    NewPairIsAccepted(c, r, claims, r.now);
    FloorAhead(r.now, c.access);
    FloorAhead(r.now, c.refresh);
  }

  lemma FloorAhead(now: real, lifetime: nat)
    ensures now < (now + lifetime as real).Floor as real <==> lifetime > 0
  {
  }

  /** Rotating hands over: the old token is rejected at once and the new pair, with its claims, takes its place. */
  lemma RotationHandsOver(c: Config, start: real, actions: seq<Action>, t: Token)
    requires var r := RunAll(c, Initial(start), actions); Accepts(r.auth, t, Refresh, r.now)
    ensures var r := RunAll(c, Initial(start), actions);
            var pair, after := NewPair(c, r.auth.next, t.claims, r.now), Step(c, r, Rotate(t)).auth;
            !Accepts(after, t, Refresh, r.now) &&
            (Accepts(after, pair.access, Access, r.now) <==> c.access > 0) &&
            (Accepts(after, pair.refresh, Refresh, r.now) <==> c.refresh > 0)
  {
    var r := RunAll(c, Initial(start), actions);
    RunKeepsSound(c, Initial(start), actions);
    RevokeKeeps(r.auth, t, r.now, r.spent);
    var revoked := r.(auth := Revoke(r.auth, t, r.now), rotated := [], spent := r.spent + {t});
    NewPairIsAccepted(c, revoked, t.claims, r.now);
    FloorAhead(r.now, c.access);
    FloorAhead(r.now, c.refresh);
  }

  /** Nobody else's rotation or logout touches a token: until it expires it is accepted unless the run names it. */
  lemma OthersDoNotRevoke(c: Config, start: real, actions: seq<Action>, t: Token)
    requires t in RunAll(c, Initial(start), actions).auth.issued && RunAll(c, Initial(start), actions).now < t.exp as real
    requires Rotate(t) !in actions && LogOut(t) !in actions
    ensures Accepts(RunAll(c, Initial(start), actions).auth, t, t.kind, RunAll(c, Initial(start), actions).now)
  {
    AcceptedIffUnspent(c, start, actions, t);
    SpentIffAsked(c, start, actions, t);
  }

  /** The pair issued in any reachable state is accepted until it expires, unless something spends it. */
  lemma NewPairIsAccepted(c: Config, r: Run, claims: Claims, later: real)
    requires Sound(r) && r.now <= later
    ensures var pair, s := NewPair(c, r.auth.next, claims, r.now), Issue(c, r.auth, claims, r.now);
            && (Accepts(s, pair.access, Access, later) <==> later < (r.now + c.access as real).Floor as real)
            && (Accepts(s, pair.refresh, Refresh, later) <==> later < (r.now + c.refresh as real).Floor as real)
            && !Accepts(s, pair.access, Refresh, later) && !Accepts(s, pair.refresh, Access, later)
  {
  }
}

/** The authority line: which incarnation and epoch are live, and which tokens
    they accept. */
module Authority {
  import opened Identity

  const MAX_AUTHORITY_TOKENS: nat := 65536

  datatype Token = Token(
    id: AuthorityId, scope: DomainId, generation: Generation, epoch: nat, incarnation: nat,
    issuedAt: Time, expiresAt: Time, revoked: bool)

  datatype Registry = Registry(
    tokens: map<AuthorityId, Token>, scopeGenerations: map<DomainId, Generation>,
    highWater: AuthorityId, incarnation: nat, epoch: nat)

  datatype Rejection =
    Accepted | Unknown | Revoked | Expired | StaleEpoch | StaleIncarnation | StaleGeneration

  const EMPTY: Registry := Registry(map[], map[], 0, 0, 1)

  function ScopeGeneration(r: Registry, scope: DomainId): Generation {
    if scope in r.scopeGenerations then r.scopeGenerations[scope] else 0
  }

  function RevokeAll(r: Registry): Registry {
    r.(tokens := map id | id in r.tokens :: r.tokens[id].(revoked := true))
  }

  /** `AuthorityRegistry::install_line`: the incarnation must advance, the epoch
      must not go back, and every token is revoked. */
  function InstallLine(r: Registry, incarnation: nat, epoch: nat): Option<Registry> {
    if incarnation == 0 || epoch == 0 then None
    else if r.incarnation != 0 && incarnation <= r.incarnation then None
    else if epoch < r.epoch then None
    else Some(RevokeAll(r.(incarnation := incarnation, epoch := epoch)))
  }

  /** `AuthorityRegistry::install_incarnation`: moves the incarnation alone. */
  function InstallIncarnation(r: Registry, incarnation: nat): Option<Registry> {
    if incarnation == 0 || incarnation <= r.incarnation then None
    else Some(r.(incarnation := incarnation))
  }

  /** `AuthorityRegistry::begin_new_epoch`: the next epoch under a later incarnation. */
  function BeginEpoch(r: Registry, incarnation: nat): Option<Registry> {
    if incarnation <= r.incarnation || r.epoch >= U64_MAX then None
    else Some(RevokeAll(r.(incarnation := incarnation, epoch := r.epoch + 1)))
  }

  /** `AuthorityRegistry::advance_scope_generation`. */
  function AdvanceScope(r: Registry, scope: DomainId): Option<Registry> {
    if ScopeGeneration(r, scope) >= U64_MAX then None
    else Some(r.(scopeGenerations := r.scopeGenerations[scope := ScopeGeneration(r, scope) + 1]))
  }

  predicate IsHighest(ids: set<AuthorityId>, m: AuthorityId) {
    m in ids && forall x | x in ids :: x <= m
  }

  lemma {:induction false} HighestExists(ids: set<AuthorityId>)
    requires ids != {}
    ensures exists m :: IsHighest(ids, m)
    decreases |ids|
  {
    var a :| a in ids;
    var rest := ids - {a};
    assert ids == rest + {a};
    if rest == {} {
      assert IsHighest(ids, a);
    } else {
      HighestExists(rest);
      var m :| IsHighest(rest, m);
      assert IsHighest(ids, if a <= m then m else a);
    }
  }

  /** The high-water mark, raised to the largest of the numbers. */
  function Raised(highWater: AuthorityId, ids: set<AuthorityId>): (m: AuthorityId)
    ensures highWater <= m && (forall x :: x in ids ==> x <= m) && (m == highWater || m in ids)
  {
    if ids == {} then highWater
    else
      HighestExists(ids);
      var m :| m in ids && IsHighest(ids, m);
      if highWater < m then m else highWater
  }

  /** What a saved registry comes back as: its own line, every token revoked, and the
      high-water mark not below any token. */
  function Loaded(saved: Registry): Registry {
    RevokeAll(saved).(highWater := Raised(saved.highWater, saved.tokens.Keys))
  }

  /** `AuthorityRegistry::load_from_json`: the saved registry takes the place of this
      one, whatever line it carries. */
  function Load(saved: Registry): Option<Registry> {
    if saved.epoch == 0 || 0 in saved.tokens then None
    else if |saved.tokens| > MAX_AUTHORITY_TOKENS || |saved.scopeGenerations| > MAX_AUTHORITY_TOKENS then None
    else Some(Loaded(saved))
  }

  /** The token `issue` hands out next. */
  function NextToken(r: Registry, scope: DomainId, at: Time, validity: int): Token {
    Token(r.highWater + 1, scope, ScopeGeneration(r, scope), r.epoch, r.incarnation, at,
          if validity == 0 then 0 else SaturatingAdd(at, validity), false)
  }

  /** `AuthorityRegistry::issue`. */
  function Issue(r: Registry, scope: DomainId, at: Time, validity: int): Option<Registry> {
    if r.incarnation == 0 || |r.tokens| >= MAX_AUTHORITY_TOKENS then None
    else
      var t := NextToken(r, scope, at, validity);
      Some(r.(highWater := t.id, tokens := if t.id in r.tokens then r.tokens else r.tokens[t.id := t]))
  }

  function Revoke(r: Registry, id: AuthorityId): Option<Registry> {
    if id !in r.tokens then None
    else Some(r.(tokens := r.tokens[id := r.tokens[id].(revoked := true)]))
  }

  /** `AuthorityRegistry::check` on a presented token. */
  function Check(r: Registry, t: Token, now: Time): Rejection {
    if t.id !in r.tokens then Unknown
    else if r.tokens[t.id].revoked then Revoked
    else if t.incarnation != r.incarnation then StaleIncarnation
    else if t.epoch != r.epoch then StaleEpoch
    else if t.generation != ScopeGeneration(r, t.scope) then StaleGeneration
    else if t.expiresAt != 0 && now > t.expiresAt then Expired
    else Accepted
  }

  /** Recovery from a snapshot: loaded, and revoked once more. */
  function Reload(r: Registry): Registry {
    RevokeAll(Loaded(r))
  }

  /** Engine operations name an authority by id alone. */
  predicate Authorizes(r: Registry, id: AuthorityId, now: Time) {
    id != 0 && id in r.tokens && Check(r, r.tokens[id], now) == Accepted
  }

  // ---- One registry over time -----------------------------------------------------------

  datatype RegistryOp =
    | InstallLineOp(incarnation: nat, epoch: nat)
    | InstallIncarnationOp(incarnation: nat)
    | BeginEpochOp(incarnation: nat)
    | AdvanceScopeOp(scope: DomainId)
    | IssueOp(scope: DomainId, at: Time, validity: int)
    | RevokeOp(id: AuthorityId)
    | RevokeAllOp
    | LoadOp(saved: Registry)
    | ClearOp

  function Kept(r: Registry, r': Option<Registry>): Registry {
    if r'.Some? then r'.value else r
  }

  function ApplyOp(r: Registry, op: RegistryOp): Registry {
    match op
    case InstallLineOp(i, e) => Kept(r, InstallLine(r, i, e))
    case InstallIncarnationOp(i) => Kept(r, InstallIncarnation(r, i))
    case BeginEpochOp(i) => Kept(r, BeginEpoch(r, i))
    case AdvanceScopeOp(s) => Kept(r, AdvanceScope(r, s))
    case IssueOp(s, at, v) => Kept(r, Issue(r, s, at, v))
    case RevokeOp(id) => Kept(r, Revoke(r, id))
    case RevokeAllOp => RevokeAll(r)
    case LoadOp(saved) => Kept(r, Load(saved))
    case ClearOp => EMPTY
  }

  ghost predicate Follows(ops: seq<RegistryOp>, states: seq<Registry>, i: nat) {
    i < |ops| && i + 1 < |states| && states[i + 1] == ApplyOp(states[i], ops[i])
  }

  /** A new registry, and every state that a list of calls leads it through. */
  ghost predicate IsHistory(ops: seq<RegistryOp>, states: seq<Registry>) {
    && |states| == |ops| + 1 && states[0] == EMPTY
    && forall i :: 0 <= i < |ops| ==> Follows(ops, states, i)
  }

  // ---- The line -------------------------------------------------------------------------

  predicate NotBefore(r: Registry, r': Registry) {
    r.incarnation <= r'.incarnation && r.epoch <= r'.epoch
  }

  /** A load or a clear brings back an older line. */
  predicate Rewinds(r: Registry, op: RegistryOp) {
    (op.LoadOp? && Load(op.saved).Some? && !NotBefore(r, op.saved)) || (op.ClearOp? && !NotBefore(r, EMPTY))
  }

  lemma OneCall(r: Registry, op: RegistryOp)
    ensures NotBefore(r, ApplyOp(r, op)) <==> !Rewinds(r, op)
  {
  }

  /** Over any history, and from any place in it on, the line never goes back exactly
      when no load and no clear brings back an older one. */
  lemma LineNeverGoesBack(ops: seq<RegistryOp>, states: seq<Registry>, k: nat)
    requires IsHistory(ops, states) && k <= |ops|
    ensures (forall i, j :: k <= i <= j <= |ops| ==> NotBefore(states[i], states[j]))
       <==> (forall i :: k <= i < |ops| ==> !Rewinds(states[i], ops[i]))
  {
    if forall i :: k <= i < |ops| ==> !Rewinds(states[i], ops[i]) {
      forall i, j | k <= i <= j <= |ops| ensures NotBefore(states[i], states[j]) {
        LineHolds(ops, states, i, j);
      }
    } else {
      var i :| k <= i < |ops| && Rewinds(states[i], ops[i]);
      assert Follows(ops, states, i);
      OneCall(states[i], ops[i]);
      assert !NotBefore(states[i], states[i + 1]);
    }
  }

  lemma {:induction false} LineHolds(ops: seq<RegistryOp>, states: seq<Registry>, i: nat, j: nat)
    requires IsHistory(ops, states) && i <= j <= |ops|
    requires forall m :: i <= m < j ==> !Rewinds(states[m], ops[m])
    ensures NotBefore(states[i], states[j])
    decreases j
  {
    if i < j {
      LineHolds(ops, states, i, j - 1);
      assert Follows(ops, states, j - 1);
      OneCall(states[j - 1], ops[j - 1]);
    }
  }

  // ---- Which numbers stand -------------------------------------------------------------------

  /** No stored token is above the high-water mark. */
  ghost predicate Numbered(r: Registry) {
    forall id :: id in r.tokens ==> id <= r.highWater
  }

  lemma CallNumbers(r: Registry, op: RegistryOp)
    requires Numbered(r)
    ensures Numbered(ApplyOp(r, op))
  {
  }

  lemma {:induction false} AlwaysNumbered(ops: seq<RegistryOp>, states: seq<Registry>, n: nat)
    requires IsHistory(ops, states) && n <= |ops|
    ensures Numbered(states[n])
  {
    if n > 0 {
      AlwaysNumbered(ops, states, n - 1);
      assert Follows(ops, states, n - 1);
      CallNumbers(states[n - 1], ops[n - 1]);
    }
  }

  predicate Stands(r: Registry, id: AuthorityId) {
    id in r.tokens && !r.tokens[id].revoked
  }

  /** The call issues the number. */
  predicate Hands(r: Registry, op: RegistryOp, id: AuthorityId) {
    op.IssueOp? && Issue(r, op.scope, op.at, op.validity).Some? && r.highWater + 1 == id
  }

  /** The call takes the number's authority away. */
  predicate Voids(r: Registry, op: RegistryOp, id: AuthorityId) {
    match op
    case InstallLineOp(i, e) => InstallLine(r, i, e).Some?
    case BeginEpochOp(i) => BeginEpoch(r, i).Some?
    case RevokeOp(x) => x == id
    case RevokeAllOp => true
    case LoadOp(saved) => Load(saved).Some?
    case ClearOp => true
    case _ => false
  }

  lemma CallStands(r: Registry, op: RegistryOp, id: AuthorityId)
    requires Numbered(r)
    ensures Stands(ApplyOp(r, op), id) <==> Hands(r, op, id) || (Stands(r, id) && !Voids(r, op, id))
  {
  }

  /** Call m issues the number, and no call after it, up to the n-th, voids it. */
  ghost predicate IssuedBy(ops: seq<RegistryOp>, states: seq<Registry>, id: AuthorityId, m: nat, n: nat) {
    && m < n <= |ops| <= |states| && Hands(states[m], ops[m], id)
    && forall k :: m < k < n ==> !Voids(states[k], ops[k], id)
  }

  /** The call that issued the number as it stands before call n, if it stands. */
  ghost function Issuer(ops: seq<RegistryOp>, states: seq<Registry>, id: AuthorityId, n: nat): Option<nat>
    requires n <= |ops| <= |states|
  {
    if n == 0 then None
    else if Hands(states[n - 1], ops[n - 1], id) then Some(n - 1)
    else if Voids(states[n - 1], ops[n - 1], id) then None
    else Issuer(ops, states, id, n - 1)
  }

  lemma {:induction false} IssuerStands(ops: seq<RegistryOp>, states: seq<Registry>, id: AuthorityId, n: nat)
    requires IsHistory(ops, states) && n <= |ops|
    ensures Stands(states[n], id) <==> Issuer(ops, states, id, n).Some?
  {
    if n > 0 {
      IssuerStands(ops, states, id, n - 1);
      AlwaysNumbered(ops, states, n - 1);
      assert Follows(ops, states, n - 1);
      CallStands(states[n - 1], ops[n - 1], id);
    }
  }

  lemma {:induction false} IssuerIssued(ops: seq<RegistryOp>, states: seq<Registry>, id: AuthorityId, n: nat)
    requires n <= |ops| <= |states|
    ensures Issuer(ops, states, id, n).Some? ==> IssuedBy(ops, states, id, Issuer(ops, states, id, n).value, n)
  {
    if n > 0 {
      IssuerIssued(ops, states, id, n - 1);
    }
  }

  lemma {:induction false} IssuedHasIssuer(ops: seq<RegistryOp>, states: seq<Registry>, id: AuthorityId, m: nat, n: nat)
    requires IssuedBy(ops, states, id, m, n)
    ensures Issuer(ops, states, id, n).Some?
    decreases n
  {
    if m < n - 1 {
      IssuedHasIssuer(ops, states, id, m, n - 1);
    }
  }

  ghost predicate Issued(ops: seq<RegistryOp>, states: seq<Registry>, id: AuthorityId) {
    exists m :: IssuedBy(ops, states, id, m, |ops|)
  }

  /** A number stands exactly when a call issued it and none since voided it. */
  lemma StandsIff(ops: seq<RegistryOp>, states: seq<Registry>, id: AuthorityId)
    requires IsHistory(ops, states)
    ensures Stands(states[|ops|], id) <==> Issued(ops, states, id)
  {
    IssuerStands(ops, states, id, |ops|);
    IssuerIssued(ops, states, id, |ops|);
    if Issued(ops, states, id) {
      var m :| IssuedBy(ops, states, id, m, |ops|);
      IssuedHasIssuer(ops, states, id, m, |ops|);
    }
  }

  // ---- Which tokens are accepted -------------------------------------------------------------

  /** The token's own fields fit the live line, its scope and the clock. */
  predicate Fits(r: Registry, t: Token, now: Time) {
    && t.incarnation == r.incarnation && t.epoch == r.epoch && t.generation == ScopeGeneration(r, t.scope)
    && (t.expiresAt == 0 || now <= t.expiresAt)
  }

  lemma CheckIff(r: Registry, t: Token, now: Time)
    ensures Check(r, t, now) == Accepted <==> Fits(r, t, now) && Stands(r, t.id)
  {
  }

  /** Over any history a presented token is accepted exactly when it fits the live line
      and its number was issued by a call that nothing since has voided. */
  lemma AcceptedIff(ops: seq<RegistryOp>, states: seq<Registry>, t: Token, now: Time)
    requires IsHistory(ops, states)
    ensures Check(states[|ops|], t, now) == Accepted <==>
              Fits(states[|ops|], t, now) && Issued(ops, states, t.id)
  {
    CheckIff(states[|ops|], t, now);
    StandsIff(ops, states, t.id);
  }

  /** By id: the stored token stands, belongs to the live line and its scope's
      generation, and has not expired. */
  lemma AuthorizesIff(r: Registry, id: AuthorityId, now: Time)
    ensures Authorizes(r, id, now) <==>
              && id != 0 && id in r.tokens && Stands(r, r.tokens[id].id)
              && r.tokens[id].incarnation == r.incarnation && r.tokens[id].epoch == r.epoch
              && r.tokens[id].generation == ScopeGeneration(r, r.tokens[id].scope)
              && (r.tokens[id].expiresAt == 0 || now <= r.tokens[id].expiresAt)
  {
  }

  /** A token is issued exactly under a line and while there is room, under the next
      number, on the live line and the scope's generation, not revoked. */
  lemma IssueIff(r: Registry, scope: DomainId, at: Time, validity: int)
    requires r.highWater + 1 !in r.tokens
    ensures Issue(r, scope, at, validity).Some? <==> r.incarnation != 0 && |r.tokens| < MAX_AUTHORITY_TOKENS
    ensures Issue(r, scope, at, validity).Some? ==>
              var r', id := Issue(r, scope, at, validity).value, r.highWater + 1;
              && id in r'.tokens && r' == r.(tokens := r.tokens[id := r'.tokens[id]], highWater := id)
              && r'.tokens[id] == Token(id, scope, ScopeGeneration(r, scope), r.epoch, r.incarnation, at,
                                        r'.tokens[id].expiresAt, false)
  {
  }

  /** A scope moves on by one generation, and from then on every token of its earlier
      generations is refused; nothing else changes. */
  lemma AdvanceScopeIff(r: Registry, scope: DomainId, t: Token, now: Time)
    ensures AdvanceScope(r, scope).Some? <==> ScopeGeneration(r, scope) < U64_MAX
    ensures AdvanceScope(r, scope).Some? ==>
              var r' := AdvanceScope(r, scope).value;
              && ScopeGeneration(r', scope) == ScopeGeneration(r, scope) + 1
              && (forall s :: s != scope ==> ScopeGeneration(r', s) == ScopeGeneration(r, s))
              && r' == r.(scopeGenerations := r'.scopeGenerations)
              && (t.scope == scope && t.generation <= ScopeGeneration(r, scope) ==> Check(r', t, now) != Accepted)
  {
  }

  /** How long an issued token is good for. An instant of zero means no end, whether the
      validity is zero or the sum happens to be. */
  predicate InTime(at: Time, validity: int, now: Time) {
    validity == 0 || SaturatingAdd(at, validity) == 0 || now <= SaturatingAdd(at, validity)
  }

  /** Over any history: the token a call issued, as long as nothing voided its number,
      is accepted exactly while the incarnation and its scope's generation are still
      those it was issued under and its validity has not run out. */
  lemma IssuedTokenLives(ops: seq<RegistryOp>, states: seq<Registry>, m: nat, now: Time)
    requires IsHistory(ops, states) && m < |ops| && ops[m].IssueOp?
    requires IssuedBy(ops, states, states[m].highWater + 1, m, |ops|)
    ensures var id, last := states[m].highWater + 1, states[|ops|];
            && id in states[m + 1].tokens
            && (Check(last, states[m + 1].tokens[id], now) == Accepted <==>
                  && last.incarnation == states[m].incarnation
                  && ScopeGeneration(last, ops[m].scope) == ScopeGeneration(states[m], ops[m].scope)
                  && InTime(ops[m].at, ops[m].validity, now))
  {
    var id := states[m].highWater + 1;
    AlwaysNumbered(ops, states, m);
    assert Follows(ops, states, m);
    assert Issued(ops, states, id);
    AcceptedIff(ops, states, states[m + 1].tokens[id], now);
    IssuedOnLine(ops, states, id, m, |ops|);
  }

  /** The call takes a line above the incarnation back to it or below: a load of such a
      line, or a clear. */
  predicate BringsBack(r: Registry, op: RegistryOp, incarnation: nat) {
    && r.incarnation > incarnation
    && (op.ClearOp? || (op.LoadOp? && Load(op.saved).Some? && op.saved.incarnation <= incarnation))
  }

  lemma CallLowers(r: Registry, op: RegistryOp, r': Registry, incarnation: nat)
    requires r' == ApplyOp(r, op) && r.incarnation > incarnation
    ensures r'.incarnation <= incarnation <==> BringsBack(r, op, incarnation)
  {
  }

  lemma BackIsVoid(r: Registry, op: RegistryOp, incarnation: nat, id: AuthorityId)
    requires BringsBack(r, op, incarnation)
    ensures Voids(r, op, id) && !Hands(r, op, id)
  {
  }

  lemma CallKeepsLine(r: Registry, op: RegistryOp, id: AuthorityId)
    requires !Voids(r, op, id)
    ensures ApplyOp(r, op).epoch == r.epoch && ApplyOp(r, op).incarnation >= r.incarnation
  {
  }

  lemma HandsKeepsLine(r: Registry, op: RegistryOp, id: AuthorityId)
    requires Hands(r, op, id)
    ensures !Voids(r, op, id)
  {
  }

  lemma {:induction false} IssuedOnLine(ops: seq<RegistryOp>, states: seq<Registry>, id: AuthorityId, m: nat, n: nat)
    requires IsHistory(ops, states) && IssuedBy(ops, states, id, m, n)
    ensures states[m].epoch == states[n].epoch && states[m].incarnation <= states[n].incarnation
    decreases n
  {
    assert Follows(ops, states, n - 1);
    if m < n - 1 {
      IssuedOnLine(ops, states, id, m, n - 1);
    } else {
      HandsKeepsLine(states[m], ops[m], id);
    }
    CallKeepsLine(states[n - 1], ops[n - 1], id);
  }

  /** A line above the incarnation that ends at or below it was brought back. */
  lemma {:induction false} LineBroughtBack(ops: seq<RegistryOp>, states: seq<Registry>, k: nat, n: nat,
                                           incarnation: nat)
    returns (l: nat)
    requires IsHistory(ops, states) && k <= n <= |ops|
    requires states[k].incarnation > incarnation >= states[n].incarnation
    ensures k <= l < n && BringsBack(states[l], ops[l], incarnation)
    decreases n
  {
    assert Follows(ops, states, n - 1);
    if states[n - 1].incarnation > incarnation {
      l := n - 1;
      CallLowers(states[l], ops[l], states[n], incarnation);
    } else {
      l := LineBroughtBack(ops, states, k, n - 1, incarnation);
    }
  }

  /** Call l brought the line back; a later call m issued the token's number anew, on
      the token's epoch and no later than its incarnation, and the number still stands. */
  ghost predicate IssuedAgain(ops: seq<RegistryOp>, states: seq<Registry>, t: Token, l: nat, m: nat) {
    && l < m && IssuedBy(ops, states, t.id, m, |ops|) && BringsBack(states[l], ops[l], t.incarnation)
    && states[m].epoch == t.epoch && states[m].incarnation <= t.incarnation
  }

  /** Once the line has passed a token's incarnation, as every installed line does, the
      token is accepted again exactly when a load or a clear later brought the line
      back, a call after that issued the token's number anew, nothing since voided it,
      and the token fits the line in force. */
  lemma OldTokensStayDead(ops: seq<RegistryOp>, states: seq<Registry>, k: nat, t: Token, now: Time)
    requires IsHistory(ops, states) && k <= |ops| && states[k].incarnation > t.incarnation
    ensures Check(states[|ops|], t, now) == Accepted <==>
              Fits(states[|ops|], t, now) && exists l, m :: k <= l && IssuedAgain(ops, states, t, l, m)
  {
    AcceptedIff(ops, states, t, now);
    if Fits(states[|ops|], t, now) && Issued(ops, states, t.id) {
      var m :| IssuedBy(ops, states, t.id, m, |ops|);
      var l := AgainAfterBack(ops, states, k, t, m);
    }
  }

  lemma AgainAfterBack(ops: seq<RegistryOp>, states: seq<Registry>, k: nat, t: Token, m: nat) returns (l: nat)
    requires IsHistory(ops, states) && k <= |ops| && IssuedBy(ops, states, t.id, m, |ops|)
    requires states[k].incarnation > t.incarnation == states[|ops|].incarnation && t.epoch == states[|ops|].epoch
    ensures k <= l && IssuedAgain(ops, states, t, l, m)
  {
    l := LineBroughtBack(ops, states, k, |ops|, t.incarnation);
    BackIsVoid(states[l], ops[l], t.incarnation, t.id);
    IssuedOnLine(ops, states, t.id, m, |ops|);
  }

  /** Right after a load no token is accepted, whatever was saved. */
  lemma LoadedTokensAreRefused(saved: Registry, t: Token, now: Time)
    requires Load(saved).Some?
    ensures Check(Load(saved).value, t, now) != Accepted
  {
  }

  /** What recovery loads it also revokes, so no saved token is accepted after it. */
  lemma ReloadedTokensAreRevoked(r: Registry, t: Token, now: Time)
    ensures Check(Reload(r), t, now) != Accepted
  {
  }

  // ---- The exception is taken ------------------------------------------------------------------

  const FIRST_LINE: Registry := EMPTY.(incarnation := 1)

  /** Saved on its first line; a token is issued; a later line; the save is loaded; the
      number is issued once more. */
  function Reissue(scope: DomainId, at: Time, again: Time): seq<RegistryOp> {
    [InstallLineOp(1, 1), IssueOp(scope, at, 0), InstallLineOp(2, 1), LoadOp(FIRST_LINE), IssueOp(scope, again, 0)]
  }

  function FirstToken(scope: DomainId, at: Time): Token {
    Token(1, scope, 0, 1, 1, at, 0, false)
  }

  function Holding(t: Token): Registry {
    FIRST_LINE.(tokens := map[1 := t], highWater := 1)
  }

  function ReissueStates(scope: DomainId, at: Time, again: Time): seq<Registry> {
    [EMPTY, FIRST_LINE, Holding(FirstToken(scope, at)), RevokeAll(Holding(FirstToken(scope, at)).(incarnation := 2)),
     FIRST_LINE, Holding(FirstToken(scope, again))]
  }

  lemma EmptyStays(r: Registry)
    requires r.tokens == map[]
    ensures RevokeAll(r) == r && Loaded(r) == r
  {
    assert RevokeAll(r).tokens == r.tokens;
  }

  lemma ReissueHistory(scope: DomainId, at: Time, again: Time)
    ensures IsHistory(Reissue(scope, at, again), ReissueStates(scope, at, again))
  {
    EmptyStays(FIRST_LINE);
  }

  /** The first token is accepted when issued, refused under the later line and right
      after the load, and accepted again at the end. */
  lemma ReissuedNumberIsAccepted(scope: DomainId, at: Time, again: Time, now: Time)
    ensures var ops := Reissue(scope, at, again);
            var states := ReissueStates(scope, at, again);
            var t := FirstToken(scope, at);
            && IsHistory(ops, states) && ops[3] == LoadOp(states[1])
            && Check(states[2], t, now) == Accepted && Check(states[3], t, now) != Accepted
            && Check(states[4], t, now) != Accepted && Check(states[5], t, now) == Accepted
  {
    ReissueHistory(scope, at, again);
  }

  /** An installed line is a later one and starts with every earlier token revoked. */
  lemma InstallLineRevokesEverything(r: Registry, incarnation: nat, epoch: nat)
    requires InstallLine(r, incarnation, epoch).Some?
    ensures forall id :: id in InstallLine(r, incarnation, epoch).value.tokens ==>
              InstallLine(r, incarnation, epoch).value.tokens[id].revoked
    ensures InstallLine(r, incarnation, epoch).value.incarnation > r.incarnation
  {
  }

  lemma LoadedIs(saved: Registry, r: Registry)
    requires r.tokens.Keys == saved.tokens.Keys
    requires forall id :: id in r.tokens ==> r.tokens[id] == saved.tokens[id].(revoked := true) && id <= r.highWater
    requires saved.highWater <= r.highWater && (r.highWater == saved.highWater || r.highWater in r.tokens)
    requires r.scopeGenerations == saved.scopeGenerations
    requires r.incarnation == saved.incarnation && r.epoch == saved.epoch
    ensures r == Loaded(saved)
  {
    assert r.tokens == RevokeAll(saved).tokens;
  }

  /** The registry object. */
  class AuthorityRegistry {
    var tokens: map<AuthorityId, Token>
    var scopeGenerations: map<DomainId, Generation>
    var highWater: AuthorityId
    var incarnation: nat
    var epoch: nat

    function State(): Registry
      reads this
    {
      Registry(tokens, scopeGenerations, highWater, incarnation, epoch)
    }

    constructor ()
      ensures State() == EMPTY
    {
      tokens, scopeGenerations, highWater, incarnation, epoch := map[], map[], 0, 0, 1;
    }

    /** Visits every token once. */
    method RevokeEvery()
      modifies this`tokens
      ensures State() == RevokeAll(old(State()))
    {
      var pending := tokens.Keys;
      while pending != {}
        invariant pending <= tokens.Keys
        invariant tokens.Keys == old(tokens).Keys
        invariant forall id :: id in tokens ==>
                    tokens[id] == if id in pending then old(tokens)[id] else old(tokens)[id].(revoked := true)
        decreases |pending|
      {
        var id :| id in pending;
        if !tokens[id].revoked {
          tokens := tokens[id := tokens[id].(revoked := true)];
        }
        pending := pending - {id};
      }
    }

    method Install(newIncarnation: nat, newEpoch: nat) returns (ok: bool)
      modifies this
      ensures ok <==> InstallLine(old(State()), newIncarnation, newEpoch).Some?
      ensures State() == if ok then InstallLine(old(State()), newIncarnation, newEpoch).value else old(State())
    {
      if newIncarnation == 0 || newEpoch == 0 {
        return false;
      }
      if incarnation != 0 && newIncarnation <= incarnation {
        return false;
      }
      if newEpoch < epoch {
        return false;
      }
      incarnation := newIncarnation;
      epoch := newEpoch;
      RevokeEvery();
      return true;
    }

    /** The tokens of a saved registry, revoked one by one, and the mark above them. */
    static method Staged(saved: map<AuthorityId, Token>, mark: AuthorityId)
      returns (staged: map<AuthorityId, Token>, high: AuthorityId)
      ensures staged.Keys == saved.Keys
      ensures forall id :: id in staged ==> staged[id] == saved[id].(revoked := true) && id <= high
      ensures mark <= high && (high == mark || high in staged)
    {
      var pending := saved.Keys;
      staged, high := map[], mark;
      while pending != {}
        invariant pending <= saved.Keys
        invariant forall id :: id in staged <==> id in saved && id !in pending
        invariant forall id :: id in staged ==> staged[id] == saved[id].(revoked := true) && id <= high
        invariant mark <= high && (high == mark || high in staged)
        decreases |pending|
      {
        var id :| id in pending;
        if high < id {
          high := id;
        }
        staged := staged[id := saved[id].(revoked := true)];
        pending := pending - {id};
      }
    }

    /** A refused load leaves the registry alone; any other takes its place. */
    method LoadFrom(saved: Registry) returns (ok: bool)
      modifies this
      ensures ok <==> Load(saved).Some?
      ensures State() == if ok then Load(saved).value else old(State())
    {
      if saved.epoch == 0 || |saved.scopeGenerations| > MAX_AUTHORITY_TOKENS {
        return false;
      }
      if |saved.tokens| > MAX_AUTHORITY_TOKENS || 0 in saved.tokens {
        return false;
      }
      tokens, highWater := Staged(saved.tokens, saved.highWater);
      scopeGenerations, incarnation, epoch := saved.scopeGenerations, saved.incarnation, saved.epoch;
      LoadedIs(saved, State());
      return true;
    }

    method IssueToken(scope: DomainId, at: Time, validity: int) returns (token: Option<Token>)
      modifies this
      ensures token.Some? <==> Issue(old(State()), scope, at, validity).Some?
      ensures token.Some? ==> token.value == NextToken(old(State()), scope, at, validity)
      ensures State() == if token.Some? then Issue(old(State()), scope, at, validity).value else old(State())
    {
      if incarnation == 0 || |tokens| >= MAX_AUTHORITY_TOKENS {
        return None;
      }
      var next := highWater + 1;
      var expires := if validity == 0 then 0 else SaturatingAdd(at, validity);
      var generation := if scope in scopeGenerations then scopeGenerations[scope] else 0;
      var t := Token(next, scope, generation, epoch, incarnation, at, expires, false);
      highWater := next;
      if next !in tokens {
        tokens := tokens[next := t];
      }
      return Some(t);
    }
  }
}

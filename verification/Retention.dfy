/**
  Deletion of retained indices. A gateway decides and signs; any number of workers verify the
  token, claim it once, re-read the index identity and issue the delete call. The protocol is a
  state machine over the interleaved steps of gateway and workers, with an ideal MAC: a token
  verifies only for a body that was signed. The results are about whole runs.
 */
module Retention {
  import opened Common

  // ---------------------------------------------------------------- requests and evidence

  datatype Request = Request(
    index: string, uuid: string, version: string, expectedDigest: string, requestedBy: string, correlationId: string)

  /** The physical index a request names. */
  datatype Key = Key(index: string, uuid: string, version: string)

  function KeyOf(r: Request): Key { Key(r.index, r.uuid, r.version) }

  datatype Hold = Hold(status: string, holdIds: seq<string>, reason: string)

  datatype Worm = Worm(verified: bool, retainUntil: Option<int>, objectVersion: string, archiveDigest: string,
                       signatureValid: bool, complete: bool, reason: string)

  datatype Approval = Approval(approved: bool, approver: string, decisionDigest: string, reason: string)

  datatype Code =
    | Authorized | HoldActive | WormNotVerified | ApprovalRequired
    | ScopeAmbiguous | VerificationError | AlreadyDeleted

  /** The digest over a request and its evidence. */
  type Digester = (Request, Hold, Worm, Approval) -> string

  /** What the providers answered; a missing answer is a raised exception. */
  datatype Evidence = Evidence(hold: Option<Hold>, worm: Option<Worm>, approval: Option<Approval>)

  /** The signed body of an authorization token. */
  datatype Body = Body(index: string, uuid: string, version: string, expectedDigest: string, decisionDigest: string,
    expiresAt: int)

  function BodyFor(r: Request, decisionDigest: string, expiresAt: int): Body {
    Body(r.index, r.uuid, r.version, r.expectedDigest, decisionDigest, expiresAt)
  }

  // ---------------------------------------------------------------- the decision

  /** The checks that come before the stored decisions are looked up. */
  predicate ScopeClear(r: Request) {
    r.index != "" && r.uuid != "" && r.version != "" && r.expectedDigest != "" && r.correlationId != ""
  }

  /** The checks on the evidence, in the order they are made. */
  function Judge(r: Request, e: Evidence, now: int): Code {
    if e.hold.None? then VerificationError
    else if e.hold.value.status != "clear" then HoldActive
    else if e.worm.None? then VerificationError
    else if !e.worm.value.verified || !e.worm.value.signatureValid || !e.worm.value.complete then WormNotVerified
    else if e.worm.value.archiveDigest != r.expectedDigest then WormNotVerified
    else if e.worm.value.retainUntil.None? || e.worm.value.retainUntil.value > now then WormNotVerified
    else if e.approval.None? then VerificationError
    else if !e.approval.value.approved || e.approval.value.approver == r.requestedBy then ApprovalRequired
    else Authorized
  }

  /** What an authorization rests on. */
  ghost predicate Warranted(r: Request, h: Hold, w: Worm, a: Approval, now: int) {
    && ScopeClear(r)
    && h.status == "clear"
    && w.verified && w.signatureValid && w.complete && w.archiveDigest == r.expectedDigest
    && w.retainUntil.Some? && w.retainUntil.value <= now
    && a.approved && a.approver != r.requestedBy
  }

  /** The evidence is accepted exactly when it warrants the deletion. */
  lemma JudgeExact(r: Request, e: Evidence, now: int)
    requires ScopeClear(r)
    ensures Judge(r, e, now) == Authorized <==>
            e.hold.Some? && e.worm.Some? && e.approval.Some?
              && Warranted(r, e.hold.value, e.worm.value, e.approval.value, now)
  {
  }

  /** A recorded authorization: the signed body and what it rests on. */
  datatype Grant = Grant(body: Body, request: Request, hold: Hold, worm: Worm, approval: Approval, at: int)

  function GrantFor(digester: Digester, ttl: int, r: Request, e: Evidence, now: int): Grant
    requires e.hold.Some? && e.worm.Some? && e.approval.Some?
  {
    var h, w, a := e.hold.value, e.worm.value, e.approval.value;
    Grant(BodyFor(r, digester(r, h, w, a), now + ttl), r, h, w, a, now)
  }

  /** The in-memory decision store and the engine over it, one decision at a time. */
  class DecisionEngine {
    const ttl: int
    const digester: Digester
    var items: map<Key, string>

    constructor (ttl: int, digester: Digester)
      ensures this.ttl == ttl && this.digester == digester && items == map[]
    {
      this.ttl, this.digester, items := ttl, digester, map[];
    }

    /** Decides one request; only an authorization is stored, and a stored one is never repeated. */
    method Decide(r: Request, e: Evidence, now: int) returns (code: Code, grant: Option<Grant>)
      modifies this
      ensures code ==
        if !ScopeClear(r) then ScopeAmbiguous
        else if KeyOf(r) in old(items) then AlreadyDeleted
        else Judge(r, e, now)
      ensures code == Authorized ==>
        e.hold.Some? && e.worm.Some? && e.approval.Some? && grant == Some(GrantFor(digester, ttl, r, e, now))
        && items == old(items)[KeyOf(r) := grant.value.body.decisionDigest]
      ensures code != Authorized ==> grant == None && items == old(items)
    {
      grant := None;
      if !ScopeClear(r) {
        code := ScopeAmbiguous;
        return;
      }
      if KeyOf(r) in items {
        code := AlreadyDeleted;
        return;
      }
      code := Judge(r, e, now);
      if code == Authorized {
        JudgeExact(r, e, now);
        var g := GrantFor(digester, ttl, r, e, now);
        grant := Some(g);
        items := items[KeyOf(r) := g.body.decisionDigest];
      }
    }
  }

  // ---------------------------------------------------------------- tokens

  /** An ideal signature: made by the signer over one body, or something else. */
  datatype Signature = Mac(body: Body) | Forged(text: string)
  datatype Token = Token(signature: Signature, expiresAt: int)

  function Sign(body: Body): Token { Token(Mac(body), body.expiresAt) }

  /** A token verifies for a request and digest exactly when it is unexpired and signs their body. */
  function Verify(token: Token, r: Request, decisionDigest: string, now: int): Option<int> {
    if now >= token.expiresAt then None
    else if token.signature != Mac(BodyFor(r, decisionDigest, token.expiresAt)) then None
    else Some(token.expiresAt)
  }

  /** A signed token verifies for its own request until it expires, and for nothing it does not bind. */
  lemma VerifyExact(g: Grant, r: Request, decisionDigest: string, now: int)
    ensures Verify(Sign(g.body), r, decisionDigest, now).Some? <==>
            g.body == BodyFor(r, decisionDigest, g.body.expiresAt) && now < g.body.expiresAt
  {
  }

  // ---------------------------------------------------------------- the claim stores

  datatype AuthRow = AuthRow(expiresAt: int, consumedAt: Option<int>)

  /** The thread-safe set of the tests, or the rows of the PostgreSQL table. */
  datatype UseStore = Memory(claimed: set<string>) | Postgres(rows: map<string, AuthRow>)

  /** One atomic claim: the new store and whether it was won. */
  function Claim(store: UseStore, digest: string, expiresAt: int, now: int): (UseStore, bool) {
    match store
    case Memory(claimed) =>
      if now >= expiresAt || digest in claimed then (store, false) else (Memory(claimed + {digest}), true)
    case Postgres(rows) =>
      if digest in rows && rows[digest].consumedAt.None? && rows[digest].expiresAt == expiresAt
        && rows[digest].expiresAt > now
      then (Postgres(rows[digest := rows[digest].(consumedAt := Some(now))]), true)
      else (store, false)
  }

  /** Registration before a token is handed out; a known digest keeps its row. */
  function Register(store: UseStore, digest: string, expiresAt: int): UseStore {
    match store
    case Memory(_) => store
    case Postgres(rows) =>
      if |digest| != 64 || digest in rows then store else Postgres(rows[digest := AuthRow(expiresAt, None)])
  }

  /** The digest can never be claimed again. */
  ghost predicate Consumed(store: UseStore, digest: string) {
    match store
    case Memory(claimed) => digest in claimed
    case Postgres(rows) => digest in rows && rows[digest].consumedAt.Some?
  }

  /** A claim is won only unexpired and unconsumed, consumes its digest, and never frees another. */
  lemma ClaimOnce(store: UseStore, digest: string, expiresAt: int, now: int)
    ensures var (store', won) := Claim(store, digest, expiresAt, now);
            && (won ==> now < expiresAt && !Consumed(store, digest) && Consumed(store', digest))
            && (!won ==> store' == store)
            && forall d :: Consumed(store, d) ==> Consumed(store', d)
  {
  }

  lemma RegisterKeeps(store: UseStore, digest: string, expiresAt: int, d: string)
    ensures Consumed(store, d) ==> Consumed(Register(store, digest, expiresAt), d)
  {
  }

  class MemoryUseStore {
    var claimed: set<string>

    constructor ()
      ensures claimed == {}
    {
      claimed := {};
    }

    method TryClaim(digest: string, expiresAt: int, now: int) returns (won: bool)
      modifies this
      ensures (Memory(claimed), won) == Claim(Memory(old(claimed)), digest, expiresAt, now)
    {
      if now >= expiresAt || digest in claimed {
        return false;
      }
      claimed := claimed + {digest};
      return true;
    }
  }

  class PostgresUseStore {
    var rows: map<string, AuthRow>

    constructor ()
      ensures rows == map[]
    {
      rows := map[];
    }

    method RegisterDigest(digest: string, expiresAt: int) returns (ok: bool)
      modifies this
      ensures ok <==> |digest| == 64
      ensures Postgres(rows) == Register(Postgres(old(rows)), digest, expiresAt)
    {
      if |digest| != 64 {
        return false;
      }
      if digest !in rows {
        rows := rows[digest := AuthRow(expiresAt, None)];
      }
      return true;
    }

    method TryClaim(digest: string, expiresAt: int, now: int) returns (won: bool)
      modifies this
      ensures (Postgres(rows), won) == Claim(Postgres(old(rows)), digest, expiresAt, now)
    {
      won := digest in rows && rows[digest].consumedAt.None? && rows[digest].expiresAt == expiresAt
        && rows[digest].expiresAt > now;
      if won {
        rows := rows[digest := rows[digest].(consumedAt := Some(now))];
      }
    }
  }

  // ---------------------------------------------------------------- the protocol

  datatype Identity = Identity(index: string, uuid: string, version: string, digest: string)

  /** The identity read came back with exactly the index the request names. */
  predicate SameIdentity(i: Identity, r: Request) {
    i.index == r.index && i.uuid == r.uuid && i.version == r.version && i.digest == r.expectedDigest
  }

  /** What an execution answers; `Raised` is an exception the worker does not handle. */
  datatype Reply =
    | InvalidOrExpiredToken | PoolSaturated | ClaimError | ReplayOrConsumed
    | AuthenticationFailure | AuthorizationFailure | ManifestSignatureInvalid
    | ScopeChanged | Gone | Deleted | ExecutionError | Raised

  /** Where a worker's execution stands. */
  datatype Phase = Verified | Claimed | Ready(seen: Identity) | Ended(reply: Reply)

  datatype Work = Work(request: Request, digest: string, expiresAt: int, now: int, phase: Phase)

  datatype Win = Win(worker: nat, digest: string, expiresAt: int, now: int)
  datatype DeleteCall = DeleteCall(worker: nat, request: Request, digest: string, expiresAt: int, now: int,
    seen: Identity)

  /** How the claim call ends; a database error may strike after the row was consumed. */
  datatype ClaimOutcome = Reached | PoolTimeout | DatabaseError(applied: bool)

  datatype IdentityOutcome = Found(identity: Identity) | Absent | IdentityFailure(reply: Reply)
  datatype DeleteOutcome = DeletedNow | NotThere | DeleteFailure(reply: Reply)

  /** The worker over its claim store, one execution at a time. */
  class DeleteWorker {
    const uses: MemoryUseStore

    constructor (uses: MemoryUseStore)
      ensures this.uses == uses
    {
      this.uses := uses;
    }

    /**
      One execution. The delete call is made exactly when the token verifies, its digest had never
      been claimed and the index still is the one requested; the claim stays spent whatever follows.
     */
    method Execute(token: Token, r: Request, digest: string, now: int, identity: IdentityOutcome,
                   deletion: DeleteOutcome)
      returns (reply: Reply, called: bool)
      modifies uses
      ensures called <==>
        && Verify(token, r, digest, now).Some? && digest !in old(uses.claimed) && identity.Found?
        && SameIdentity(identity.identity, r)
      ensures uses.claimed == old(uses.claimed) + if Verify(token, r, digest, now).Some? then {digest} else {}
      ensures Verify(token, r, digest, now).None? ==> reply == InvalidOrExpiredToken
      ensures Verify(token, r, digest, now).Some? && digest in old(uses.claimed) ==> reply == ReplayOrConsumed
      ensures called ==> reply == Answer(deletion)
      ensures !called && Verify(token, r, digest, now).Some? && digest !in old(uses.claimed) ==>
        reply == Unmatched(identity)
    {
      called := false;
      var verified := Verify(token, r, digest, now);
      if verified.None? {
        return InvalidOrExpiredToken, false;
      }
      var won := uses.TryClaim(digest, verified.value, now);
      if !won {
        return ReplayOrConsumed, false;
      }
      match identity
      case IdentityFailure(failure) => return failure, false;
      case Absent => return Gone, false;
      case Found(i) =>
        if !SameIdentity(i, r) {
          return ScopeChanged, false;
        }
        return Answer(deletion), true;
    }
  }

  /** The worker over the database store, whose claim may also fail, before or after it took effect. */
  class DurableDeleteWorker {
    const uses: PostgresUseStore

    constructor (uses: PostgresUseStore)
      ensures this.uses == uses
    {
      this.uses := uses;
    }

    /**
      One execution. The delete call is made exactly when the token verifies, the claim is answered and
      won, and the index still is the one requested; no failure of the database leads to a delete.
     */
    method Execute(token: Token, r: Request, digest: string, now: int, outcome: ClaimOutcome,
                   identity: IdentityOutcome, deletion: DeleteOutcome)
      returns (reply: Reply, called: bool)
      modifies uses
      ensures called <==>
        && Verify(token, r, digest, now).Some? && outcome.Reached?
        && Claim(Postgres(old(uses.rows)), digest, token.expiresAt, now).1
        && identity.Found? && SameIdentity(identity.identity, r)
      ensures Postgres(uses.rows) ==
        if Verify(token, r, digest, now).Some? && (outcome.Reached? || outcome == DatabaseError(true))
        then Claim(Postgres(old(uses.rows)), digest, token.expiresAt, now).0 else Postgres(old(uses.rows))
      ensures Verify(token, r, digest, now).None? ==> reply == InvalidOrExpiredToken
      ensures Verify(token, r, digest, now).Some? && outcome.PoolTimeout? ==> reply == PoolSaturated
      ensures Verify(token, r, digest, now).Some? && outcome.DatabaseError? ==> reply == ClaimError
      ensures called ==> reply == Answer(deletion)
      ensures !called && Verify(token, r, digest, now).Some? && outcome.Reached? ==>
        reply == if !Claim(Postgres(old(uses.rows)), digest, token.expiresAt, now).1 then ReplayOrConsumed
                 else Unmatched(identity)
    {
      called := false;
      if Verify(token, r, digest, now).None? {
        return InvalidOrExpiredToken, false;
      }
      if outcome.PoolTimeout? {
        return PoolSaturated, false;
      }
      if outcome == DatabaseError(false) {
        return ClaimError, false;
      }
      var won := uses.TryClaim(digest, token.expiresAt, now);
      if outcome.DatabaseError? {
        return ClaimError, false;
      }
      if !won {
        return ReplayOrConsumed, false;
      }
      match identity
      case IdentityFailure(failure) => return failure, false;
      case Absent => return Gone, false;
      case Found(i) =>
        if !SameIdentity(i, r) {
          return ScopeChanged, false;
        }
        return Answer(deletion), true;
    }
  }

  /** What the worker answers when the identity read does not lead to a delete call. */
  function Unmatched(outcome: IdentityOutcome): Reply {
    match outcome
    case IdentityFailure(failure) => failure
    case Absent => Gone
    case Found(_) => ScopeChanged
  }

  /** What the worker answers to the outcome of its delete call. */
  function Answer(outcome: DeleteOutcome): Reply {
    match outcome
    case DeletedNow => Deleted
    case NotThere => Gone
    case DeleteFailure(failure) => failure
  }

  datatype State = State(
    ttl: int, digester: Digester,
    items: map<Key, string>,
    deciding: map<nat, (Request, int)>,
    grants: seq<Grant>,
    store: UseStore,
    work: map<nat, Work>,
    wins: seq<Win>,
    deletes: seq<DeleteCall>)

  datatype Step =
    | DecideStart(call: nat, request: Request, now: int)
    | DecideFinish(call: nat, evidence: Evidence)
    | RegisterToken(digest: string, expiresAt: int)
    | WorkStart(worker: nat, token: Token, request: Request, digest: string, now: int)
    | TryClaim(worker: nat, outcome: ClaimOutcome)
    | ReadIdentity(worker: nat, identity: IdentityOutcome)
    | Delete(worker: nat, deletion: DeleteOutcome)

  function Initial(ttl: int, digester: Digester, store: UseStore): State {
    State(ttl, digester, map[], map[], [], store, map[], [], [])
  }

  /** Some authorization signed the body. */
  ghost predicate Signed(s: State, b: Body) {
    exists g :: 0 <= g < |s.grants| && s.grants[g].body == b
  }

  /** The ideal MAC: a signature by the signer exists only over a signed body. */
  ghost predicate Enabled(s: State, step: Step) {
    match step
    case DecideStart(call, _, _) => call !in s.deciding
    case DecideFinish(call, _) => call in s.deciding
    case RegisterToken(_, _) => true
    case WorkStart(worker, token, _, _, _) =>
      worker !in s.work && (token.signature.Mac? ==> Signed(s, token.signature.body))
    case TryClaim(worker, _) => worker in s.work && s.work[worker].phase == Verified
    case ReadIdentity(worker, _) => worker in s.work && s.work[worker].phase == Claimed
    case Delete(worker, _) => worker in s.work && s.work[worker].phase.Ready?
  }

  function Move(s: State, worker: nat, phase: Phase): State
    requires worker in s.work
  {
    s.(work := s.work[worker := s.work[worker].(phase := phase)])
  }

  /** The lookup: an unclear scope or a stored decision ends the call at once. */
  function StartDecision(s: State, call: nat, r: Request, now: int): State {
    if ScopeClear(r) && KeyOf(r) !in s.items then s.(deciding := s.deciding[call := (r, now)]) else s
  }

  /** The evidence is in: sign and store, or deny. */
  function FinishDecision(s: State, call: nat, e: Evidence): State
    requires call in s.deciding
  {
    var (r, now) := s.deciding[call];
    var rest := s.deciding - {call};
    if Judge(r, e, now) == Authorized then
      var g := GrantFor(s.digester, s.ttl, r, e, now);
      s.(deciding := rest, items := s.items[KeyOf(r) := g.body.decisionDigest], grants := s.grants + [g])
    else s.(deciding := rest)
  }

  function StartWork(s: State, worker: nat, token: Token, r: Request, digest: string, now: int): State {
    match Verify(token, r, digest, now)
    case None => s.(work := s.work[worker := Work(r, digest, token.expiresAt, now, Ended(InvalidOrExpiredToken))])
    case Some(expiresAt) => s.(work := s.work[worker := Work(r, digest, expiresAt, now, Verified)])
  }

  /** The claim is won. */
  function Won(s: State, worker: nat, store: UseStore): State
    requires worker in s.work
  {
    var w := s.work[worker];
    Move(s, worker, Claimed).(store := store, wins := s.wins + [Win(worker, w.digest, w.expiresAt, w.now)])
  }

  function ClaimStep(s: State, worker: nat, outcome: ClaimOutcome): State
    requires worker in s.work
  {
    var w := s.work[worker];
    var (store, won) := Claim(s.store, w.digest, w.expiresAt, w.now);
    match outcome
    case Reached =>
      if won then Won(s, worker, store)
      else Move(s, worker, Ended(ReplayOrConsumed))
    case PoolTimeout => Move(s, worker, Ended(PoolSaturated))
    case DatabaseError(applied) => Move(s, worker, Ended(ClaimError)).(store := if applied then store else s.store)
  }

  function IdentityStep(s: State, worker: nat, outcome: IdentityOutcome): State
    requires worker in s.work
  {
    match outcome
    case IdentityFailure(reply) => Move(s, worker, Ended(reply))
    case Absent => Move(s, worker, Ended(Gone))
    case Found(i) => Move(s, worker, if SameIdentity(i, s.work[worker].request) then Ready(i) else Ended(ScopeChanged))
  }

  function DeleteStep(s: State, worker: nat, outcome: DeleteOutcome): State
    requires worker in s.work && s.work[worker].phase.Ready?
  {
    var w := s.work[worker];
    var call := DeleteCall(worker, w.request, w.digest, w.expiresAt, w.now, w.phase.seen);
    Move(s, worker, Ended(Answer(outcome))).(deletes := s.deletes + [call])
  }

  ghost function Apply(s: State, step: Step): State
    requires Enabled(s, step)
  {
    match step
    case DecideStart(call, r, now) => StartDecision(s, call, r, now)
    case DecideFinish(call, e) => FinishDecision(s, call, e)
    case RegisterToken(digest, expiresAt) => s.(store := Register(s.store, digest, expiresAt))
    case WorkStart(worker, token, r, digest, now) => StartWork(s, worker, token, r, digest, now)
    case TryClaim(worker, outcome) => ClaimStep(s, worker, outcome)
    case ReadIdentity(worker, outcome) => IdentityStep(s, worker, outcome)
    case Delete(worker, outcome) => DeleteStep(s, worker, outcome)
  }

  ghost predicate Legal(s: State, steps: seq<Step>)
    decreases |steps|
  {
    steps == [] || (Enabled(s, steps[0]) && Legal(Apply(s, steps[0]), steps[1..]))
  }

  ghost function After(s: State, steps: seq<Step>): State
    requires Legal(s, steps)
    decreases |steps|
  {
    if steps == [] then s else After(Apply(s, steps[0]), steps[1..])
  }

  // ---------------------------------------------------------------- what every run keeps

  /** The grant was warranted, and its body says for what and until when. */
  ghost predicate Lawful(digester: Digester, ttl: int, g: Grant) {
    && Warranted(g.request, g.hold, g.worm, g.approval, g.at)
    && g.body == BodyFor(g.request, digester(g.request, g.hold, g.worm, g.approval), g.at + ttl)
  }

  ghost predicate HasWin(s: State, win: Win) {
    exists k :: 0 <= k < |s.wins| && s.wins[k] == win
  }

  /** A worker past verification holds a signed, unexpired body; past the claim it holds its win. */
  ghost predicate WorkOk(s: State, id: nat)
    requires id in s.work
  {
    var w := s.work[id];
    w.phase.Ended? || (
      && Signed(s, BodyFor(w.request, w.digest, w.expiresAt)) && w.now < w.expiresAt
      && (w.phase != Verified ==> HasWin(s, Win(id, w.digest, w.expiresAt, w.now)))
      && (w.phase.Ready? ==> SameIdentity(w.phase.seen, w.request)))
  }

  ghost predicate GrantOk(s: State, g: nat)
    requires g < |s.grants|
  {
    Lawful(s.digester, s.ttl, s.grants[g])
  }

  ghost predicate DecidingOk(s: State, call: nat)
    requires call in s.deciding
  {
    ScopeClear(s.deciding[call].0)
  }

  ghost predicate WinOk(s: State, k: nat)
    requires k < |s.wins|
  {
    Consumed(s.store, s.wins[k].digest)
  }

  ghost predicate WinPair(s: State, i: nat, j: nat)
    requires i < j < |s.wins|
  {
    s.wins[i].digest != s.wins[j].digest
  }

  ghost predicate DeleteOk(s: State, k: nat)
    requires k < |s.deletes|
  {
    var d := s.deletes[k];
    && Signed(s, BodyFor(d.request, d.digest, d.expiresAt)) && d.now < d.expiresAt
    && HasWin(s, Win(d.worker, d.digest, d.expiresAt, d.now))
    && SameIdentity(d.seen, d.request)
    && d.worker in s.work && s.work[d.worker].phase.Ended?
  }

  ghost predicate DeletePair(s: State, i: nat, j: nat)
    requires i < j < |s.deletes|
  {
    s.deletes[i].worker != s.deletes[j].worker
  }

  ghost predicate GateSound(s: State) {
    && (forall g {:trigger GrantOk(s, g)} :: 0 <= g < |s.grants| ==> GrantOk(s, g))
    && (forall c {:trigger DecidingOk(s, c)} :: c in s.deciding ==> DecidingOk(s, c))
  }

  ghost predicate WorkSound(s: State) {
    forall id {:trigger WorkOk(s, id)} :: id in s.work ==> WorkOk(s, id)
  }

  ghost predicate WinSound(s: State) {
    && (forall k {:trigger WinOk(s, k)} :: 0 <= k < |s.wins| ==> WinOk(s, k))
    && (forall i, j {:trigger WinPair(s, i, j)} :: 0 <= i < j < |s.wins| ==> WinPair(s, i, j))
  }

  ghost predicate DeleteSound(s: State) {
    && (forall k {:trigger DeleteOk(s, k)} :: 0 <= k < |s.deletes| ==> DeleteOk(s, k))
    && (forall i, j {:trigger DeletePair(s, i, j)} :: 0 <= i < j < |s.deletes| ==> DeletePair(s, i, j))
  }

  ghost predicate Sound(s: State) {
    GateSound(s) && WorkSound(s) && WinSound(s) && DeleteSound(s)
  }

  /** Nothing signed or won is ever taken back. */
  ghost predicate Grows(s: State, t: State) {
    && s.ttl == t.ttl && s.digester == t.digester
    && s.grants <= t.grants && s.wins <= t.wins && s.deletes <= t.deletes
  }

  lemma StillSigned(s: State, t: State, b: Body)
    requires Grows(s, t) && Signed(s, b)
    ensures Signed(t, b)
  {
    var g :| 0 <= g < |s.grants| && s.grants[g].body == b;
    assert t.grants[g].body == b;
  }

  lemma StillWon(s: State, t: State, win: Win)
    requires Grows(s, t) && HasWin(s, win)
    ensures HasWin(t, win)
  {
    var k :| 0 <= k < |s.wins| && s.wins[k] == win;
    assert t.wins[k] == win;
  }

  lemma WorkKept(s: State, t: State, id: nat)
    requires Grows(s, t) && id in s.work && WorkOk(s, id)
    requires id in t.work && t.work[id] == s.work[id]
    ensures WorkOk(t, id)
  {
    var w := s.work[id];
    if !w.phase.Ended? {
      StillSigned(s, t, BodyFor(w.request, w.digest, w.expiresAt));
      if w.phase != Verified {
        StillWon(s, t, Win(id, w.digest, w.expiresAt, w.now));
      }
    }
  }

  /** The rest of the workers are as they were; what one worker became is checked apart. */
  lemma WorkRest(s: State, t: State, id: nat)
    requires Grows(s, t) && WorkSound(s)
    requires id in t.work && WorkOk(t, id)
    requires forall o :: o in t.work && o != id ==> o in s.work && t.work[o] == s.work[o]
    ensures WorkSound(t)
  {
    forall o {:trigger WorkOk(t, o)} | o in t.work
      ensures WorkOk(t, o)
    {
      if o != id {
        assert WorkOk(s, o);
        WorkKept(s, t, o);
      }
    }
  }

  /** Delete calls stay good while ended workers stay ended. */
  lemma DeletesKept(s: State, t: State)
    requires Grows(s, t) && DeleteSound(s) && t.deletes == s.deletes
    requires forall o :: o in s.work && s.work[o].phase.Ended? ==> o in t.work && t.work[o].phase.Ended?
    ensures DeleteSound(t)
  {
    forall k {:trigger DeleteOk(t, k)} | 0 <= k < |t.deletes|
      ensures DeleteOk(t, k)
    {
      var d := s.deletes[k];
      assert DeleteOk(s, k);
      StillSigned(s, t, BodyFor(d.request, d.digest, d.expiresAt));
      StillWon(s, t, Win(d.worker, d.digest, d.expiresAt, d.now));
    }
    forall i, j {:trigger DeletePair(t, i, j)} | 0 <= i < j < |t.deletes|
      ensures DeletePair(t, i, j)
    {
      assert DeletePair(s, i, j);
    }
  }

  lemma WinsKept(s: State, t: State)
    requires WinSound(s) && t.wins == s.wins
    requires forall d :: Consumed(s.store, d) ==> Consumed(t.store, d)
    ensures WinSound(t)
  {
    forall k {:trigger WinOk(t, k)} | 0 <= k < |t.wins|
      ensures WinOk(t, k)
    {
      assert WinOk(s, k);
    }
    forall i, j {:trigger WinPair(t, i, j)} | 0 <= i < j < |t.wins|
      ensures WinPair(t, i, j)
    {
      assert WinPair(s, i, j);
    }
  }

  /** The new win's digest was free, so it differs from every earlier one. */
  lemma WinsGrow(s: State, t: State, win: Win)
    requires WinSound(s) && t.wins == s.wins + [win]
    requires !Consumed(s.store, win.digest) && Consumed(t.store, win.digest)
    requires forall d :: Consumed(s.store, d) ==> Consumed(t.store, d)
    ensures WinSound(t)
  {
    forall k {:trigger WinOk(t, k)} | 0 <= k < |t.wins|
      ensures WinOk(t, k)
    {
      if k < |s.wins| {
        assert WinOk(s, k);
      }
    }
    forall i, j {:trigger WinPair(t, i, j)} | 0 <= i < j < |t.wins|
      ensures WinPair(t, i, j)
    {
      assert WinOk(s, i);
      if j < |s.wins| {
        assert WinPair(s, i, j);
      }
    }
  }

  lemma GateKept(s: State, t: State)
    requires GateSound(s) && s.ttl == t.ttl && s.digester == t.digester && t.grants == s.grants
    requires t.deciding == s.deciding
    ensures GateSound(t)
  {
    forall g {:trigger GrantOk(t, g)} | 0 <= g < |t.grants|
      ensures GrantOk(t, g)
    {
      assert GrantOk(s, g);
    }
    forall c {:trigger DecidingOk(t, c)} | c in t.deciding
      ensures DecidingOk(t, c)
    {
      assert DecidingOk(s, c);
    }
  }

  lemma StartDecisionSound(s: State, call: nat, r: Request, now: int)
    requires GateSound(s)
    ensures GateSound(StartDecision(s, call, r, now))
  {
    var t := StartDecision(s, call, r, now);
    forall g {:trigger GrantOk(t, g)} | 0 <= g < |t.grants|
      ensures GrantOk(t, g)
    {
      assert GrantOk(s, g);
    }
    forall c {:trigger DecidingOk(t, c)} | c in t.deciding
      ensures DecidingOk(t, c)
    {
      if t.deciding == s.deciding || c != call {
        assert DecidingOk(s, c);
      }
    }
  }

  lemma FinishDecisionSound(s: State, call: nat, e: Evidence)
    requires GateSound(s) && call in s.deciding
    ensures GateSound(FinishDecision(s, call, e))
  {
    var t := FinishDecision(s, call, e);
    var (r, now) := s.deciding[call];
    assert DecidingOk(s, call);
    JudgeExact(r, e, now);
    forall g {:trigger GrantOk(t, g)} | 0 <= g < |t.grants|
      ensures GrantOk(t, g)
    {
      if g < |s.grants| {
        assert GrantOk(s, g);
      }
    }
    forall c {:trigger DecidingOk(t, c)} | c in t.deciding
      ensures DecidingOk(t, c)
    {
      assert DecidingOk(s, c);
    }
  }

  /** The gateway's steps leave the workers' side as it is. */
  lemma GateStepSound(s: State, t: State)
    requires Sound(s) && Grows(s, t) && GateSound(t)
    requires t.work == s.work && t.wins == s.wins && t.deletes == s.deletes && t.store == s.store
    ensures Sound(t)
  {
    forall id {:trigger WorkOk(t, id)} | id in t.work
      ensures WorkOk(t, id)
    {
      assert WorkOk(s, id);
      WorkKept(s, t, id);
    }
    WinsKept(s, t);
    DeletesKept(s, t);
  }

  lemma RegisterSound(s: State, digest: string, expiresAt: int)
    requires Sound(s)
    ensures Sound(s.(store := Register(s.store, digest, expiresAt)))
  {
    var t := s.(store := Register(s.store, digest, expiresAt));
    GateKept(s, t);
    forall d | Consumed(s.store, d)
      ensures Consumed(t.store, d)
    {
      RegisterKeeps(s.store, digest, expiresAt, d);
    }
    WinsKept(s, t);
    DeletesKept(s, t);
    forall id {:trigger WorkOk(t, id)} | id in t.work
      ensures WorkOk(t, id)
    {
      assert WorkOk(s, id);
      WorkKept(s, t, id);
    }
  }

  lemma StartWorkSound(s: State, worker: nat, token: Token, r: Request, digest: string, now: int)
    requires Sound(s) && Enabled(s, WorkStart(worker, token, r, digest, now))
    ensures Sound(StartWork(s, worker, token, r, digest, now))
  {
    var t := StartWork(s, worker, token, r, digest, now);
    GateKept(s, t);
    if Verify(token, r, digest, now).Some? {
      StillSigned(s, t, token.signature.body);
    }
    assert WorkOk(t, worker);
    WorkRest(s, t, worker);
    WinsKept(s, t);
    DeletesKept(s, t);
  }

  lemma WonSound(s: State, worker: nat, store: UseStore)
    requires Sound(s) && worker in s.work && s.work[worker].phase == Verified
    requires !Consumed(s.store, s.work[worker].digest) && Consumed(store, s.work[worker].digest)
    requires forall d :: Consumed(s.store, d) ==> Consumed(store, d)
    ensures Sound(Won(s, worker, store))
  {
    var t := Won(s, worker, store);
    var w := s.work[worker];
    var win := Win(worker, w.digest, w.expiresAt, w.now);
    assert t.wins[|s.wins|] == win;
    GateKept(s, t);
    WinsGrow(s, t, win);
    assert WorkOk(s, worker);
    StillSigned(s, t, BodyFor(w.request, w.digest, w.expiresAt));
    assert WorkOk(t, worker);
    WorkRest(s, t, worker);
    DeletesKept(s, t);
  }

  lemma LostSound(s: State, worker: nat, reply: Reply, store: UseStore)
    requires Sound(s) && worker in s.work
    requires forall d :: Consumed(s.store, d) ==> Consumed(store, d)
    ensures Sound(Move(s, worker, Ended(reply)).(store := store))
  {
    var t := Move(s, worker, Ended(reply)).(store := store);
    GateKept(s, t);
    WinsKept(s, t);
    assert WorkOk(t, worker);
    WorkRest(s, t, worker);
    DeletesKept(s, t);
  }

  lemma ClaimSound(s: State, worker: nat, outcome: ClaimOutcome)
    requires Sound(s) && Enabled(s, TryClaim(worker, outcome))
    ensures Sound(ClaimStep(s, worker, outcome))
  {
    var w := s.work[worker];
    ClaimOnce(s.store, w.digest, w.expiresAt, w.now);
    var (store, won) := Claim(s.store, w.digest, w.expiresAt, w.now);
    match outcome
    case Reached =>
      if won {
        WonSound(s, worker, store);
      } else {
        LostSound(s, worker, ReplayOrConsumed, s.store);
      }
    case PoolTimeout => LostSound(s, worker, PoolSaturated, s.store);
    case DatabaseError(applied) => LostSound(s, worker, ClaimError, if applied then store else s.store);
  }

  lemma IdentitySound(s: State, worker: nat, outcome: IdentityOutcome)
    requires Sound(s) && Enabled(s, ReadIdentity(worker, outcome))
    ensures Sound(IdentityStep(s, worker, outcome))
  {
    var t := IdentityStep(s, worker, outcome);
    var w := s.work[worker];
    GateKept(s, t);
    assert WorkOk(s, worker);
    StillSigned(s, t, BodyFor(w.request, w.digest, w.expiresAt));
    StillWon(s, t, Win(worker, w.digest, w.expiresAt, w.now));
    assert WorkOk(t, worker);
    WorkRest(s, t, worker);
    WinsKept(s, t);
    DeletesKept(s, t);
  }

  /** The new call's worker was still at work, so no earlier call is its own. */
  lemma DeleteCallSound(s: State, worker: nat, outcome: DeleteOutcome)
    requires Sound(s) && Enabled(s, Delete(worker, outcome))
    ensures Sound(DeleteStep(s, worker, outcome))
  {
    var t := DeleteStep(s, worker, outcome);
    var w := s.work[worker];
    GateKept(s, t);
    assert WorkOk(s, worker);
    StillSigned(s, t, BodyFor(w.request, w.digest, w.expiresAt));
    StillWon(s, t, Win(worker, w.digest, w.expiresAt, w.now));
    assert WorkOk(t, worker);
    WorkRest(s, t, worker);
    WinsKept(s, t);
    var u := t.(deletes := s.deletes);
    DeletesKept(s, u);
    forall k {:trigger DeleteOk(t, k)} | 0 <= k < |t.deletes|
      ensures DeleteOk(t, k)
    {
      if k < |s.deletes| {
        var d := u.deletes[k];
        assert DeleteOk(u, k);
        StillSigned(u, t, BodyFor(d.request, d.digest, d.expiresAt));
        StillWon(u, t, Win(d.worker, d.digest, d.expiresAt, d.now));
      }
    }
    forall i, j {:trigger DeletePair(t, i, j)} | 0 <= i < j < |t.deletes|
      ensures DeletePair(t, i, j)
    {
      assert DeleteOk(s, i);
      if j < |s.deletes| {
        assert DeletePair(s, i, j);
      }
    }
  }

  lemma StartSound(s: State, call: nat, r: Request, now: int)
    requires Sound(s)
    ensures Sound(StartDecision(s, call, r, now))
  {
    StartDecisionSound(s, call, r, now);
    GateStepSound(s, StartDecision(s, call, r, now));
  }

  lemma FinishSound(s: State, call: nat, e: Evidence)
    requires Sound(s) && call in s.deciding
    ensures Sound(FinishDecision(s, call, e))
  {
    FinishDecisionSound(s, call, e);
    GateStepSound(s, FinishDecision(s, call, e));
  }

  /** Every step of gateway and workers keeps the protocol sound. */
  lemma StepSound(s: State, step: Step)
    requires Sound(s) && Enabled(s, step)
    ensures Sound(Apply(s, step))
  {
    match step
    case DecideStart(call, r, now) => StartSound(s, call, r, now);
    case DecideFinish(call, e) => FinishSound(s, call, e);
    case RegisterToken(digest, expiresAt) => RegisterSound(s, digest, expiresAt);
    case WorkStart(worker, token, r, digest, now) => StartWorkSound(s, worker, token, r, digest, now);
    case TryClaim(worker, outcome) => ClaimSound(s, worker, outcome);
    case ReadIdentity(worker, outcome) => IdentitySound(s, worker, outcome);
    case Delete(worker, outcome) => DeleteCallSound(s, worker, outcome);
  }

  lemma {:induction false} RunSound(s: State, steps: seq<Step>)
    requires Sound(s) && Legal(s, steps)
    ensures Sound(After(s, steps))
    decreases |steps|
  {
    if steps != [] {
      StepSound(s, steps[0]);
      RunSound(Apply(s, steps[0]), steps[1..]);
    }
  }

  // ---------------------------------------------------------------- the results

  /** The delete call rests on this grant: same index, digest and expiry, claimed before it expired. */
  ghost predicate RestsOn(s: State, d: DeleteCall, g: Grant) {
    && Lawful(s.digester, s.ttl, g)
    && g.body == BodyFor(d.request, d.digest, d.expiresAt)
    && KeyOf(g.request) == KeyOf(d.request) && g.request.expectedDigest == d.request.expectedDigest
    && d.now < g.at + s.ttl
  }

  /**
    In every interleaving, every delete call has a win of its own, an identity read that matched the
    request exactly, and a warranted grant for that index that had not expired; two delete calls
    never share a decision digest.
   */
  lemma DeletesAuthorised(ttl: int, digester: Digester, store: UseStore, steps: seq<Step>, k: nat)
    requires Legal(Initial(ttl, digester, store), steps)
    requires k < |After(Initial(ttl, digester, store), steps).deletes|
    ensures var s := After(Initial(ttl, digester, store), steps);
            var d := s.deletes[k];
            && HasWin(s, Win(d.worker, d.digest, d.expiresAt, d.now))
            && SameIdentity(d.seen, d.request)
            && (exists g :: 0 <= g < |s.grants| && RestsOn(s, d, s.grants[g]))
            && (forall j :: 0 <= j < |s.deletes| && j != k ==> s.deletes[j].digest != d.digest)
  {
    RunSound(Initial(ttl, digester, store), steps);
    var s := After(Initial(ttl, digester, store), steps);
    var d := s.deletes[k];
    assert DeleteOk(s, k);
    var g :| 0 <= g < |s.grants| && s.grants[g].body == BodyFor(d.request, d.digest, d.expiresAt);
    assert GrantOk(s, g);
    assert RestsOn(s, d, s.grants[g]);
    forall j | 0 <= j < |s.deletes| && j != k
      ensures s.deletes[j].digest != d.digest
    {
      DistinctDigests(s, k, j);
    }
  }

  /** Different delete calls come from different workers, hence from different wins and digests. */
  lemma DistinctDigests(s: State, i: nat, j: nat)
    requires Sound(s) && i < |s.deletes| && j < |s.deletes| && i != j
    ensures s.deletes[i].digest != s.deletes[j].digest
  {
    var d, e := s.deletes[i], s.deletes[j];
    assert DeletePair(s, if i < j then i else j, if i < j then j else i);
    assert DeleteOk(s, i) && DeleteOk(s, j);
    var a :| 0 <= a < |s.wins| && s.wins[a] == Win(d.worker, d.digest, d.expiresAt, d.now);
    var b :| 0 <= b < |s.wins| && s.wins[b] == Win(e.worker, e.digest, e.expiresAt, e.now);
    assert a != b;
    assert WinPair(s, if a < b then a else b, if a < b then b else a);
  }

  /** No decision on an index begins while another on it is open. */
  ghost predicate Serial(s: State, steps: seq<Step>)
    requires Legal(s, steps)
    decreases |steps|
  {
    steps == [] || (
      && (steps[0].DecideStart? ==> !Open(s, KeyOf(steps[0].request)))
      && Serial(Apply(s, steps[0]), steps[1..]))
  }

  ghost predicate Open(s: State, key: Key) {
    exists c :: c in s.deciding && KeyOf(s.deciding[c].0) == key
  }

  ghost predicate GrantStored(s: State, g: nat)
    requires g < |s.grants|
  {
    KeyOf(s.grants[g].request) in s.items
  }

  ghost predicate GrantPair(s: State, i: nat, j: nat)
    requires i < j < |s.grants|
  {
    KeyOf(s.grants[i].request) != KeyOf(s.grants[j].request)
  }

  /** An open decision's index has no stored one, and is open only once. */
  ghost predicate OpenOk(s: State, c: nat)
    requires c in s.deciding
  {
    && KeyOf(s.deciding[c].0) !in s.items
    && forall o :: o in s.deciding && o != c ==> KeyOf(s.deciding[o].0) != KeyOf(s.deciding[c].0)
  }

  ghost predicate OneEach(s: State) {
    && (forall g {:trigger GrantStored(s, g)} :: 0 <= g < |s.grants| ==> GrantStored(s, g))
    && (forall i, j {:trigger GrantPair(s, i, j)} :: 0 <= i < j < |s.grants| ==> GrantPair(s, i, j))
    && (forall c {:trigger OpenOk(s, c)} :: c in s.deciding ==> OpenOk(s, c))
  }

  lemma StartOneEach(s: State, call: nat, r: Request, now: int)
    requires OneEach(s) && call !in s.deciding && !Open(s, KeyOf(r))
    ensures OneEach(StartDecision(s, call, r, now))
  {
    var t := StartDecision(s, call, r, now);
    assert forall g {:trigger GrantStored(t, g)} :: 0 <= g < |t.grants| ==> GrantStored(s, g);
    assert forall i, j {:trigger GrantPair(t, i, j)} :: 0 <= i < j < |t.grants| ==> GrantPair(s, i, j);
    forall c {:trigger OpenOk(t, c)} | c in t.deciding
      ensures OpenOk(t, c)
    {
      if c in s.deciding {
        assert OpenOk(s, c);
      }
    }
  }

  lemma FinishOneEach(s: State, call: nat, e: Evidence)
    requires OneEach(s) && call in s.deciding
    ensures OneEach(FinishDecision(s, call, e))
  {
    var t := FinishDecision(s, call, e);
    assert OpenOk(s, call);
    forall g {:trigger GrantStored(t, g)} | 0 <= g < |t.grants|
      ensures GrantStored(t, g)
    {
      if g < |s.grants| {
        assert GrantStored(s, g);
      }
    }
    forall i, j {:trigger GrantPair(t, i, j)} | 0 <= i < j < |t.grants|
      ensures GrantPair(t, i, j)
    {
      assert GrantStored(s, i);
      if j < |s.grants| {
        assert GrantPair(s, i, j);
      }
    }
    forall c {:trigger OpenOk(t, c)} | c in t.deciding
      ensures OpenOk(t, c)
    {
      assert OpenOk(s, c);
    }
  }

  lemma SameGate(s: State, t: State)
    requires OneEach(s) && t.grants == s.grants && t.items == s.items && t.deciding == s.deciding
    ensures OneEach(t)
  {
    assert forall g {:trigger GrantStored(t, g)} :: 0 <= g < |t.grants| ==> GrantStored(s, g);
    assert forall i, j {:trigger GrantPair(t, i, j)} :: 0 <= i < j < |t.grants| ==> GrantPair(s, i, j);
    assert forall c {:trigger OpenOk(t, c)} :: c in t.deciding ==> OpenOk(s, c);
  }

  lemma WorkersLeaveGate(s: State, step: Step)
    requires Enabled(s, step) && !step.DecideStart? && !step.DecideFinish?
    ensures var t := Apply(s, step); t.grants == s.grants && t.items == s.items && t.deciding == s.deciding
  {
  }

  lemma StepOneEach(s: State, step: Step)
    requires OneEach(s) && Enabled(s, step) && (step.DecideStart? ==> !Open(s, KeyOf(step.request)))
    ensures OneEach(Apply(s, step))
  {
    if step.DecideStart? {
      StartOneEach(s, step.call, step.request, step.now);
    } else if step.DecideFinish? {
      FinishOneEach(s, step.call, step.evidence);
    } else {
      WorkersLeaveGate(s, step);
      SameGate(s, Apply(s, step));
    }
  }

  lemma {:induction false} RunOneEach(s: State, steps: seq<Step>)
    requires OneEach(s) && Legal(s, steps) && Serial(s, steps)
    ensures OneEach(After(s, steps))
    decreases |steps|
  {
    if steps != [] {
      StepOneEach(s, steps[0]);
      RunOneEach(Apply(s, steps[0]), steps[1..]);
    }
  }

  /**
    While decisions on one index never overlap, at most one authorization is ever signed for it
    and at most one delete call is ever made for it, whatever the workers do.
   */
  lemma OneDeleteEach(ttl: int, digester: Digester, store: UseStore, steps: seq<Step>)
    requires Legal(Initial(ttl, digester, store), steps) && Serial(Initial(ttl, digester, store), steps)
    ensures var s := After(Initial(ttl, digester, store), steps);
            && (forall i, j :: 0 <= i < j < |s.grants| ==> KeyOf(s.grants[i].request) != KeyOf(s.grants[j].request))
            && (forall i, j :: 0 <= i < j < |s.deletes| ==> KeyOf(s.deletes[i].request) != KeyOf(s.deletes[j].request))
  {
    RunSound(Initial(ttl, digester, store), steps);
    RunOneEach(Initial(ttl, digester, store), steps);
    var s := After(Initial(ttl, digester, store), steps);
    forall i, j | 0 <= i < j < |s.grants|
      ensures KeyOf(s.grants[i].request) != KeyOf(s.grants[j].request)
    {
      assert GrantPair(s, i, j);
    }
    forall i, j | 0 <= i < j < |s.deletes|
      ensures KeyOf(s.deletes[i].request) != KeyOf(s.deletes[j].request)
    {
      DistinctIndices(s, i, j);
    }
  }

  lemma DistinctIndices(s: State, i: nat, j: nat)
    requires Sound(s) && OneEach(s) && i < j < |s.deletes|
    ensures KeyOf(s.deletes[i].request) != KeyOf(s.deletes[j].request)
  {
    var d, e := s.deletes[i], s.deletes[j];
    assert DeleteOk(s, i) && DeleteOk(s, j);
    DistinctDigests(s, i, j);
    var a :| 0 <= a < |s.grants| && s.grants[a].body == BodyFor(d.request, d.digest, d.expiresAt);
    var b :| 0 <= b < |s.grants| && s.grants[b].body == BodyFor(e.request, e.digest, e.expiresAt);
    assert GrantOk(s, a) && GrantOk(s, b);
    assert GrantPair(s, if a < b then a else b, if a < b then b else a);
  }

  // ---------------------------------------------------------------- exactly when two tokens are signed

  ghost predicate StepAt(b: seq<State>, steps: seq<Step>, i: nat)
    requires i < |steps| && |b| == |steps| + 1
  {
    Enabled(b[i], steps[i]) && b[i + 1] == Apply(b[i], steps[i])
  }

  /** The states b come about from the first by the steps. */
  ghost predicate Behaviour(b: seq<State>, steps: seq<Step>) {
    && |b| == |steps| + 1 && b[0] == Initial(b[0].ttl, b[0].digester, b[0].store)
    && forall i {:trigger StepAt(b, steps, i)} :: 0 <= i < |steps| ==> StepAt(b, steps, i)
  }

  /** Every run has its behaviour. */
  lemma {:induction false} Traced(s: State, steps: seq<Step>) returns (b: seq<State>)
    requires Legal(s, steps)
    ensures |b| == |steps| + 1 && b[0] == s && b[|steps|] == After(s, steps)
    ensures forall i {:trigger StepAt(b, steps, i)} :: 0 <= i < |steps| ==> StepAt(b, steps, i)
    decreases |steps|
  {
    b := [s];
    if steps != [] {
      var c := Traced(Apply(s, steps[0]), steps[1..]);
      b := [s] + c;
      forall i {:trigger StepAt(b, steps, i)} | 0 <= i < |steps|
        ensures StepAt(b, steps, i)
      {
        assert i > 0 ==> StepAt(c, steps[1..], i - 1);
      }
    }
  }

  /** Some grant has the key. */
  ghost predicate Granted(s: State, key: Key) {
    exists g :: 0 <= g < |s.grants| && KeyOf(s.grants[g].request) == key
  }

  ghost predicate OneGrantEach(s: State) {
    forall i, j {:trigger GrantPair(s, i, j)} :: 0 <= i < j < |s.grants| ==> GrantPair(s, i, j)
  }

  /** What is stored is what was granted, key by key. */
  ghost predicate StoredExactly(s: State) {
    forall key {:trigger Granted(s, key)} :: key in s.items <==> Granted(s, key)
  }

  lemma StoredStep(s: State, step: Step)
    requires StoredExactly(s) && Enabled(s, step)
    ensures StoredExactly(Apply(s, step))
  {
    var t := Apply(s, step);
    if step.DecideFinish? {
      FinishStores(s, step.call, step.evidence);
    } else {
      OnlyFinishGrants(s, step);
      assert forall key {:trigger Granted(t, key)} :: Granted(t, key) <==> Granted(s, key);
    }
  }

  /** Only a finished decision grants or stores anything. */
  lemma OnlyFinishGrants(s: State, step: Step)
    requires Enabled(s, step) && !step.DecideFinish?
    ensures Apply(s, step).grants == s.grants && Apply(s, step).items == s.items
  {
    if !step.DecideStart? {
      WorkersLeaveGate(s, step);
    }
  }

  lemma FinishStores(s: State, call: nat, e: Evidence)
    requires StoredExactly(s) && call in s.deciding
    ensures StoredExactly(FinishDecision(s, call, e))
  {
    var t := FinishDecision(s, call, e);
    forall key {:trigger Granted(t, key)}
      ensures key in t.items <==> Granted(t, key)
    {
      assert key in s.items <==> Granted(s, key);
      if t.grants != s.grants {
        var n := |s.grants|;
        assert KeyOf(t.grants[n].request) == KeyOf(s.deciding[call].0);
        assert forall g :: 0 <= g < n ==> t.grants[g] == s.grants[g];
      }
    }
  }

  lemma {:induction false} RunStored(s: State, steps: seq<Step>)
    requires StoredExactly(s) && Legal(s, steps)
    ensures StoredExactly(After(s, steps))
    decreases |steps|
  {
    if steps != [] {
      StoredStep(s, steps[0]);
      RunStored(Apply(s, steps[0]), steps[1..]);
    }
  }

  /**
    In a reachable state with one grant per index, an authorized finish keeps it so exactly when no
    decision on its index was stored since it began.
   */
  lemma FinishKeepsOne(ttl: int, digester: Digester, store: UseStore, past: seq<Step>, call: nat, e: Evidence)
    requires Legal(Initial(ttl, digester, store), past)
    requires var s := After(Initial(ttl, digester, store), past);
             OneGrantEach(s) && call in s.deciding && Judge(s.deciding[call].0, e, s.deciding[call].1) == Authorized
    ensures var s := After(Initial(ttl, digester, store), past);
            OneGrantEach(FinishDecision(s, call, e)) <==> KeyOf(s.deciding[call].0) !in s.items
  {
    var s := After(Initial(ttl, digester, store), past);
    RunStored(Initial(ttl, digester, store), past);
    var t, n, key := FinishDecision(s, call, e), |s.grants|, KeyOf(s.deciding[call].0);
    assert key in s.items <==> Granted(s, key);
    assert KeyOf(t.grants[n].request) == key;
    if key in s.items {
      var g :| 0 <= g < n && KeyOf(s.grants[g].request) == key;
      assert !GrantPair(t, g, n);
    } else {
      forall i, j {:trigger GrantPair(t, i, j)} | 0 <= i < j < |t.grants|
        ensures GrantPair(t, i, j)
      {
        if j < n {
          assert GrantPair(s, i, j);
        }
      }
    }
  }

  /** At the i-th step a decision on the key begins in earnest. */
  ghost predicate OpensAt(b: seq<State>, steps: seq<Step>, i: nat, call: nat, key: Key)
    requires i < |steps| && |b| == |steps| + 1
  {
    steps[i].DecideStart? && steps[i].call == call && KeyOf(steps[i].request) == key && ScopeClear(steps[i].request)
      && key !in b[i].items
  }

  /** At the i-th step the call is authorized for the key. */
  ghost predicate GrantsAt(b: seq<State>, steps: seq<Step>, i: nat, call: nat, key: Key)
    requires i < |steps| && |b| == |steps| + 1
  {
    && steps[i].DecideFinish? && steps[i].call == call && call in b[i].deciding && KeyOf(b[i].deciding[call].0) == key
    && Judge(b[i].deciding[call].0, steps[i].evidence, b[i].deciding[call].1) == Authorized
  }

  /** The call is open, on the key, from after the p-th state to the r-th. */
  ghost predicate OpenThrough(b: seq<State>, p: nat, r: nat, call: nat, key: Key)
    requires r < |b|
  {
    forall j :: p < j <= r ==> call in b[j].deciding && KeyOf(b[j].deciding[call].0) == key
  }

  /** An authorized decision on the key finished between the start and the authorized finish of another. */
  ghost predicate OverlapAt(b: seq<State>, steps: seq<Step>, key: Key, p: nat, q: nat, r: nat, c: nat, d: nat)
    requires |b| == |steps| + 1
  {
    && p < q < r < |steps| && c != d
    && OpensAt(b, steps, p, c, key) && GrantsAt(b, steps, q, d, key) && GrantsAt(b, steps, r, c, key)
    && OpenThrough(b, p, r, c, key)
  }

  ghost predicate Overlapped(b: seq<State>, steps: seq<Step>, key: Key)
    requires |b| == |steps| + 1
  {
    exists p: nat, q: nat, r: nat, c: nat, d: nat :: OverlapAt(b, steps, key, p, q, r, c, d)
  }

  ghost predicate TwoGrants(s: State, key: Key) {
    exists i, j :: 0 <= i < j < |s.grants| && KeyOf(s.grants[i].request) == key && KeyOf(s.grants[j].request) == key
  }

  /** Grants and stored keys are never taken back. */
  lemma {:induction false} GrantsStay(b: seq<State>, steps: seq<Step>, i: nat, j: nat)
    requires Behaviour(b, steps) && i <= j < |b|
    ensures b[i].grants <= b[j].grants && b[i].items.Keys <= b[j].items.Keys
  {
    if i < j {
      GrantsStay(b, steps, i, j - 1);
      assert StepAt(b, steps, j - 1);
      if !steps[j - 1].DecideFinish? {
        OnlyFinishGrants(b[j - 1], steps[j - 1]);
      }
    }
  }

  /** An authorized finish appends its grant and stores its key. */
  lemma GrantAppends(b: seq<State>, steps: seq<Step>, q: nat, c: nat, key: Key)
    requires Behaviour(b, steps) && q < |steps| && GrantsAt(b, steps, q, c, key)
    ensures |b[q + 1].grants| == |b[q].grants| + 1 && KeyOf(b[q + 1].grants[|b[q].grants|].request) == key
    ensures key in b[q + 1].items
    ensures c !in b[q + 1].deciding
  {
    assert StepAt(b, steps, q);
  }

  /** Every grant was appended by some authorized finish. */
  lemma {:induction false} GrantOrigin(b: seq<State>, steps: seq<Step>, i: nat, g: nat) returns (q: nat, c: nat)
    requires Behaviour(b, steps) && i < |b| && g < |b[i].grants|
    ensures q < i && |b[q].grants| == g && GrantsAt(b, steps, q, c, KeyOf(b[i].grants[g].request))
  {
    assert i > 0;
    assert StepAt(b, steps, i - 1);
    GrantsStay(b, steps, i - 1, i);
    if g < |b[i - 1].grants| {
      q, c := GrantOrigin(b, steps, i - 1, g);
    } else {
      if !steps[i - 1].DecideFinish? { OnlyFinishGrants(b[i - 1], steps[i - 1]); }
      q, c := i - 1, steps[i - 1].call;
    }
  }

  /** Only its own finish ends a decision, and nothing changes it. */
  lemma DecidingKept(s: State, step: Step, call: nat)
    requires Enabled(s, step) && call in Apply(s, step).deciding && !(step.DecideStart? && step.call == call)
    ensures call in s.deciding && Apply(s, step).deciding[call] == s.deciding[call]
  {
    if !step.DecideStart? && !step.DecideFinish? {
      WorkersLeaveGate(s, step);
    }
  }

  /** An open decision began at some step and has been open since. */
  lemma {:induction false} OpenOrigin(b: seq<State>, steps: seq<Step>, r: nat, call: nat) returns (p: nat)
    requires Behaviour(b, steps) && r < |b| && call in b[r].deciding
    ensures p < r && OpensAt(b, steps, p, call, KeyOf(b[r].deciding[call].0))
    ensures OpenThrough(b, p, r, call, KeyOf(b[r].deciding[call].0))
  {
    assert r > 0;
    assert StepAt(b, steps, r - 1);
    var step := steps[r - 1];
    if step.DecideStart? && step.call == call {
      p := r - 1;
    } else {
      DecidingKept(b[r - 1], step, call);
      p := OpenOrigin(b, steps, r - 1, call);
    }
  }

  /**
    Over every run: two tokens are signed for an index exactly when an authorized decision on it
    finished between the start and the authorized finish of another.
   */
  lemma TwoTokensExactly(b: seq<State>, steps: seq<Step>, key: Key)
    requires Behaviour(b, steps)
    ensures TwoGrants(b[|steps|], key) <==> Overlapped(b, steps, key)
  {
    if TwoGrants(b[|steps|], key) {
      TwoTokensOverlap(b, steps, key);
    }
    if Overlapped(b, steps, key) {
      OverlapTwoTokens(b, steps, key);
    }
  }

  /** The grant of an authorized finish is there in every later state. */
  lemma GrantLasts(b: seq<State>, steps: seq<Step>, q: nat, c: nat, key: Key, r: nat)
    requires Behaviour(b, steps) && q < r < |b| && GrantsAt(b, steps, q, c, key)
    ensures |b[q].grants| < |b[r].grants| && KeyOf(b[r].grants[|b[q].grants|].request) == key
  {
    GrantAppends(b, steps, q, c, key);
    GrantsStay(b, steps, q + 1, r);
  }

  lemma OverlapTwoTokens(b: seq<State>, steps: seq<Step>, key: Key)
    requires Behaviour(b, steps) && Overlapped(b, steps, key)
    ensures TwoGrants(b[|steps|], key)
  {
    var p: nat, q: nat, r: nat, c: nat, d: nat :| OverlapAt(b, steps, key, p, q, r, c, d);
    TwoFinishes(b, steps, key, q, r, c, d);
  }

  lemma TwoFinishes(b: seq<State>, steps: seq<Step>, key: Key, q: nat, r: nat, c: nat, d: nat)
    requires Behaviour(b, steps) && q < r < |steps| && GrantsAt(b, steps, q, d, key) && GrantsAt(b, steps, r, c, key)
    ensures TwoGrants(b[|steps|], key)
  {
    GrantLasts(b, steps, q, d, key, r);
    GrantLasts(b, steps, q, d, key, |steps|);
    GrantLasts(b, steps, r, c, key, |steps|);
  }

  lemma TwoTokensOverlap(b: seq<State>, steps: seq<Step>, key: Key)
    requires Behaviour(b, steps) && TwoGrants(b[|steps|], key)
    ensures Overlapped(b, steps, key)
  {
    var s := b[|steps|];
    var i, j :| 0 <= i < j < |s.grants| && KeyOf(s.grants[i].request) == key && KeyOf(s.grants[j].request) == key;
    var q, d := GrantOrigin(b, steps, |steps|, i);
    var r, c := GrantOrigin(b, steps, |steps|, j);
    var p := OpenOrigin(b, steps, r, c);
    GrantAppends(b, steps, q, d, key);
    if r <= q { GrantsStay(b, steps, r, q); }
    if q + 1 <= p { GrantsStay(b, steps, q + 1, p); }
    assert p != q;
    assert OverlapAt(b, steps, key, p, q, r, c, d);
  }

  // ---------------------------------------------------------------- two delete calls on one index

  lemma {:induction false} StateSound(b: seq<State>, steps: seq<Step>, i: nat)
    requires Behaviour(b, steps) && i < |b|
    ensures Sound(b[i])
  {
    if i > 0 {
      StateSound(b, steps, i - 1);
      assert StepAt(b, steps, i - 1);
      StepSound(b[i - 1], steps[i - 1]);
    }
  }

  /** Two delete calls on one index need such an overlap too. */
  lemma TwoDeletesOverlap(b: seq<State>, steps: seq<Step>, i: nat, j: nat)
    requires Behaviour(b, steps) && i < j < |b[|steps|].deletes|
    requires KeyOf(b[|steps|].deletes[i].request) == KeyOf(b[|steps|].deletes[j].request)
    ensures Overlapped(b, steps, KeyOf(b[|steps|].deletes[i].request))
  {
    var s := b[|steps|];
    var d, e := s.deletes[i], s.deletes[j];
    StateSound(b, steps, |steps|);
    assert DeleteOk(s, i) && DeleteOk(s, j);
    DistinctDigests(s, i, j);
    var x :| 0 <= x < |s.grants| && s.grants[x].body == BodyFor(d.request, d.digest, d.expiresAt);
    var y :| 0 <= y < |s.grants| && s.grants[y].body == BodyFor(e.request, e.digest, e.expiresAt);
    assert GrantOk(s, x) && GrantOk(s, y) && x != y;
    assert KeyOf(s.grants[x].request) == KeyOf(d.request) && KeyOf(s.grants[y].request) == KeyOf(d.request);
    assert TwoGrants(s, KeyOf(d.request)) by {
      if x < y { assert 0 <= x < y < |s.grants|; } else { assert 0 <= y < x < |s.grants|; }
    }
    TwoTokensOverlap(b, steps, KeyOf(d.request));
  }

  /** Every legal run that ends in two delete calls on one index shows such an overlap. */
  lemma RunOverlaps(ttl: int, digester: Digester, store: UseStore, steps: seq<Step>, i: nat, j: nat)
    returns (b: seq<State>)
    requires Legal(Initial(ttl, digester, store), steps)
    requires var s := After(Initial(ttl, digester, store), steps);
             i < j < |s.deletes| && KeyOf(s.deletes[i].request) == KeyOf(s.deletes[j].request)
    ensures Behaviour(b, steps) && b[0] == Initial(ttl, digester, store) && b[|steps|] == After(b[0], steps)
    ensures Overlapped(b, steps, KeyOf(After(Initial(ttl, digester, store), steps).deletes[i].request))
  {
    b := Traced(Initial(ttl, digester, store), steps);
    TwoDeletesOverlap(b, steps, i, j);
  }

  lemma One(s: State, step: Step)
    requires Enabled(s, step)
    ensures Legal(s, [step]) && After(s, [step]) == Apply(s, step)
  {
    var t := Apply(s, step);
    assert [step][1..] == [] && Legal(t, []) && After(t, []) == t;
  }

  lemma {:induction false} Joined(s: State, a: seq<Step>, b: seq<Step>)
    requires Legal(s, a) && Legal(After(s, a), b)
    ensures Legal(s, a + b) && After(s, a + b) == After(After(s, a), b)
    decreases |a|
  {
    if a == [] {
      assert a + b == b;
    } else {
      assert (a + b)[0] == a[0] && (a + b)[1..] == a[1..] + b;
      Joined(Apply(s, a[0]), a[1..], b);
    }
  }

  /** One more step at the end of a run. */
  lemma Longer(s: State, a: seq<Step>, step: Step)
    requires Legal(s, a) && Enabled(After(s, a), step)
    ensures Legal(s, a + [step]) && After(s, a + [step]) == Apply(After(s, a), step)
  {
    One(After(s, a), step);
    Joined(s, a, [step]);
  }

  /** Two decisions on one index that overlap are both signed whenever the evidence is good for both. */
  lemma OverlapSignsTwice(ttl: int, digester: Digester, store: UseStore, a: Request, b: Request, e: Evidence,
                          f: Evidence, now: int)
    returns (steps: seq<Step>)
    requires ScopeClear(a) && ScopeClear(b) && KeyOf(a) == KeyOf(b)
    requires Judge(a, e, now) == Authorized && Judge(b, f, now) == Authorized
    ensures var s := Initial(ttl, digester, store);
            && Legal(s, steps)
            && After(s, steps) == s.(items := After(s, steps).items,
                                     grants := [GrantFor(digester, ttl, a, e, now), GrantFor(digester, ttl, b, f, now)])
  {
    var s := Initial(ttl, digester, store);
    steps := [DecideStart(0, a, now)];
    One(s, DecideStart(0, a, now));
    Longer(s, steps, DecideStart(1, b, now));
    steps := steps + [DecideStart(1, b, now)];
    Longer(s, steps, DecideFinish(0, e));
    steps := steps + [DecideFinish(0, e)];
    assert After(s, steps).grants == [GrantFor(digester, ttl, a, e, now)];
    Longer(s, steps, DecideFinish(1, f));
    steps := steps + [DecideFinish(1, f)];
    assert After(s, steps).deciding == map[];
  }

  /** The worker has claimed and is about to delete. */
  ghost function Readied(s: State, w: nat, r: Request, d: string, expiresAt: int, now: int, seen: Identity,
                         store: UseStore): State {
    s.(work := s.work[w := Work(r, d, expiresAt, now, Ready(seen))], store := store,
       wins := s.wins + [Win(w, d, expiresAt, now)])
  }

  /** A worker with a signed token and a free digest comes as far as the delete call. */
  lemma ReadyRun(s: State, w: nat, r: Request, d: string, expiresAt: int, now: int, seen: Identity, store: UseStore)
    returns (steps: seq<Step>)
    requires w !in s.work && Signed(s, BodyFor(r, d, expiresAt)) && now < expiresAt && SameIdentity(seen, r)
    requires Claim(s.store, d, expiresAt, now) == (store, true)
    ensures Legal(s, steps) && After(s, steps) == Readied(s, w, r, d, expiresAt, now, seen, store)
  {
    var token := Token(Mac(BodyFor(r, d, expiresAt)), expiresAt);
    steps := [WorkStart(w, token, r, d, now)];
    One(s, WorkStart(w, token, r, d, now));
    Longer(s, steps, TryClaim(w, Reached));
    steps := steps + [TryClaim(w, Reached)];
    Longer(s, steps, ReadIdentity(w, Found(seen)));
    steps := steps + [ReadIdentity(w, Found(seen))];
    assert After(s, steps).work == s.work[w := Work(r, d, expiresAt, now, Ready(seen))];
  }

  /** Two registered digests can both be claimed. */
  lemma BothClaimed(store: UseStore, c: string, d: string, expiresAt: int, now: int)
    requires store == Memory({}) || (store == Postgres(map[]) && |c| == 64 && |d| == 64)
    requires c != d && now < expiresAt
    ensures var s := Register(Register(store, c, expiresAt), d, expiresAt);
            Claim(s, c, expiresAt, now).1 && Claim(Claim(s, c, expiresAt, now).0, d, expiresAt, now).1
  {
  }

  /**
    The failure reaches the index: after two overlapping decisions with different digests, two workers
    that both read the identity before either deletes make two delete calls on one index.
   */
  lemma OverlapDeletesTwice(ttl: int, digester: Digester, store: UseStore, a: Request, b: Request, e: Evidence,
                            f: Evidence, now: int)
    returns (steps: seq<Step>)
    requires ttl > 0 && ScopeClear(a) && ScopeClear(b) && KeyOf(a) == KeyOf(b) && a.expectedDigest == b.expectedDigest
    requires Judge(a, e, now) == Authorized && Judge(b, f, now) == Authorized
    requires var c := GrantFor(digester, ttl, a, e, now).body.decisionDigest;
             var d := GrantFor(digester, ttl, b, f, now).body.decisionDigest;
             c != d && (store == Memory({}) || (store == Postgres(map[]) && |c| == 64 && |d| == 64))
    ensures var s := Initial(ttl, digester, store);
            && Legal(s, steps) && |After(s, steps).deletes| == 2
            && KeyOf(After(s, steps).deletes[0].request) == KeyOf(After(s, steps).deletes[1].request) == KeyOf(a)
  {
    var s := Initial(ttl, digester, store);
    var g, h := GrantFor(digester, ttl, a, e, now), GrantFor(digester, ttl, b, f, now);
    var c, d, expiresAt := g.body.decisionDigest, h.body.decisionDigest, now + ttl;
    steps := OverlapSignsTwice(ttl, digester, store, a, b, e, f, now);
    Longer(s, steps, RegisterToken(c, expiresAt));
    steps := steps + [RegisterToken(c, expiresAt)];
    Longer(s, steps, RegisterToken(d, expiresAt));
    steps := steps + [RegisterToken(d, expiresAt)];
    BothClaimed(store, c, d, expiresAt, now);
    var t := After(s, steps);
    assert t.grants[0].body == BodyFor(a, c, expiresAt) && t.grants[1].body == BodyFor(b, d, expiresAt);
    var more := TwoDeletes(t, a, b, c, d, expiresAt, now);
    Joined(s, steps, more);
    steps := steps + more;
  }

  lemma TwoDeletes(s: State, a: Request, b: Request, c: string, d: string, expiresAt: int, now: int)
    returns (steps: seq<Step>)
    requires s.work == map[] && s.deletes == [] && KeyOf(a) == KeyOf(b) && a.expectedDigest == b.expectedDigest
    requires now < expiresAt
    requires Signed(s, BodyFor(a, c, expiresAt)) && Signed(s, BodyFor(b, d, expiresAt))
    requires Claim(s.store, c, expiresAt, now).1 && Claim(Claim(s.store, c, expiresAt, now).0, d, expiresAt, now).1
    ensures Legal(s, steps) && |After(s, steps).deletes| == 2
    ensures After(s, steps).deletes[0].request == a && After(s, steps).deletes[1].request == b
  {
    var seen := Identity(a.index, a.uuid, a.version, a.expectedDigest);
    var store := Claim(s.store, c, expiresAt, now).0;
    steps := ReadyRun(s, 0, a, c, expiresAt, now, seen, store);
    var s1 := After(s, steps);
    assert Signed(s1, BodyFor(b, d, expiresAt));
    var more := ReadyRun(s1, 1, b, d, expiresAt, now, seen, Claim(store, d, expiresAt, now).0);
    Joined(s, steps, more);
    steps := steps + more;
    Longer(s, steps, Delete(0, DeletedNow));
    steps := steps + [Delete(0, DeletedNow)];
    Longer(s, steps, Delete(1, NotThere));
    steps := steps + [Delete(1, NotThere)];
  }
}

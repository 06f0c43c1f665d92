/** The idempotent spin endpoint (internal/api/game.go, internal/rds/rds.go) over the money engine: a claim in a
    key-value store with expiry, a transaction, a stored response. Any number of requests interleave, any of
    them can crash anywhere, every command of the store can fail with or without taking effect, keys can
    expire at any moment, and a commit can take effect while its acknowledgement is lost. */
module Idempotency {
  import opened Basics
  import opened Decimal
  import opened Schema
  import opened Spin
  import opened Transactions
  import opened Integrity
  import opened Machine
  import opened SpinRuns
  import opened Engine
  import opened Feeds
  import opened SpinService

  datatype Key = Key(user: nat, clientRef: string)

  /** fmt.Sprintf("idem:%d:%s", userID, clientRef) */
  function IdemKey(k: Key): string {
    "idem:" + ToString(k.user) + ":" + k.clientRef
  }

  datatype Stage =
    | Claiming | Reading | Starting | Playing
    | Storing(body: SpinResult) | Responding(body: SpinResult) | Releasing

  datatype Handler = Handler(req: Request, stage: Stage)

  /** A response with status 200. */
  datatype Reply = Reply(key: Key, body: SpinResult)

  /** What becomes of a command: done; done but reported as failed; not done. */
  datatype How = Works | Lost | Fails

  datatype Api = Api(
    money: State,
    kv: map<string, Option<SpinResult>>,     // None is the empty value of a claim
    handlers: map<nat, Handler>,             // a request's transaction carries the request's number
    outcomes: map<Key, SpinResult>,          // what each committed spin answered
    replies: seq<Reply>)

  datatype Event =
    | Arrive(h: nat, req: Request)
    | Claim(h: nat, how: How)
    | Read(h: nat, ok: bool)
    | Play(h: nat)
    | Money(step: Label, acknowledged: bool)
    | Store(h: nat, how: How)
    | Respond(h: nat)
    | Release(h: nat, how: How)
    | Crash(h: nat)
    | Expire(key: string)

  function KeyOf(req: Request): Key {
    Key(req.user, req.clientRef)
  }

  /** The result Spin returns when its commit succeeds. */
  function AnswerOf(c: Config, tx: Tx): SpinResult
    requires tx.op.SpinOp?
  {
    var req, p := tx.op.req, PlanOf(c, tx);
    SpinResult(tx.ch.spinId, p.segment, p.mult, req.stake, p.payout, p.payout - req.stake,
               if req.user in tx.frag.wallets then tx.frag.wallets[req.user].Spendable(req.isReal) else 0, req.isReal)
  }

  function At(a: Api, h: nat, stage: Stage): Api
    requires h in a.handlers
  {
    a.(handlers := a.handlers[h := a.handlers[h].(stage := stage)])
  }

  function Gone(a: Api, h: nat): Api {
    a.(handlers := a.handlers - {h})
  }

  predicate IsAt(a: Api, h: nat, stage: Stage) {
    h in a.handlers && a.handlers[h].stage == stage
  }

  /** SETNX, then on a loss a separate GET. */
  function ClaimStep(a: Api, h: nat, how: How): Api
    requires h in a.handlers
  {
    var key := IdemKey(KeyOf(a.handlers[h].req));
    var claimed := if how.Fails? || key in a.kv then a else a.(kv := a.kv[key := None]);
    if !how.Works? then Gone(claimed, h)
    else At(claimed, h, if key in a.kv then Reading else Starting)
  }

  function ReadStep(a: Api, h: nat, ok: bool): Api
    requires h in a.handlers
  {
    var k := KeyOf(a.handlers[h].req);
    if ok && IdemKey(k) in a.kv && a.kv[IdemKey(k)].Some? then
      Gone(a.(replies := a.replies + [Reply(k, a.kv[IdemKey(k)].value)]), h)
    else Gone(a, h)   // spin_in_flight, or an error
  }

  function StoreStep(a: Api, h: nat, how: How): Api
    requires h in a.handlers && a.handlers[h].stage.Storing?
  {
    var body, key := a.handlers[h].stage.body, IdemKey(KeyOf(a.handlers[h].req));
    At(if how.Fails? then a else a.(kv := a.kv[key := Some(body)]), h, Responding(body))   // a failure is only logged
  }

  function RespondStep(a: Api, h: nat): Api
    requires h in a.handlers && a.handlers[h].stage.Responding?
  {
    Gone(a.(replies := a.replies + [Reply(KeyOf(a.handlers[h].req), a.handlers[h].stage.body)]), h)
  }

  function ReleaseStep(a: Api, h: nat, how: How): Api
    requires h in a.handlers
  {
    Gone(if how.Fails? then a else a.(kv := a.kv - {IdemKey(KeyOf(a.handlers[h].req))}), h)
  }

  function TidOf(l: Label): nat {
    match l case Begin(tid, _) => tid case Forward(tid, _, _) => tid case Rollback(tid) => tid
  }

  /** A statement of some transaction, and what the request that runs it learns. */
  ghost function MoneyStep(c: Config, a: Api, l: Label, acknowledged: bool): Option<Api> {
    match Next(c, a.money, l)
    case None => None
    case Some(money) =>
      var tid, b := TidOf(l), a.(money := money);
      if l.Begin? then (if tid in a.handlers then None else Some(b))
      else if money.log != a.money.log && a.money.txs[tid].op.SpinOp? then
        var tx := a.money.txs[tid];
        var body := AnswerOf(c, tx);
        var committed := b.(outcomes := b.outcomes[KeyOf(tx.op.req) := body]);
        Some(if !IsAt(a, tid, Playing) then committed
             else At(committed, tid, if acknowledged then Storing(body) else Releasing))
      else Some(if tid !in money.txs && IsAt(a, tid, Playing) then At(b, tid, Releasing) else b)
  }

  ghost function Occurs(c: Config, a: Api, e: Event): Option<Api> {
    match e
    case Arrive(h, req) =>
      if h in a.handlers || h in a.money.txs || req.clientRef == "" || |req.clientRef| > 64 then None
      else Some(a.(handlers := a.handlers[h := Handler(req, Claiming)]))
    case Claim(h, how) => if IsAt(a, h, Claiming) then Some(ClaimStep(a, h, how)) else None
    case Read(h, ok) => if IsAt(a, h, Reading) then Some(ReadStep(a, h, ok)) else None
    case Play(h) =>
      if !IsAt(a, h, Starting) then None else (
        match Next(c, a.money, Begin(h, SpinOp(a.handlers[h].req)))
        case None => None
        case Some(money) => Some(At(a.(money := money), h, Playing)))
    case Money(l, acknowledged) => MoneyStep(c, a, l, acknowledged)
    case Store(h, how) =>
      if h in a.handlers && a.handlers[h].stage.Storing? then Some(StoreStep(a, h, how)) else None
    case Respond(h) =>
      if h in a.handlers && a.handlers[h].stage.Responding? then Some(RespondStep(a, h)) else None
    case Release(h, how) => if IsAt(a, h, Releasing) then Some(ReleaseStep(a, h, how)) else None
    case Crash(h) => Some(Gone(a, h))   // the open transaction lives on until it commits or rolls back
    case Expire(key) => Some(a.(kv := a.kv - {key}))
  }

  ghost function Schedule(c: Config, a: Api, es: seq<Event>): Option<Api> {
    if es == [] then Some(a) else
    match Schedule(c, a, es[..|es| - 1])
    case None => None
    case Some(b) => Occurs(c, b, es[|es| - 1])
  }

  ghost predicate ApiInitial(a: Api) {
    Initial(a.money) && a.kv == map[] && a.handlers == map[] && a.outcomes == map[] && a.replies == []
  }

  /******* Keys *******/

  lemma UserPart(a: string, b: string, x: string, y: string)
    requires AllDigits(a) && AllDigits(b) && a + ":" + x == b + ":" + y
    ensures a == b && x == y
  {
    var s, t := a + ":" + x, b + ":" + y;
    assert s[|a|] == ':' && t[|b|] == ':';
    assert forall i | 0 <= i < |a| :: s[i] in a;
    assert forall i | 0 <= i < |b| :: t[i] in b;
    assert s[..|a|] == a && t[..|b|] == b;
    assert s[|a| + 1..] == x && t[|b| + 1..] == y;
  }

  /** Different requests never share a key, whatever the client puts in its reference. */
  lemma KeysDiffer(k: Key, m: Key)
    requires IdemKey(k) == IdemKey(m)
    ensures k == m
  {
    var a, b := ToString(k.user), ToString(m.user);
    assert IdemKey(k)[5..] == a + ":" + k.clientRef;
    assert IdemKey(m)[5..] == b + ":" + m.clientRef;
    UserPart(a, b, k.clientRef, m.clientRef);
    ValueOfText(k.user);
    ValueOfText(m.user);
  }

  /******* The invariant *******/

  /** The body tells the spin recorded under the key. */
  predicate Tells(db: DB, k: Key, b: SpinResult) {
    && b.spinId in db.spins
    && var s := db.spins[b.spinId];
       && s.user == k.user && s.clientRef == k.clientRef && s.isReal == b.isReal && s.stake == b.stake
       && s.segment == b.segment && s.mult == b.mult && s.payout == b.payout && b.net == s.payout - s.stake
  }

  predicate IsOutcome(a: Api, k: Key, b: SpinResult) {
    k in a.outcomes && a.outcomes[k] == b
  }

  ghost predicate OutcomesTold(a: Api) {
    forall k | k in a.outcomes :: Tells(a.money.db, k, a.outcomes[k])
  }

  ghost predicate StoredAreOutcomes(a: Api) {
    forall k: Key | IdemKey(k) in a.kv && a.kv[IdemKey(k)].Some? :: IsOutcome(a, k, a.kv[IdemKey(k)].value)
  }

  predicate HandlerKnows(a: Api, h: nat)
    requires h in a.handlers
  {
    var x := a.handlers[h];
    && (x.stage.Storing? || x.stage.Responding? ==> IsOutcome(a, KeyOf(x.req), x.stage.body))
    && (h in a.money.txs ==> x.stage == Playing && a.money.txs[h].op == SpinOp(x.req))
  }

  ghost predicate HandlersKnow(a: Api) {
    forall h | h in a.handlers :: HandlerKnows(a, h)
  }

  ghost predicate RepliesAreOutcomes(a: Api) {
    forall r | r in a.replies :: IsOutcome(a, r.key, r.body)
  }

  ghost predicate ApiInv(c: Config, a: Api) {
    Inv(c, a.money) && OutcomesTold(a) && StoredAreOutcomes(a) && HandlersKnow(a) && RepliesAreOutcomes(a)
  }

  /******* Commits *******/

  /** What a committing spin answers is what the atomic spin answers, and its reference was free until then. */
  lemma AnswerIsAtomic(c: Config, tx: Tx, db: DB)
    requires ValidConfig(c) && tx.op.SpinOp? && TxInv(c, tx, db) && tx.pc == Commit && GoodDB(db)
    ensures AtomicSpin(c, db, tx.op.req, true, tx.ch) == Ok((Merge(db, tx.frag, tx.locks), AnswerOf(c, tx)))
    ensures !Taken(db.spins, tx.op.req.user, tx.op.req.clientRef)
    ensures Tells(Merge(db, tx.frag, tx.locks), KeyOf(tx.op.req), AnswerOf(c, tx))
    ensures tx.ch.spinId !in db.spins
  {
    SpinKnows(c, tx, db);
    assert Solvent(db);
    hide *;
    SpinCommit(c, tx, db);
    var (after, r) := AtomicSpin(c, db, tx.op.req, true, tx.ch).value;
    AnswerFields(c, tx, db, after, r);
  }

  lemma SpinKnows(c: Config, tx: Tx, db: DB)
    requires tx.op.SpinOp? && TxInv(c, tx, db) && tx.pc == Commit
    ensures SpinInv(c, tx, db)
    ensures tx.payee == Payee(c, db.users, tx.op.req) && tx.op.req.user in db.users && tx.op.req.user in tx.frag.wallets
    ensures !Taken(db.spins, tx.op.req.user, tx.op.req.clientRef) && tx.ch.spinId !in db.spins
  {
  }

  lemma AnswerFields(c: Config, tx: Tx, db: DB, after: DB, r: SpinResult)
    requires ValidConfig(c) && Solvent(db) && tx.op.SpinOp? && tx.op.req.user in db.users
    requires tx.payee == Payee(c, db.users, tx.op.req) && tx.op.req.user in tx.frag.wallets
    requires AtomicSpin(c, db, tx.op.req, true, tx.ch) == Ok((after, r)) && after == Merge(db, tx.frag, tx.locks)
    ensures r == AnswerOf(c, tx) && Tells(after, KeyOf(tx.op.req), r)
  {
    var req, p := tx.op.req, PlanOf(c, tx);
    SpinEffect(c, db, req, tx.ch);
    assert after.spins == db.spins[tx.ch.spinId := RecordOf(req, p)];
    assert after.wallets[req.user] == tx.frag.wallets[req.user];
  }

  lemma TellsStill(db: DB, db': DB, k: Key, b: SpinResult)
    requires Tells(db, k, b) && SpinsGrow(db, db')
    ensures Tells(db', k, b)
  {
  }

  /** A key that has an outcome is taken, so it never gets another. */
  lemma OutcomeTaken(a: Api, k: Key)
    requires OutcomesTold(a) && k in a.outcomes
    ensures Taken(a.money.db.spins, k.user, k.clientRef)
  {
    assert Tells(a.money.db, k, a.outcomes[k]);
  }

  /******* Each event *******/

  /** Nothing known is lost when outcomes are only added. */
  ghost predicate Adds(a: Api, b: Api) {
    b.kv == a.kv && b.replies == a.replies && forall k | k in a.outcomes :: k in b.outcomes && b.outcomes[k] == a.outcomes[k]
  }

  lemma KnownStill(a: Api, b: Api)
    requires Adds(a, b) && StoredAreOutcomes(a) && RepliesAreOutcomes(a)
    ensures StoredAreOutcomes(b) && RepliesAreOutcomes(b)
  {
    forall k: Key | IdemKey(k) in b.kv && b.kv[IdemKey(k)].Some? ensures IsOutcome(b, k, b.kv[IdemKey(k)].value) {
      assert IsOutcome(a, k, a.kv[IdemKey(k)].value);
    }
    forall r | r in b.replies ensures IsOutcome(b, r.key, r.body) {
      assert IsOutcome(a, r.key, r.body);
    }
  }

  /** Other requests know what they knew: their transactions are untouched. */
  lemma HandlersStill(a: Api, b: Api, h: nat)
    requires HandlersKnow(a) && Adds(a, b)
    requires forall t | t in b.handlers && t != h ::
               t in a.handlers && b.handlers[t] == a.handlers[t]
               && (t in b.money.txs ==> t in a.money.txs && b.money.txs[t].op == a.money.txs[t].op)
    requires h in b.handlers ==> HandlerKnows(b, h)
    ensures HandlersKnow(b)
  {
    forall t | t in b.handlers ensures HandlerKnows(b, t) {
      if t != h {
        assert HandlerKnows(a, t);
      }
    }
  }

  lemma CommitLabel(c: Config, s: State, l: Label)
    requires Inv(c, s) && Next(c, s, l).Some? && Next(c, s, l).value.log != s.log
    ensures l.Forward? && l.tid in s.txs && s.txs[l.tid].pc == Commit
    ensures var s', tx := Next(c, s, l).value, s.txs[l.tid];
            s'.txs == s.txs - {l.tid} && s'.db == Merge(s.db, tx.frag, tx.locks)
  {
    if !Committing(s, l) {
      OtherStep(c, s, l);
      assert false;
    }
    hide Inv, Next, Merge;
    CommitStep(c, s, l);
  }

  lemma CommitMoney(c: Config, s: State, l: Label)
    requires ValidConfig(c) && Inv(c, s) && Next(c, s, l).Some? && Next(c, s, l).value.log != s.log
    requires l.Forward? && l.tid in s.txs && s.txs[l.tid].op.SpinOp?
    ensures var s', tx := Next(c, s, l).value, s.txs[l.tid];
            && s'.txs == s.txs - {l.tid} && !Taken(s.db.spins, tx.op.req.user, tx.op.req.clientRef)
            && Tells(s'.db, KeyOf(tx.op.req), AnswerOf(c, tx))
  {
    var tx := s.txs[l.tid];
    assert TxInv(c, tx, s.db) && GoodDB(s.db);
    hide Taken, Tells, AnswerOf, GoodDB, TxInv, Next, Inv;
    CommitLabel(c, s, l);
    AnswerIsAtomic(c, tx, s.db);
  }

  lemma CommitKeeps(c: Config, a: Api, l: Label, acknowledged: bool)
    requires ValidConfig(c) && ApiInv(c, a) && l.Forward? && l.tid in a.money.txs && Next(c, a.money, l).Some?
    requires Next(c, a.money, l).value.log != a.money.log && a.money.txs[l.tid].op.SpinOp?
    requires MoneyStep(c, a, l, acknowledged).Some?
    ensures ApiInv(c, MoneyStep(c, a, l, acknowledged).value)
  {
    hide Inv, Next, Tells, AnswerOf, ValidConfig, SpinsGrow, OutcomesTold, StoredAreOutcomes, RepliesAreOutcomes, Taken;
    var b := MoneyStep(c, a, l, acknowledged).value;
    var tid, tx := l.tid, a.money.txs[l.tid];
    NextKeepsInv(c, a.money, l);
    NextGrows(c, a.money, l);
    CommitMoney(c, a.money, l);
    assert tid in a.handlers ==> HandlerKnows(a, tid);
    assert tid in b.handlers ==> HandlerKnows(b, tid);
    CommitParts(a, b, tid, KeyOf(tx.op.req), AnswerOf(c, tx));
  }

  lemma CommitParts(a: Api, b: Api, tid: nat, k: Key, body: SpinResult)
    requires OutcomesTold(a) && StoredAreOutcomes(a) && HandlersKnow(a) && RepliesAreOutcomes(a)
    requires SpinsGrow(a.money.db, b.money.db) && !Taken(a.money.db.spins, k.user, k.clientRef) && Tells(b.money.db, k, body)
    requires b.outcomes == a.outcomes[k := body] && b.kv == a.kv && b.replies == a.replies
    requires b.handlers.Keys == a.handlers.Keys && b.money.txs == a.money.txs - {tid}
    requires forall t | t in b.handlers && t != tid :: b.handlers[t] == a.handlers[t]
    requires tid in b.handlers ==> HandlerKnows(b, tid)
    ensures OutcomesTold(b) && StoredAreOutcomes(b) && HandlersKnow(b) && RepliesAreOutcomes(b)
  {
    if k in a.outcomes {
      OutcomeTaken(a, k);
      assert false;
    }
    forall m | m in b.outcomes ensures Tells(b.money.db, m, b.outcomes[m]) {
      if m != k {
        TellsStill(a.money.db, b.money.db, m, a.outcomes[m]);
      }
    }
    assert Adds(a, b);
    hide *;
    KnownStill(a, b);
    HandlersStill(a, b, tid);
  }

  lemma MoneyKeeps(c: Config, a: Api, l: Label, acknowledged: bool)
    requires ValidConfig(c) && ApiInv(c, a) && MoneyStep(c, a, l, acknowledged).Some?
    requires Next(c, a.money, l).value.log != a.money.log ==> TidOf(l) in a.money.txs && !a.money.txs[TidOf(l)].op.SpinOp?
    ensures ApiInv(c, MoneyStep(c, a, l, acknowledged).value)
  {
    hide Inv, Next, ValidConfig, SpinsGrow, OutcomesTold, StoredAreOutcomes, RepliesAreOutcomes;
    var b := MoneyStep(c, a, l, acknowledged).value;
    var tid := TidOf(l);
    NextKeepsInv(c, a.money, l);
    NextGrows(c, a.money, l);
    OnlyItself(c, a.money, l);
    assert b.money == Next(c, a.money, l).value && b.outcomes == a.outcomes;
    assert tid in a.handlers ==> HandlerKnows(a, tid);
    assert tid in b.handlers ==> HandlerKnows(b, tid);
    OthersParts(a, b, tid);
  }

  /** A label touches one transaction, and never changes what it is doing. */
  lemma OnlyItself(c: Config, s: State, l: Label)
    requires Inv(c, s) && Next(c, s, l).Some?
    ensures var s', tid := Next(c, s, l).value, TidOf(l);
            && s'.txs - {tid} == s.txs - {tid}
            && (tid in s'.txs && !l.Begin? ==> tid in s.txs && s'.txs[tid].op == s.txs[tid].op)
  {
    if !l.Begin? {
      assert l.tid in s.txs ==> TxInv(c, s.txs[l.tid], s.db);
      hide *;
      StepsOpenTxs(c, s, l);
      Without(s.txs, Next(c, s, l).value.txs, l.tid);
      if l.Forward? && Exec(c, s.txs[l.tid], s.db, s.seqs, l.word, l.entropy).Goes? {
        SameOp(c, s.txs[l.tid], s.db, s.seqs, l.word, l.entropy);
      }
    }
  }

  lemma Without(txs: map<nat, Tx>, txs': map<nat, Tx>, tid: nat)
    requires txs' == txs - {tid} || (tid in txs' && txs' == txs[tid := txs'[tid]])
    ensures txs' - {tid} == txs - {tid}
  {
  }

  lemma SameOp(c: Config, tx: Tx, db: DB, seqs: Seqs, word: nat, entropy: bool)
    requires TxInv(c, tx, db) && Exec(c, tx, db, seqs, word, entropy).Goes?
    ensures Exec(c, tx, db, seqs, word, entropy).tx.op == tx.op
  {
    StatementGrows(c, tx, db, seqs, word, entropy);
  }

  lemma OthersParts(a: Api, b: Api, tid: nat)
    requires OutcomesTold(a) && StoredAreOutcomes(a) && HandlersKnow(a) && RepliesAreOutcomes(a)
    requires SpinsGrow(a.money.db, b.money.db) && b.outcomes == a.outcomes && b.kv == a.kv && b.replies == a.replies
    requires b.handlers.Keys == a.handlers.Keys && b.money.txs - {tid} == a.money.txs - {tid}
    requires forall t | t in b.handlers && t != tid :: b.handlers[t] == a.handlers[t]
    requires tid in b.handlers ==> HandlerKnows(b, tid)
    ensures OutcomesTold(b) && StoredAreOutcomes(b) && HandlersKnow(b) && RepliesAreOutcomes(b)
  {
    forall m | m in b.outcomes ensures Tells(b.money.db, m, b.outcomes[m]) {
      TellsStill(a.money.db, b.money.db, m, a.outcomes[m]);
    }
    forall t | t in b.handlers && t != tid && t in b.money.txs
      ensures t in a.money.txs && b.money.txs[t].op == a.money.txs[t].op
    {
      assert t in b.money.txs - {tid} && (b.money.txs - {tid})[t] == b.money.txs[t];
      assert (a.money.txs - {tid})[t] == a.money.txs[t];
    }
    assert Adds(a, b);
    KnownStill(a, b);
    HandlersStill(a, b, tid);
  }

  lemma StoreKeeps(c: Config, a: Api, h: nat, how: How)
    requires ApiInv(c, a) && h in a.handlers && a.handlers[h].stage.Storing?
    ensures ApiInv(c, StoreStep(a, h, how))
  {
    var b := StoreStep(a, h, how);
    var k0 := KeyOf(a.handlers[h].req);
    assert HandlerKnows(a, h);
    forall k: Key | IdemKey(k) in b.kv && b.kv[IdemKey(k)].Some? ensures IsOutcome(b, k, b.kv[IdemKey(k)].value) {
      if IdemKey(k) == IdemKey(k0) && !how.Fails? {
        KeysDiffer(k, k0);
      } else {
        assert IsOutcome(a, k, a.kv[IdemKey(k)].value);
      }
    }
    RequestsStill(a, b, h);
  }

  lemma RequestsStill(a: Api, b: Api, h: nat)
    requires HandlersKnow(a) && b.money == a.money && b.outcomes == a.outcomes
    requires b.handlers.Keys - {h} <= a.handlers.Keys && forall t | t in b.handlers && t != h :: b.handlers[t] == a.handlers[t]
    requires h in b.handlers ==> HandlerKnows(b, h)
    ensures HandlersKnow(b)
  {
    forall t | t in b.handlers ensures HandlerKnows(b, t) {
      if t != h {
        assert t in b.handlers.Keys - {h};
        assert HandlerKnows(a, t);
      }
    }
  }

  lemma ClaimKeeps(c: Config, a: Api, h: nat, how: How)
    requires ApiInv(c, a) && IsAt(a, h, Claiming)
    ensures ApiInv(c, ClaimStep(a, h, how))
  {
    hide Inv, IdemKey, OutcomesTold, HandlersKnow, RepliesAreOutcomes, StoredAreOutcomes;
    var b := ClaimStep(a, h, how);
    assert HandlerKnows(a, h) by { HandlerAt(a, h); }
    ClaimsOnly(a, b, IdemKey(KeyOf(a.handlers[h].req)));
    RequestsStill(a, b, h);
    RepliesStill(a, b);
  }

  lemma HandlerAt(a: Api, h: nat)
    requires HandlersKnow(a) && h in a.handlers
    ensures HandlerKnows(a, h)
  {
  }

  lemma RepliesStill(a: Api, b: Api)
    requires RepliesAreOutcomes(a) && OutcomesTold(a)
    requires b.replies == a.replies && b.outcomes == a.outcomes && b.money == a.money
    ensures RepliesAreOutcomes(b) && OutcomesTold(b)
  {
    forall r | r in b.replies ensures IsOutcome(b, r.key, r.body) {
      assert IsOutcome(a, r.key, r.body);
    }
  }

  /** A new claim stores no response. */
  lemma ClaimsOnly(a: Api, b: Api, key: string)
    requires StoredAreOutcomes(a) && b.outcomes == a.outcomes
    requires b.kv == a.kv || b.kv == a.kv[key := None]
    ensures StoredAreOutcomes(b)
  {
    hide IdemKey;
    forall k: Key | IdemKey(k) in b.kv && b.kv[IdemKey(k)].Some? ensures IsOutcome(b, k, b.kv[IdemKey(k)].value) {
      assert IsOutcome(a, k, a.kv[IdemKey(k)].value);
    }
  }

  lemma ReplyKeeps(c: Config, a: Api, h: nat, b: Api, body: SpinResult)
    requires ApiInv(c, a) && h in a.handlers && IsOutcome(a, KeyOf(a.handlers[h].req), body)
    requires b == Gone(a.(replies := a.replies + [Reply(KeyOf(a.handlers[h].req), body)]), h)
    ensures ApiInv(c, b)
  {
    hide Inv, IdemKey, OutcomesTold, HandlersKnow, StoredAreOutcomes;
    forall r | r in b.replies ensures IsOutcome(b, r.key, r.body) {
      assert r in a.replies ==> IsOutcome(a, r.key, r.body);
    }
    KeysOnly(a, b);
    RequestsStill(a, b, h);
    OutcomesStand(a, b);
  }

  lemma OutcomesStand(a: Api, b: Api)
    requires OutcomesTold(a) && b.outcomes == a.outcomes && b.money == a.money
    ensures OutcomesTold(b)
  {
  }

  /** Removing keys leaves nothing wrong behind. */
  lemma KeysOnly(a: Api, b: Api)
    requires StoredAreOutcomes(a) && b.outcomes == a.outcomes
    requires forall key | key in b.kv :: key in a.kv && b.kv[key] == a.kv[key]
    ensures StoredAreOutcomes(b)
  {
    forall k: Key | IdemKey(k) in b.kv && b.kv[IdemKey(k)].Some? ensures IsOutcome(b, k, b.kv[IdemKey(k)].value) {
      assert IsOutcome(a, k, a.kv[IdemKey(k)].value);
    }
  }

  lemma DropKeeps(c: Config, a: Api, b: Api, h: nat)
    requires ApiInv(c, a) && b.money == a.money && b.outcomes == a.outcomes && b.replies == a.replies
    requires forall key | key in b.kv :: key in a.kv && b.kv[key] == a.kv[key]
    requires b.handlers.Keys - {h} <= a.handlers.Keys && forall t | t in b.handlers && t != h :: b.handlers[t] == a.handlers[t]
    requires h in b.handlers ==> HandlerKnows(b, h)
    ensures ApiInv(c, b)
  {
    KeysOnly(a, b);
    RequestsStill(a, b, h);
  }

  lemma ReadKeeps(c: Config, a: Api, h: nat, ok: bool)
    requires ApiInv(c, a) && IsAt(a, h, Reading)
    ensures ApiInv(c, ReadStep(a, h, ok))
  {
    hide Inv;
    var b := ReadStep(a, h, ok);
    var k := KeyOf(a.handlers[h].req);
    if ok && IdemKey(k) in a.kv && a.kv[IdemKey(k)].Some? {
      assert IsOutcome(a, k, a.kv[IdemKey(k)].value);
      ReplyKeeps(c, a, h, b, a.kv[IdemKey(k)].value);
    } else {
      DropKeeps(c, a, b, h);
    }
  }

  lemma RespondKeeps(c: Config, a: Api, h: nat)
    requires ApiInv(c, a) && h in a.handlers && a.handlers[h].stage.Responding?
    ensures ApiInv(c, RespondStep(a, h))
  {
    assert HandlerKnows(a, h);
    ReplyKeeps(c, a, h, RespondStep(a, h), a.handlers[h].stage.body);
  }

  lemma ExpireKeeps(c: Config, a: Api, b: Api)
    requires ApiInv(c, a) && b.money == a.money && b.outcomes == a.outcomes && b.replies == a.replies
    requires forall key | key in b.kv :: key in a.kv && b.kv[key] == a.kv[key]
    requires b.handlers == a.handlers
    ensures ApiInv(c, b)
  {
    KeysOnly(a, b);
    assert 0 in a.handlers ==> HandlerKnows(a, 0);
    RequestsStill(a, b, 0);
  }

  lemma AnyMoneyKeeps(c: Config, a: Api, l: Label, acknowledged: bool)
    requires ValidConfig(c) && ApiInv(c, a) && Next(c, a.money, l).Some? && MoneyStep(c, a, l, acknowledged).Some?
    ensures ApiInv(c, MoneyStep(c, a, l, acknowledged).value)
  {
    hide Inv, Next, ValidConfig, OutcomesTold, StoredAreOutcomes, HandlersKnow, RepliesAreOutcomes, MoneyStep;
    if Next(c, a.money, l).value.log != a.money.log {
      CommitLabel(c, a.money, l);
      if a.money.txs[l.tid].op.SpinOp? {
        CommitKeeps(c, a, l, acknowledged);
      } else {
        MoneyKeeps(c, a, l, acknowledged);
      }
    } else {
      MoneyKeeps(c, a, l, acknowledged);
    }
  }

  lemma Played(c: Config, a: Api, h: nat)
    requires IsAt(a, h, Starting) && Occurs(c, a, Play(h)).Some?
    ensures var b, op := Occurs(c, a, Play(h)).value, SpinOp(a.handlers[h].req);
            && Next(c, a.money, Begin(h, op)) == Some(b.money)
            && b.money.txs == a.money.txs[h := Start(op)] && b.money.txs - {h} == a.money.txs - {h}
            && b.handlers == a.handlers[h := a.handlers[h].(stage := Playing)]
            && b.outcomes == a.outcomes && b.kv == a.kv && b.replies == a.replies
  {
  }

  lemma PlayKeeps(c: Config, a: Api, h: nat)
    requires ValidConfig(c) && ApiInv(c, a) && IsAt(a, h, Starting) && Occurs(c, a, Play(h)).Some?
    ensures ApiInv(c, Occurs(c, a, Play(h)).value)
  {
    var l := Begin(h, SpinOp(a.handlers[h].req));
    var b := Occurs(c, a, Play(h)).value;
    Played(c, a, h);
    hide Occurs, Inv, Next, ValidConfig, SpinsGrow, OutcomesTold, StoredAreOutcomes, RepliesAreOutcomes;
    NextKeepsInv(c, a.money, l);
    NextGrows(c, a.money, l);
    OthersParts(a, b, h);
  }

  lemma EventKeepsInv(c: Config, a: Api, e: Event)
    requires ValidConfig(c) && ApiInv(c, a) && Occurs(c, a, e).Some?
    ensures ApiInv(c, Occurs(c, a, e).value)
  {
    hide Inv, Next, ValidConfig, OutcomesTold, StoredAreOutcomes, HandlersKnow, RepliesAreOutcomes, IdemKey;
    var b := Occurs(c, a, e).value;
    match e
    case Arrive(h, _) => DropKeeps(c, a, b, h);
    case Claim(h, how) => ClaimKeeps(c, a, h, how);
    case Read(h, ok) =>
      ReadKeeps(c, a, h, ok);
    case Play(h) => PlayKeeps(c, a, h);
    case Money(l, acknowledged) =>
      AnyMoneyKeeps(c, a, l, acknowledged);
    case Store(h, how) => StoreKeeps(c, a, h, how);
    case Respond(h) =>
      RespondKeeps(c, a, h);
    case Release(h, _) => DropKeeps(c, a, b, h);
    case Crash(h) => DropKeeps(c, a, b, h);
    case Expire(_) => ExpireKeeps(c, a, b);
  }

  lemma {:induction false} ScheduleKeepsInvFrom(c: Config, a: Api, es: seq<Event>)
    requires ValidConfig(c) && ApiInv(c, a) && Schedule(c, a, es).Some?
    ensures ApiInv(c, Schedule(c, a, es).value)
  {
    if es != [] {
      ScheduleKeepsInvFrom(c, a, es[..|es| - 1]);
      hide ApiInv, Occurs, ValidConfig;
      EventKeepsInv(c, Schedule(c, a, es[..|es| - 1]).value, es[|es| - 1]);
    }
  }

  lemma ScheduleKeepsInv(c: Config, a0: Api, es: seq<Event>)
    requires ValidConfig(c) && ApiInitial(a0) && Schedule(c, a0, es).Some?
    ensures ApiInv(c, Schedule(c, a0, es).value)
  {
    assert ApiInv(c, a0) by { hide GoodDB, SeqsAbove, Schedule, ValidConfig; }
    hide *;
    ScheduleKeepsInvFrom(c, a0, es);
  }

  /******* What the endpoint promises *******/

  /** Over any schedule there is at most one spin under a reference, and it took the stake exactly once. */
  lemma AtMostOneSpin(c: Config, a0: Api, es: seq<Event>, s: nat, t: nat)
    requires ValidConfig(c) && ApiInitial(a0) && Schedule(c, a0, es).Some?
    ensures var db := Schedule(c, a0, es).value.money.db;
            s in db.spins && t in db.spins && db.spins[s].user == db.spins[t].user
            && db.spins[s].clientRef == db.spins[t].clientRef ==>
              s == t && |Legs(db.ledger, Bet, s)| == 1 && Legs(db.ledger, Bet, s)[0].amount == -db.spins[s].stake
  {
    ScheduleKeepsInv(c, a0, es);
    var db := Schedule(c, a0, es).value.money.db;
    assert GoodDB(db);
    if s in db.spins {
      assert FullyRecorded(db.ledger, s, db.spins[s]);
    }
  }

  /** All the 200 responses ever given under one reference are the same, and tell the one spin on record. */
  lemma RepliesAgree(c: Config, a0: Api, es: seq<Event>, i: nat, j: nat)
    requires ValidConfig(c) && ApiInitial(a0) && Schedule(c, a0, es).Some?
    requires var a := Schedule(c, a0, es).value;
             i < |a.replies| && j < |a.replies| && a.replies[i].key == a.replies[j].key
    ensures var a := Schedule(c, a0, es).value;
            a.replies[i].body == a.replies[j].body && Tells(a.money.db, a.replies[i].key, a.replies[i].body)
  {
    ScheduleKeepsInv(c, a0, es);
    var a := Schedule(c, a0, es).value;
    assert a.replies[i] in a.replies && a.replies[j] in a.replies;
    assert IsOutcome(a, a.replies[i].key, a.replies[i].body) && IsOutcome(a, a.replies[j].key, a.replies[j].body);
  }

  /** Asking by reference afterwards finds that spin: every field but the balance, which is the present one. */
  lemma ByRefAgrees(c: Config, a0: Api, es: seq<Event>, i: nat, r: Option<SpinResult>)
    requires ValidConfig(c) && ApiInitial(a0) && Schedule(c, a0, es).Some?
    requires var a := Schedule(c, a0, es).value;
             i < |a.replies| && Answers(a.money.db, a.replies[i].key.user, a.replies[i].key.clientRef, r)
    ensures var a := Schedule(c, a0, es).value;
            r.Some? && r.value == a.replies[i].body.(balance := r.value.balance)
            && r.value.balance == a.money.db.wallets[a.replies[i].key.user].Spendable(r.value.isReal)
  {
    ScheduleKeepsInv(c, a0, es);
    var a := Schedule(c, a0, es).value;
    RepliesAgree(c, a0, es, i, i);
    var k, b, db := a.replies[i].key, a.replies[i].body, a.money.db;
    assert UniqueKeys(db) && OwnersExist(db) && I6(db);
    hide Schedule, ApiInv, Inv, GoodDB;
    OutcomeFound(db, k, b, r);
  }

  lemma OutcomeFound(db: DB, k: Key, b: SpinResult, r: Option<SpinResult>)
    requires UniqueKeys(db) && OwnersExist(db) && I6(db) && Tells(db, k, b) && Answers(db, k.user, k.clientRef, r)
    ensures r.Some? && r.value == b.(balance := r.value.balance)
            && r.value.balance == db.wallets[k.user].Spendable(r.value.isReal)
  {
    assert FullyRecorded(db.ledger, b.spinId, db.spins[b.spinId]);
    BetHasOwner(db, b.spinId);
    assert Taken(db.spins, k.user, k.clientRef);
    assert r.value.spinId == b.spinId;
  }

  lemma BetHasOwner(db: DB, sid: nat)
    requires sid in db.spins && FullyRecorded(db.ledger, sid, db.spins[sid]) && OwnersExist(db)
    ensures db.spins[sid].user in db.wallets
  {
    LegsAreRows(db.ledger, Bet, sid);
    assert Legs(db.ledger, Bet, sid)[0] in Legs(db.ledger, Bet, sid);
  }

  lemma {:induction false} LegsAreRows(l: seq<Row>, kind: Kind, ref: nat)
    ensures forall r | r in Legs(l, kind, ref) :: r in l
  {
    if l != [] {
      LegsAreRows(l[..|l| - 1], kind, ref);
    }
  }
}

/** What each transaction does and when it goes through, written out over the tables it starts from. */
module Outcomes {
  import opened Basics
  import opened Wheel
  import opened StakeCap
  import opened Schema
  import opened Movements
  import opened Spin
  import opened Transactions
  import opened Integrity

  /******* A spin *******/

  /** A rate in basis points of an amount, rounded down. */
  function PartOf(amount: int, bp: int): int {
    amount * bp / 10000
  }

  /** `u` is owed commission on this stake: real play, by somebody `u` referred, not by `u`. */
  predicate EarnsCommission(c: Config, db: DB, req: Request, u: nat) {
    req.isReal && c.referralBP > 0 && req.user in db.users && db.users[req.user].referredBy == Some(u) && u != req.user
  }

  /** The bankroll can pay every segment of the real wheel. */
  predicate CanPayEverything(c: Config, bankroll: int, stake: int) {
    forall i | 0 <= i < 12 :: PartOf(stake, c.wheel[i].multBP) <= bankroll
  }

  lemma PayeeIsReferrer(c: Config, db: DB, req: Request, u: nat)
    requires req.user in db.users
    ensures Payee(c, db.users, req) == Some(u) <==> EarnsCommission(c, db, req, u)
  {
  }

  lemma ExposureIsWorstCase(c: Config, bankroll: int, stake: int)
    requires ValidConfig(c) && c.minStake <= stake <= c.maxStake
    ensures bankroll >= MaxExposure(MaxMult(c.wheel), stake) <==> CanPayEverything(c, bankroll, stake)
  {
    var m := MaxMult(c.wheel);
    forall i | 0 <= i < 12 ensures c.wheel[i].multBP >= 0 && PartOf(stake, c.wheel[i].multBP) <= MaxExposure(m, stake) {
      assert c.wheel[i] in c.wheel;
      PayoutCovered(m, stake, c.wheel[i].multBP);
    }
    PayoutCovered(m, stake, m);
    assert MaxExposure(m, stake) == PartOf(stake, m);
    var i := if m == 0 then 0 else TopSegment(c.wheel);
    assert c.wheel[i].multBP == m;
    hide ValidConfig, Payout, MaxExposure, MaxMult, PartOf;
    assert CanPayEverything(c, bankroll, stake) ==> PartOf(stake, c.wheel[i].multBP) <= bankroll;
  }

  ghost function TopSegment(t: Table): (i: nat)
    requires MaxMult(t) != 0
    ensures i < 12 && t[i].multBP == MaxMult(t)
  {
    var i :| 0 <= i < |t| && t[i].multBP == MaxMult(t);
    i
  }

  /** What admission asks for, and what it answers when something is missing. */
  lemma AdmissionExactly(c: Config, db: DB, req: Request)
    requires ValidConfig(c)
    ensures Veto(c, db, req) == None <==>
              && c.minStake <= req.stake <= c.maxStake
              && req.user in db.users && req.active && req.user in db.wallets
              && (forall u | EarnsCommission(c, db, req, u) :: u in db.wallets)
              && req.stake <= (if req.isReal then db.wallets[req.user].realCents else db.wallets[req.user].demoCents)
              && (req.isReal ==> CanPayEverything(c, db.house.bankroll, req.stake))
    ensures req.stake < c.minStake ==> Veto(c, db, req) == Some(StakeTooSmall(c.minStake))
    ensures req.stake > c.maxStake ==> Veto(c, db, req) == Some(StakeTooLarge(c.maxStake))
    ensures c.minStake <= req.stake <= c.maxStake && (req.user !in db.users || !req.active) ==>
              Veto(c, db, req) == Some(UserNotFound)
    ensures forall limit :: Veto(c, db, req) == Some(InsufficientFunds(limit)) ==>
              && req.user in db.wallets && limit < req.stake
              && limit == if req.isReal then db.wallets[req.user].realCents else db.wallets[req.user].demoCents
    ensures Veto(c, db, req).Some? && Veto(c, db, req).value.StakeExceedsBank? ==>
              req.isReal && !CanPayEverything(c, db.house.bankroll, req.stake)
  {
    if c.minStake <= req.stake <= c.maxStake && req.user in db.users {
      forall u: nat ensures Payee(c, db.users, req) == Some(u) <==> EarnsCommission(c, db, req, u) {
        PayeeIsReferrer(c, db, req, u);
      }
      ExposureIsWorstCase(c, db.house.bankroll, req.stake);
    }
    hide ValidConfig, MaxExposure, MaxMult, CanPayEverything, Payee, EarnsCommission, MaxAffordableStake;
  }

  /** A stake within the limits, by an active user: what is missing first is what the player is told. */
  lemma RefusalsInOrder(c: Config, db: DB, req: Request)
    requires ValidConfig(c) && c.minStake <= req.stake <= c.maxStake && req.user in db.users && req.active
    ensures req.user !in db.wallets ==> Veto(c, db, req) == Some(NoWallet(req.user))
    ensures req.user in db.wallets ==>
              forall u | EarnsCommission(c, db, req, u) && u !in db.wallets :: Veto(c, db, req) == Some(NoWallet(u))
    ensures req.user in db.wallets && (forall u | EarnsCommission(c, db, req, u) :: u in db.wallets) ==>
              var funds := if req.isReal then db.wallets[req.user].realCents else db.wallets[req.user].demoCents;
              && (funds < req.stake ==> Veto(c, db, req) == Some(InsufficientFunds(funds)))
              && (req.stake <= funds && req.isReal && !CanPayEverything(c, db.house.bankroll, req.stake) ==>
                    Veto(c, db, req) == Some(StakeExceedsBank(MaxAffordableStake(MaxMult(c.wheel), db.house.bankroll))))
  {
    forall u: nat ensures Payee(c, db.users, req) == Some(u) <==> EarnsCommission(c, db, req, u) {
      PayeeIsReferrer(c, db, req, u);
    }
    ExposureIsWorstCase(c, db.house.bankroll, req.stake);
    hide ValidConfig, MaxExposure, MaxMult, CanPayEverything, Payee, EarnsCommission, MaxAffordableStake;
  }

  /** The plan, for the segment that owns the word. */
  lemma PlanInFull(c: Config, req: Request, payee: Option<nat>, word: nat, i: nat)
    requires ValidConfig(c) && c.minStake <= req.stake <= c.maxStake && i < 12
    requires Owns(if req.isReal then c.wheel else c.demo, i, word % WEIGHT_TOTAL)
    ensures var mult := (if req.isReal then c.wheel else c.demo)[i].multBP;
            MakePlan(c, req, payee, word) ==
            Plan(i + 1, mult, PartOf(req.stake, mult), if req.isReal then PartOf(req.stake, c.rakeBP) else 0,
                 if req.isReal && payee.Some? then PartOf(req.stake, c.referralBP) else 0, payee)
  {
    var t := TableFor(c, req.isReal);
    PlanBounds(c, req, payee, word);
    SelectIsOwner(t, word % WEIGHT_TOTAL, i);
    hide ValidConfig, Owns, Select, Payout;
  }

  /** The commission on a stake, wherever it goes. */
  ghost function Commission(c: Config, db: DB, req: Request): int {
    if exists u :: EarnsCommission(c, db, req, u) then PartOf(req.stake, c.referralBP) else 0
  }

  /** A spin that goes through, table by table: the segment that owns the word decides the payout; the player gains it and
      loses the stake; the house takes the stake and pays the rest out; the referrer is paid; and all of it is on record
      and in the answer. */
  lemma SpinInFull(c: Config, db: DB, req: Request, ch: Choices, i: nat)
    requires ValidConfig(c) && Solvent(db) && AtomicSpin(c, db, req, true, ch).Ok? && i < 12
    requires Owns(if req.isReal then c.wheel else c.demo, i, ch.word % WEIGHT_TOTAL)
    ensures req.user in db.users && req.user in db.wallets && forall u | EarnsCommission(c, db, req, u) :: u in db.wallets
    ensures var (after, r) := AtomicSpin(c, db, req, true, ch).value;
            var mult := (if req.isReal then c.wheel else c.demo)[i].multBP;
            var payout, rake := PartOf(req.stake, mult), if req.isReal then PartOf(req.stake, c.rakeBP) else 0;
            var share, me := Commission(c, db, req), db.wallets[req.user];
            var balance := (if req.isReal then me.realCents else me.demoCents) - req.stake + payout;
            && after.users == db.users && after.topups == db.topups && after.wallets.Keys == db.wallets.Keys
            && after.wallets[req.user] ==
               (if req.isReal then Wallet(balance, me.demoCents, me.heldCents) else Wallet(me.realCents, balance, me.heldCents))
            && (forall u | EarnsCommission(c, db, req, u) ::
                  after.wallets[u] == db.wallets[u].(realCents := db.wallets[u].realCents + share))
            && (forall u | u in db.wallets && u != req.user && !EarnsCommission(c, db, req, u) ::
                  after.wallets[u] == db.wallets[u])
            && after.house == (if req.isReal
                               then House(db.house.bankroll + req.stake - payout - rake - share, db.house.rake + rake)
                               else db.house)
            && after.spins == db.spins[ch.spinId :=
                 SpinRow(req.user, req.isReal, req.stake, i + 1, mult, payout, rake, req.clientRef)]
            && r == SpinResult(ch.spinId, i + 1, mult, req.stake, payout, payout - req.stake, balance, req.isReal)
  {
    hide *;
    SuccessIsPlan(c, db, req, ch);
    WithinLimits(c, db, req);
    var payee := Payee(c, db.users, req);
    var p := MakePlan(c, req, payee, ch.word);
    PayeesEarn(c, db, req);
    PlanInFull(c, req, payee, ch.word, i);
    SpinEffect(c, db, req, ch);
    var (after, r) := AtomicSpin(c, db, req, true, ch).value;
    WalletsInFull(c, db, after, req, p, ch);
    RecordsInFull(c, db, after, r, req, p, ch);
  }

  lemma PayeesEarn(c: Config, db: DB, req: Request)
    requires req.user in db.users
    ensures forall u: nat :: Payee(c, db.users, req) == Some(u) <==> EarnsCommission(c, db, req, u)
  {
  }

  /** The commission of a plan whose payee is whoever earns one. */
  lemma CommissionOfPlan(c: Config, db: DB, req: Request, p: Plan)
    requires forall u: nat :: p.payee == Some(u) <==> EarnsCommission(c, db, req, u)
    requires p.commission == if req.isReal && p.payee.Some? then PartOf(req.stake, c.referralBP) else 0
    ensures p.commission == Commission(c, db, req)
    ensures p.payee.Some? ==> EarnsCommission(c, db, req, p.payee.value)
  {
    assert p.payee.Some? ==> EarnsCommission(c, db, req, p.payee.value);
    hide PartOf;
  }

  lemma WalletsInFull(c: Config, db: DB, after: DB, req: Request, p: Plan, ch: Choices)
    requires Admitted(db, req, p) && PlanApplied(db, after, req, p, ch)
    requires forall u: nat :: p.payee == Some(u) <==> EarnsCommission(c, db, req, u)
    requires p.commission == if req.isReal && p.payee.Some? then PartOf(req.stake, c.referralBP) else 0
    ensures req.user in db.wallets && after.wallets.Keys == db.wallets.Keys
    ensures after.users == db.users && after.topups == db.topups
    ensures forall u: nat | EarnsCommission(c, db, req, u) ::
              u in db.wallets
              && after.wallets[u] == db.wallets[u].(realCents := db.wallets[u].realCents + Commission(c, db, req))
    ensures forall u: nat | u in db.wallets && u != req.user && !EarnsCommission(c, db, req, u) ::
              after.wallets[u] == db.wallets[u]
    ensures var me := db.wallets[req.user];
            after.wallets[req.user] ==
            if req.isReal then me.(realCents := me.realCents - req.stake + p.payout)
            else me.(demoCents := me.demoCents - req.stake + p.payout)
  {
    CommissionOfPlan(c, db, req, p);
    hide EarnsCommission, Commission, PartOf, SpinRows, HouseDelta, RecordOf;
  }

  lemma RecordsInFull(c: Config, db: DB, after: DB, r: SpinResult, req: Request, p: Plan, ch: Choices)
    requires Admitted(db, req, p) && PlanApplied(db, after, req, p, ch)
    requires forall u: nat :: p.payee == Some(u) <==> EarnsCommission(c, db, req, u)
    requires p.commission == if req.isReal && p.payee.Some? then PartOf(req.stake, c.referralBP) else 0
    requires r == ResultOf(db.wallets[req.user].Spendable(req.isReal), req, p, ch.spinId)
    ensures after.house ==
            if req.isReal
            then House(db.house.bankroll + req.stake - p.payout - p.rake - Commission(c, db, req), db.house.rake + p.rake)
            else db.house
    ensures after.spins == db.spins[ch.spinId :=
              SpinRow(req.user, req.isReal, req.stake, p.segment, p.mult, p.payout, p.rake, req.clientRef)]
    ensures var me := db.wallets[req.user];
            r == SpinResult(ch.spinId, p.segment, p.mult, req.stake, p.payout, p.payout - req.stake,
                            (if req.isReal then me.realCents else me.demoCents) - req.stake + p.payout, req.isReal)
  {
    CommissionOfPlan(c, db, req, p);
    hide EarnsCommission, Commission, PartOf, SpinRows;
  }

  /** The ledger rows of a spin: the bet, the win if there is one, the commission if one is owed and comes to a cent. */
  lemma LedgerInFull(c: Config, db: DB, req: Request, ch: Choices, i: nat)
    requires ValidConfig(c) && Solvent(db) && AtomicSpin(c, db, req, true, ch).Ok? && i < 12
    requires Owns(if req.isReal then c.wheel else c.demo, i, ch.word % WEIGHT_TOTAL)
    ensures req.user in db.wallets && forall u | EarnsCommission(c, db, req, u) :: u in db.wallets
    ensures var l, me := AtomicSpin(c, db, req, true, ch).value.0.ledger, db.wallets[req.user];
            var payout := PartOf(req.stake, (if req.isReal then c.wheel else c.demo)[i].multBP);
            var left, share := (if req.isReal then me.realCents else me.demoCents) - req.stake, Commission(c, db, req);
            var bet := Row(ch.betId, req.user, Bet, req.isReal, -req.stake, left, Some(ch.spinId));
            var win := Row(ch.winId, req.user, Win, req.isReal, payout, left + payout, Some(ch.spinId));
            var moves := db.ledger + [bet] + if payout > 0 then [win] else [];
            && (share <= 0 ==> l == moves)
            && forall u | EarnsCommission(c, db, req, u) && share > 0 ::
                 l == moves + [Row(ch.refId, u, Referral, true, share, db.wallets[u].realCents + share, Some(ch.spinId))]
  {
    hide *;
    SuccessIsPlan(c, db, req, ch);
    WithinLimits(c, db, req);
    var payee := Payee(c, db.users, req);
    var p := MakePlan(c, req, payee, ch.word);
    PayeesEarn(c, db, req);
    PlanInFull(c, req, payee, ch.word, i);
    SpinEffect(c, db, req, ch);
    RowsInFull(c, db, AtomicSpin(c, db, req, true, ch).value.0, req, p, ch);
  }

  lemma RowsInFull(c: Config, db: DB, after: DB, req: Request, p: Plan, ch: Choices)
    requires Admitted(db, req, p) && PlanApplied(db, after, req, p, ch)
    requires forall u: nat :: p.payee == Some(u) <==> EarnsCommission(c, db, req, u)
    requires p.commission == if req.isReal && p.payee.Some? then PartOf(req.stake, c.referralBP) else 0
    ensures req.user in db.wallets && forall u | EarnsCommission(c, db, req, u) :: u in db.wallets
    ensures var me, share := db.wallets[req.user], Commission(c, db, req);
            var left := (if req.isReal then me.realCents else me.demoCents) - req.stake;
            var bet := Row(ch.betId, req.user, Bet, req.isReal, -req.stake, left, Some(ch.spinId));
            var win := Row(ch.winId, req.user, Win, req.isReal, p.payout, left + p.payout, Some(ch.spinId));
            var moves := db.ledger + [bet] + if p.payout > 0 then [win] else [];
            && (share <= 0 ==> after.ledger == moves)
            && forall u | EarnsCommission(c, db, req, u) && share > 0 ::
                 after.ledger ==
                 moves + [Row(ch.refId, u, Referral, true, share, db.wallets[u].realCents + share, Some(ch.spinId))]
  {
    CommissionOfPlan(c, db, req, p);
    assert forall u: nat | EarnsCommission(c, db, req, u) :: p.payee == Some(u);
    hide EarnsCommission, Commission, PartOf, HouseDelta, RecordOf;
  }

  /** Whoever is owed commission is paid exactly that, and the ledger's one referral row under the spin says so; if nobody
      is, or it does not come to a cent, there is none. */
  lemma CommissionPaid(c: Config, db: DB, req: Request, ch: Choices)
    requires ValidConfig(c) && GoodDB(db) && FreshFor(c, db, SpinOp(req), ch) && AtomicSpin(c, db, req, true, ch).Ok?
    ensures forall u | EarnsCommission(c, db, req, u) :: u in db.wallets
    ensures var after := AtomicSpin(c, db, req, true, ch).value.0;
            var share, legs := PartOf(req.stake, c.referralBP), Legs(after.ledger, Referral, ch.spinId);
            && (forall u | EarnsCommission(c, db, req, u) ::
                  && u in after.wallets
                  && after.wallets[u] == db.wallets[u].(realCents := db.wallets[u].realCents + share)
                  && legs == if share > 0
                             then [Row(ch.refId, u, Referral, true, share, db.wallets[u].realCents + share, Some(ch.spinId))]
                             else [])
            && ((forall u: nat :: !EarnsCommission(c, db, req, u)) ==> legs == [])
  {
    hide *;
    GoodAndFresh(c, db, req, ch);
    SuccessIsPlan(c, db, req, ch);
    WithinLimits(c, db, req);
    var payee := Payee(c, db.users, req);
    var p := MakePlan(c, req, payee, ch.word);
    var after := AtomicSpin(c, db, req, true, ch).value.0;
    PayeesEarn(c, db, req);
    SpinEffect(c, db, req, ch);
    CommissionIsShare(c, req, payee, ch.word);
    AppliedLedger(db, after, req, p, ch);
    LegsNow(db, after, req, p, ch, Referral, ch.spinId);
    WalletsInFull(c, db, after, req, p, ch);
    CommissionLegs(c, db, req, p, ch);
    CommissionOfPlan(c, db, req, p);
  }

  lemma GoodAndFresh(c: Config, db: DB, req: Request, ch: Choices)
    requires GoodDB(db) && FreshFor(c, db, SpinOp(req), ch)
    ensures Solvent(db) && RefsExist(db) && ch.spinId !in db.spins
  {
    hide Solvent, RefsExist, I1, I3, I6, I7, OwnersExist, UniqueKeys, MakePlan;
  }

  lemma CommissionIsShare(c: Config, req: Request, payee: Option<nat>, word: nat)
    requires ValidConfig(c) && c.minStake <= req.stake <= c.maxStake
    ensures var p := MakePlan(c, req, payee, word);
            p.payee == payee && p.commission == if req.isReal && payee.Some? then PartOf(req.stake, c.referralBP) else 0
  {
    PlanBounds(c, req, payee, word);
    hide ValidConfig, Select, Payout;
  }

  lemma AppliedLedger(db: DB, after: DB, req: Request, p: Plan, ch: Choices)
    requires RowsPresent(db, req, p) && PlanApplied(db, after, req, p, ch)
    ensures after.ledger == db.ledger + SpinRows(db, req, p, ch)
  {
    hide SpinRows;
  }

  lemma CommissionLegs(c: Config, db: DB, req: Request, p: Plan, ch: Choices)
    requires Admitted(db, req, p)
    requires forall u: nat :: p.payee == Some(u) <==> EarnsCommission(c, db, req, u)
    requires p.commission == if req.isReal && p.payee.Some? then PartOf(req.stake, c.referralBP) else 0
    ensures forall u | EarnsCommission(c, db, req, u) ::
              && u in db.wallets && PartOf(req.stake, c.referralBP) == Commission(c, db, req) >= 0
              && RefRows(db, p, ch) ==
                 var share := PartOf(req.stake, c.referralBP);
                 if share > 0
                 then [Row(ch.refId, u, Referral, true, share, db.wallets[u].realCents + share, Some(ch.spinId))]
                 else []
    ensures (forall u: nat :: !EarnsCommission(c, db, req, u)) ==> RefRows(db, p, ch) == []
  {
    CommissionOfPlan(c, db, req, p);
    assert forall u: nat | EarnsCommission(c, db, req, u) :: p.payee == Some(u) && req.isReal;
    assert p.payee.Some? ==> EarnsCommission(c, db, req, p.payee.value);
    hide PartOf, Commission;
  }

  /** No spin of this player is on record under the reference. */
  predicate ReferenceFree(db: DB, req: Request) {
    forall s | s in db.spins :: db.spins[s].user != req.user || db.spins[s].clientRef != req.clientRef
  }

  /** A spin goes through exactly when everything admission asks for is there, its reference is free, and no balance it
      raises leaves the bigint. */
  lemma SpinGoesThrough(c: Config, db: DB, req: Request, ch: Choices, i: nat)
    requires ValidConfig(c) && Solvent(db) && i < 12
    requires Owns(if req.isReal then c.wheel else c.demo, i, ch.word % WEIGHT_TOTAL)
    ensures AtomicSpin(c, db, req, true, ch).Ok? <==>
              && Veto(c, db, req) == None && ReferenceFree(db, req)
              && var payout := PartOf(req.stake, (if req.isReal then c.wheel else c.demo)[i].multBP);
                 var me, share := db.wallets[req.user], Commission(c, db, req);
                 && (req.isReal ==>
                       && me.realCents - req.stake + payout <= MAX_INT64
                       && db.house.bankroll + req.stake - payout - PartOf(req.stake, c.rakeBP) - share <= MAX_INT64
                       && db.house.rake + PartOf(req.stake, c.rakeBP) <= MAX_INT64)
                 && (!req.isReal ==> me.demoCents - req.stake + payout <= MAX_INT64)
                 && forall u | EarnsCommission(c, db, req, u) && share > 0 ::
                      db.wallets[u].realCents + share <= MAX_INT64
    ensures Veto(c, db, req) == None ==>
              req.user in db.wallets && forall u | EarnsCommission(c, db, req, u) :: u in db.wallets
  {
    hide *;
    FreeIsNotTaken(db, req);
    SpinSucceeds(c, db, req, ch);
    if Veto(c, db, req) == None {
      WithinLimits(c, db, req);
      var payee := Payee(c, db.users, req);
      var p := MakePlan(c, req, payee, ch.word);
      PayeesEarn(c, db, req);
      PlanInFull(c, req, payee, ch.word, i);
      AdmittedPlan(c, db, req, ch.word);
      FitsInFull(c, db, req, p);
    } else {
      Vetoed(c, db, req, ch);
    }
  }

  lemma FreeIsNotTaken(db: DB, req: Request)
    ensures ReferenceFree(db, req) <==> !Taken(db.spins, req.user, req.clientRef)
  {
  }

  lemma FitsInFull(c: Config, db: DB, req: Request, p: Plan)
    requires Solvent(db) && Admitted(db, req, p)
    requires forall u: nat :: p.payee == Some(u) <==> EarnsCommission(c, db, req, u)
    requires p.commission == if req.isReal && p.payee.Some? then PartOf(req.stake, c.referralBP) else 0
    ensures forall u | EarnsCommission(c, db, req, u) :: u in db.wallets
    ensures var me, share := db.wallets[req.user], Commission(c, db, req);
            && IsInt64(me.Spendable(req.isReal) - req.stake + p.payout)
            && (req.isReal ==> IsInt64(db.house.bankroll + HouseDelta(req, p)) && IsInt64(db.house.rake + p.rake))
            && (p.commission > 0 ==> p.payee.Some? && IsInt64(db.wallets[p.payee.value].realCents + p.commission))
            <==>
            && (req.isReal ==>
                  && me.realCents - req.stake + p.payout <= MAX_INT64
                  && db.house.bankroll + req.stake - p.payout - p.rake - share <= MAX_INT64
                  && db.house.rake + p.rake <= MAX_INT64)
            && (!req.isReal ==> me.demoCents - req.stake + p.payout <= MAX_INT64)
            && forall u | EarnsCommission(c, db, req, u) && share > 0 :: db.wallets[u].realCents + share <= MAX_INT64
  {
    CommissionOfPlan(c, db, req, p);
    assert forall u: nat | EarnsCommission(c, db, req, u) :: p.payee == Some(u);
    assert p.payee.Some? ==> EarnsCommission(c, db, req, p.payee.value);
    hide EarnsCommission, Commission, PartOf;
  }

  /******* The other transactions *******/

  /** An admitted spin fails without entropy, and with it, before any money moves, on a reference that has been used. */
  lemma UsedReferenceIsRefused(c: Config, db: DB, req: Request, entropy: bool, ch: Choices)
    requires ValidConfig(c) && Veto(c, db, req) == None
    ensures !entropy ==> AtomicSpin(c, db, req, entropy, ch) == Err(EntropyUnavailable)
    ensures entropy && !ReferenceFree(db, req) <==> AtomicSpin(c, db, req, entropy, ch) == Err(DuplicateSpin)
  {
    hide *;
    FreeIsNotTaken(db, req);
    WithinLimits(c, db, req);
    PlanBounds(c, req, Payee(c, db.users, req), ch.word);
    VetoRows(c, db, req, ch.word);
    DuplicateOrMoney(c, db, req, entropy, ch);
  }

  lemma DuplicateOrMoney(c: Config, db: DB, req: Request, entropy: bool, ch: Choices)
    requires Veto(c, db, req) == None && req.user in db.users
    requires Select(TableFor(c, req.isReal), ch.word % WEIGHT_TOTAL).Some?
    requires var p := MakePlan(c, req, Payee(c, db.users, req), ch.word);
             SpinChecks(RecordOf(req, p)) && RowsPresent(db, req, p)
    ensures !entropy ==> AtomicSpin(c, db, req, entropy, ch) == Err(EntropyUnavailable)
    ensures entropy && Taken(db.spins, req.user, req.clientRef) <==>
            AtomicSpin(c, db, req, entropy, ch) == Err(DuplicateSpin)
  {
    assert MoneyError(db, req, MakePlan(c, req, Payee(c, db.users, req), ch.word), ch) != Some(DuplicateSpin);
    hide Veto, MakePlan, Payee, Select, SpinChecks, Taken, AfterRef, MoneyError, RowsPresent, RecordOf;
  }


  /** A demo top-up goes through exactly for a known player whose last one lies further back than the cooldown, and whose
      target fits the bigint. */
  lemma TopUpGoesThrough(db: DB, user: nat, now: int, cooldown: int, target: int, id: nat)
    requires Solvent(db)
    ensures AtomicTopUp(db, user, now, cooldown, target, id).Ok? <==>
              && user in db.users && (user in db.topups ==> db.topups[user] + cooldown < now)
              && user in db.wallets && target <= MAX_INT64
    ensures AtomicTopUp(db, user, now, cooldown, target, id) == Err(NotEligible) <==>
              user !in db.users || (user in db.topups && now <= db.topups[user] + cooldown)
    ensures AtomicTopUp(db, user, now, cooldown, target, id) == Err(NoWallet(user)) <==>
              && user in db.users && (user in db.topups ==> db.topups[user] + cooldown < now)
              && user !in db.wallets
  {
  }

  /** A movement goes through exactly when it moves something, is of a kind its realm allows, and leaves a balance a bigint
      holds. */
  lemma MoveGoesThrough(db: DB, m: Move)
    requires Solvent(db)
    ensures MoveError(db, m) == None <==>
              && m.delta != 0 && m.user in db.wallets
              && m.kind != Unset && (m.kind == DemoGrant ==> !m.isReal)
              && (m.kind in {Deposit, Withdraw, WithdrawReversed, Referral} ==> m.isReal)
              && var w := db.wallets[m.user];
                 0 <= (if m.isReal then w.realCents else w.demoCents) + m.delta <= MAX_INT64
  {
  }


  lemma HoldGoesThrough(db: DB, user: nat, amount: int, withdrawal: Option<nat>, id: nat)
    requires Solvent(db)
    ensures AtomicHold(db, user, amount, withdrawal, id).Ok? <==>
              && user in db.wallets && 0 < amount <= db.wallets[user].realCents
              && db.wallets[user].heldCents + amount <= MAX_INT64
    ensures user in db.wallets && db.wallets[user].realCents < amount <= MAX_INT64 ==>
              AtomicHold(db, user, amount, withdrawal, id) == Err(WalletInsufficient)
    ensures user in db.wallets && amount <= 0 ==> AtomicHold(db, user, amount, withdrawal, id) == Err(BadAmount)
    ensures AtomicHold(db, user, amount, withdrawal, id) == Err(NoWallet(user)) <==> user !in db.wallets
  {
  }

  lemma ReleaseGoesThrough(db: DB, user: nat, amount: int)
    requires Solvent(db)
    ensures AtomicRelease(db, user, amount).Ok? <==> user in db.wallets && 0 < amount <= db.wallets[user].heldCents
    ensures user in db.wallets && db.wallets[user].heldCents < amount <= MAX_INT64 ==>
              AtomicRelease(db, user, amount) == Err(HoldCorrupt)
    ensures user in db.wallets && amount <= 0 ==> AtomicRelease(db, user, amount) == Err(BadAmount)
    ensures AtomicRelease(db, user, amount) == Err(NoWallet(user)) <==> user !in db.wallets
  {
  }

  lemma ReverseGoesThrough(db: DB, user: nat, amount: int, withdrawal: Option<nat>, id: nat)
    requires Solvent(db)
    ensures AtomicReverse(db, user, amount, withdrawal, id).Ok? <==>
              && user in db.wallets && 0 < amount <= db.wallets[user].heldCents
              && db.wallets[user].realCents + amount <= MAX_INT64
    ensures user in db.wallets && db.wallets[user].heldCents < amount <= MAX_INT64 ==>
              AtomicReverse(db, user, amount, withdrawal, id) == Err(HoldCorrupt)
    ensures user in db.wallets && amount <= 0 ==> AtomicReverse(db, user, amount, withdrawal, id) == Err(BadAmount)
    ensures AtomicReverse(db, user, amount, withdrawal, id) == Err(NoWallet(user)) <==> user !in db.wallets
  {
  }

  /** The code's owner is there and active. */
  predicate InviteStands(db: DB, invite: Invite) {
    invite.active && exists u :: u in db.users && db.users[u].code == invite.code
  }

  /** A registration goes through exactly when its invite, if there is one, stands, phone and code are free, and the grant
      fits the bigint; an invite that does not stand is what it is told first. */
  lemma RegistrationGoesThrough(
    db: DB, phone: string, code: string, invite: Option<Invite>, grant: int, uid: nat, id: nat)
    ensures AtomicRegister(db, phone, code, invite, grant, uid, id).Ok? <==>
              && (invite.Some? ==> InviteStands(db, invite.value))
              && (forall u | u in db.users :: db.users[u].phone != phone && db.users[u].code != code)
              && grant <= MAX_INT64
    ensures AtomicRegister(db, phone, code, invite, grant, uid, id) == Err(ReferrerUnknown) <==>
              invite.Some? && !InviteStands(db, invite.value)
    ensures AtomicRegister(db, phone, code, invite, grant, uid, id) == Err(PhoneTaken) <==>
              && (invite.Some? ==> InviteStands(db, invite.value))
              && exists u :: u in db.users && db.users[u].phone == phone
    ensures AtomicRegister(db, phone, code, invite, grant, uid, id) == Err(CodeCollision) <==>
              && (invite.Some? ==> InviteStands(db, invite.value))
              && (forall u | u in db.users :: db.users[u].phone != phone)
              && exists u :: u in db.users && db.users[u].code == code
  {
    var user := User(phone, code, Referrer(db.users, invite));
    GrantFits(WalletAdded(UserAdded(db, uid, user), uid), uid, grant);
    hide GrantError, Referrer, Granted, WalletAdded, UserAdded;
  }

  lemma GrantFits(db: DB, uid: nat, grant: int)
    requires uid in db.wallets && db.wallets[uid] == Wallet(0, 0, 0)
    ensures GrantError(db, uid, grant) == if grant > MAX_INT64 then Some(OutOfRange) else None
  {
  }
}

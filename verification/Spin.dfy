/** One spin as a single atomic step on the tables (internal/game/spin.go). */
module Spin {
  import opened Basics
  import opened Wheel
  import opened StakeCap
  import opened Schema
  import opened Movements

  /** The tables and the economics they are configured with. */
  datatype Config = Config(
    wheel: Table, demo: Table, rtpBP: int, demoRtpBP: int,
    rakeBP: int, referralBP: int, minStake: int, maxStake: int)

  /** What start-up checks: the tables (Validate), the ceiling (ValidateStakeCeiling) and config's cross-field rules,
      with tables whose sums and products stay inside their integers: AcceptedIsValid says what that asks of a table,
      SharesFit what the last line asks of a wheel. multiplier_bp is a 32-bit column. */
  predicate ValidConfig(c: Config) {
    && ValidTables(c.wheel, c.demo, c.rtpBP, c.demoRtpBP) && MaxMult(c.wheel) <= MAX_INT32
    && 0 <= c.rtpBP <= 10000 && 0 <= c.rakeBP && 0 <= c.referralBP
    && c.rakeBP + c.referralBP <= 10000 - c.rtpBP
    && 0 < c.minStake <= c.maxStake <= MaxSafeStake(MaxMult(c.wheel))
    && ShareFits(c.maxStake, c.rakeBP) && ShareFits(c.maxStake, c.referralBP)
  }

  const DEFAULTS: Config := Config(WHEEL, DEMO_WHEEL, 9000, 9700, 500, 200, 500, 5_000_000)

  /** The defaults of the configuration pass every one of these checks. */
  lemma DefaultsAreValid()
    ensures ValidConfig(DEFAULTS) && MaxMult(DEFAULTS.wheel) == 2000000
  {
    ShippedTablesValid();
  }

  /** `active` is what the unlocked read of users.is_active answered. */
  datatype Request = Request(user: nat, stake: int, isReal: bool, clientRef: string, active: bool)

  /** Everything a spin takes from outside: the entropy word and the ids the sequences hand out. */
  datatype Choices = Choices(word: nat, spinId: nat, betId: nat, winId: nat, refId: nat, uid: nat)

  /** What is settled once the word is drawn. */
  datatype Plan = Plan(segment: nat, mult: int, payout: int, rake: int, commission: int, payee: Option<nat>)

  datatype SpinResult = SpinResult(
    spinId: nat, segment: nat, mult: int, stake: int, payout: int, net: int, balance: int, isReal: bool)

  function TableFor(c: Config, isReal: bool): Table {
    if isReal then c.wheel else c.demo
  }

  /** Who earns commission: only on real play, and never the player. */
  function Payee(c: Config, users: map<nat, User>, req: Request): Option<nat>
    requires req.user in users
  {
    var referrer := users[req.user].referredBy;
    if req.isReal && referrer.Some? && referrer.value != req.user && c.referralBP > 0 then referrer else None
  }

  function MakePlan(c: Config, req: Request, payee: Option<nat>, word: nat): Plan {
    var t := TableFor(c, req.isReal);
    var s := Select(t, word % WEIGHT_TOTAL);
    var mult := if s.Some? then t[s.value].multBP else 0;
    Plan(if s.Some? then s.value + 1 else 0, mult, Payout(req.stake, mult),
         if req.isReal then Payout(req.stake, c.rakeBP) else 0,
         if req.isReal && payee.Some? then Payout(req.stake, c.referralBP) else 0,
         payee)
  }

  function RecordOf(req: Request, p: Plan): SpinRow {
    SpinRow(req.user, req.isReal, req.stake, p.segment, p.mult, p.payout, p.rake, req.clientRef)
  }

  function BetMove(req: Request, ch: Choices): Move {
    Move(req.user, Bet, req.isReal, -req.stake, Some(ch.spinId))
  }

  function WinMove(req: Request, p: Plan, ch: Choices): Move {
    Move(req.user, Win, req.isReal, p.payout, Some(ch.spinId))
  }

  function RefMove(p: Plan, ch: Choices): Move
    requires p.payee.Some?
  {
    Move(p.payee.value, Referral, true, p.commission, Some(ch.spinId))
  }

  function HouseDelta(req: Request, p: Plan): int {
    req.stake - p.payout - p.rake - p.commission
  }

  /******* The tables after each statement *******/

  predicate RowsPresent(b: DB, req: Request, p: Plan) {
    && req.user in b.wallets
    && (p.payee.Some? ==> p.payee.value in b.wallets)
    && (p.commission > 0 ==> p.payee.Some?)
  }

  function AfterInsert(b: DB, req: Request, p: Plan, ch: Choices): DB {
    b.(spins := b.spins[ch.spinId := RecordOf(req, p)])
  }

  function AfterBet(b: DB, req: Request, p: Plan, ch: Choices): DB
    requires RowsPresent(b, req, p)
  {
    Moved(AfterInsert(b, req, p, ch), BetMove(req, ch), ch.betId)
  }

  function AfterWin(b: DB, req: Request, p: Plan, ch: Choices): DB
    requires RowsPresent(b, req, p)
  {
    var d := AfterBet(b, req, p, ch);
    if p.payout > 0 then Moved(d, WinMove(req, p, ch), ch.winId) else d
  }

  function AfterHouse(b: DB, req: Request, p: Plan, ch: Choices): DB
    requires RowsPresent(b, req, p)
  {
    var d := AfterWin(b, req, p, ch);
    if req.isReal then HouseMoved(d, HouseDelta(req, p), p.rake) else d
  }

  function AfterRef(b: DB, req: Request, p: Plan, ch: Choices): DB
    requires RowsPresent(b, req, p)
  {
    var d := AfterHouse(b, req, p, ch);
    if p.commission > 0 then Moved(d, RefMove(p, ch), ch.refId) else d
  }

  /** The first refusal among the money movements; Spin turns an overdraft into its own error. */
  function BetError(b: DB, req: Request, p: Plan, ch: Choices): Option<Error>
    requires RowsPresent(b, req, p)
  {
    match MoveError(AfterInsert(b, req, p, ch), BetMove(req, ch))
    case Some(WalletInsufficient) => Some(InsufficientFunds(b.wallets[req.user].Spendable(req.isReal)))
    case e => e
  }

  function WinError(b: DB, req: Request, p: Plan, ch: Choices): Option<Error>
    requires RowsPresent(b, req, p)
  {
    if p.payout > 0 then MoveError(AfterBet(b, req, p, ch), WinMove(req, p, ch)) else None
  }

  function BankError(b: DB, req: Request, p: Plan, ch: Choices): Option<Error>
    requires RowsPresent(b, req, p)
  {
    if req.isReal then HouseError(AfterWin(b, req, p, ch).house, HouseDelta(req, p), p.rake) else None
  }

  function RefError(b: DB, req: Request, p: Plan, ch: Choices): Option<Error>
    requires RowsPresent(b, req, p)
  {
    if p.commission > 0 then MoveError(AfterHouse(b, req, p, ch), RefMove(p, ch)) else None
  }

  function MoneyError(b: DB, req: Request, p: Plan, ch: Choices): Option<Error>
    requires RowsPresent(b, req, p)
  {
    if BetError(b, req, p, ch).Some? then BetError(b, req, p, ch)
    else if WinError(b, req, p, ch).Some? then WinError(b, req, p, ch)
    else if BankError(b, req, p, ch).Some? then BankError(b, req, p, ch)
    else RefError(b, req, p, ch)
  }

  /** The refusals before the draw. */
  function Veto(c: Config, db: DB, req: Request): Option<Error> {
    if req.stake < c.minStake then Some(StakeTooSmall(c.minStake))
    else if req.stake > c.maxStake then Some(StakeTooLarge(c.maxStake))
    else if req.user !in db.users || !req.active then Some(UserNotFound)
    else
      var payee := Payee(c, db.users, req);
      if req.user !in db.wallets then Some(NoWallet(req.user))
      else if payee.Some? && payee.value !in db.wallets then Some(NoWallet(payee.value))
      else
        var funds := db.wallets[req.user].Spendable(req.isReal);
        if funds < req.stake then Some(InsufficientFunds(funds))
        else if req.isReal && db.house.bankroll < MaxExposure(MaxMult(c.wheel), req.stake) then
          Some(StakeExceedsBank(MaxAffordableStake(MaxMult(c.wheel), db.house.bankroll)))
        else None
  }

  function ResultOf(funds: int, req: Request, p: Plan, spinId: nat): SpinResult {
    SpinResult(spinId, p.segment, p.mult, req.stake, p.payout, p.payout - req.stake,
               funds - req.stake + (if p.payout > 0 then p.payout else 0), req.isReal)
  }

  /** The whole of Spin, run alone: `entropy` is false when the random source fails. */
  function AtomicSpin(c: Config, db: DB, req: Request, entropy: bool, ch: Choices): Result<(DB, SpinResult), Error> {
    if Veto(c, db, req).Some? then Err(Veto(c, db, req).value)
    else if !entropy then Err(EntropyUnavailable)
    else if Select(TableFor(c, req.isReal), ch.word % WEIGHT_TOTAL) == None then Err(FellThrough)
    else
      var p := MakePlan(c, req, Payee(c, db.users, req), ch.word);
      if !SpinChecks(RecordOf(req, p)) then Err(RecordRejected)
      else if Taken(db.spins, req.user, req.clientRef) then Err(DuplicateSpin)
      else if MoneyError(db, req, p, ch).Some? then Err(MoneyError(db, req, p, ch).value)
      else Ok((AfterRef(db, req, p, ch), ResultOf(db.wallets[req.user].Spendable(req.isReal), req, p, ch.spinId)))
  }

  /******* What a plan is worth *******/

  lemma PlanBounds(c: Config, req: Request, payee: Option<nat>, word: nat)
    requires ValidConfig(c) && c.minStake <= req.stake <= c.maxStake
    ensures Select(TableFor(c, req.isReal), word % WEIGHT_TOTAL).Some?
    ensures var p := MakePlan(c, req, payee, word);
            && 1 <= p.segment <= 12 && 0 <= p.mult <= MaxMult(c.wheel)
            && p.payout == req.stake * p.mult / 10000
            && 0 <= p.payout <= MaxExposure(MaxMult(c.wheel), req.stake)
            && 0 <= p.rake && 0 <= p.commission && p.rake + p.commission <= req.stake
            && SpinChecks(RecordOf(req, p))
    ensures var p := MakePlan(c, req, payee, word);
            && p.rake == (if req.isReal then req.stake * c.rakeBP / 10000 else 0)
            && p.commission == (if req.isReal && payee.Some? then req.stake * c.referralBP / 10000 else 0)
  {
    var t := TableFor(c, req.isReal);
    NoFallThrough(t, word % WEIGHT_TOTAL);
    var i := Select(t, word % WEIGHT_TOTAL).value;
    assert t[i] in t;
    assert t[i].multBP == c.wheel[i].multBP;
    PayoutCovered(MaxMult(c.wheel), req.stake, t[i].multBP);
    SmallerShare(req.stake, c.maxStake, c.rakeBP);
    SmallerShare(req.stake, c.maxStake, c.referralBP);
    SpinArithmeticFits(MaxMult(c.wheel), req.stake, t[i].multBP, c.rakeBP, c.referralBP);
    hide Payout, Select, WeightSum, Weighted, MaxExposure, MaxSafeStake, MaxMult;
  }

  /** The draw is the word's alone. Which segment is recorded, and with which multiplier, depends on the word and on
      whether the money is real: not on the player, the stake, the bankroll or anything else in the tables. */
  lemma WordDecides(c: Config, db: DB, req: Request, ch: Choices)
    requires ValidConfig(c) && AtomicSpin(c, db, req, true, ch).Ok?
    ensures var (after, r) := AtomicSpin(c, db, req, true, ch).value;
            var t := if req.isReal then c.wheel else c.demo;
            && 1 <= r.segment <= 12 && Owns(t, r.segment - 1, ch.word % WEIGHT_TOTAL) && r.mult == t[r.segment - 1].multBP
            && ch.spinId in after.spins && after.spins[ch.spinId].segment == r.segment && after.spins[ch.spinId].mult == r.mult
  {
    assert ValidTables(c.wheel, c.demo, c.rtpBP, c.demoRtpBP);
    hide *;
    SpinRecord(c, db, req, ch);
    PlanIsOwned(c, req, Payee(c, db.users, req), ch.word);
    IsWheelOrDemo(c, req);
  }

  lemma IsWheelOrDemo(c: Config, req: Request)
    ensures TableFor(c, req.isReal) == if req.isReal then c.wheel else c.demo
  {
  }

  /** What a successful spin puts on record and answers. */
  lemma SpinRecord(c: Config, db: DB, req: Request, ch: Choices)
    requires AtomicSpin(c, db, req, true, ch).Ok?
    ensures req.user in db.users
    ensures var (after, r) := AtomicSpin(c, db, req, true, ch).value;
            var p := MakePlan(c, req, Payee(c, db.users, req), ch.word);
            && after.spins == db.spins[ch.spinId := RecordOf(req, p)] && r.segment == p.segment && r.mult == p.mult
            && after.spins[ch.spinId].user == req.user && after.spins[ch.spinId].clientRef == req.clientRef
            && after.spins[ch.spinId].segment == p.segment && after.spins[ch.spinId].mult == p.mult
  {
    hide AtomicSpin, MoneyError, Payee, RowsPresent;
    SuccessIsPlan(c, db, req, ch);
    var p := MakePlan(c, req, Payee(c, db.users, req), ch.word);
    assert AfterRef(db, req, p, ch).spins == db.spins[ch.spinId := RecordOf(req, p)];
    hide AfterRef, MakePlan;
  }

  lemma PlanIsOwned(c: Config, req: Request, payee: Option<nat>, word: nat)
    requires ValidTables(c.wheel, c.demo, c.rtpBP, c.demoRtpBP)
    ensures var p, t := MakePlan(c, req, payee, word), TableFor(c, req.isReal);
            1 <= p.segment <= 12 && Owns(t, p.segment - 1, word % WEIGHT_TOTAL) && p.mult == t[p.segment - 1].multBP
  {
    var t := TableFor(c, req.isReal);
    NoFallThrough(t, word % WEIGHT_TOTAL);
    SelectIsOwner(t, word % WEIGHT_TOTAL, Select(t, word % WEIGHT_TOTAL).value);
    hide Owns, Select, WeightSum, Weighted;
  }

  /** The balances no transaction ever leaves negative. */
  predicate Solvent(db: DB) {
    && db.house.bankroll >= 0 && db.house.rake >= 0 && IsInt64(db.house.bankroll) && IsInt64(db.house.rake)
    && forall u | u in db.wallets ::
         var w := db.wallets[u];
         && w.realCents >= 0 && w.demoCents >= 0 && w.heldCents >= 0
         && IsInt64(w.realCents) && IsInt64(w.demoCents) && IsInt64(w.heldCents)
  }

  /** What the checks before the draw establish about the plan, whatever word is drawn. */
  predicate Admitted(db: DB, req: Request, p: Plan) {
    && RowsPresent(db, req, p) && p.payee != Some(req.user)
    && 0 < req.stake <= db.wallets[req.user].Spendable(req.isReal)
    && 0 <= p.payout && 0 <= p.rake && 0 <= p.commission && p.rake + p.commission <= req.stake
    && (req.isReal ==> p.payout <= db.house.bankroll)
    && (!req.isReal ==> p.payee == None && p.rake == 0 && p.commission == 0)
  }

  lemma AdmittedPlan(c: Config, db: DB, req: Request, word: nat)
    requires ValidConfig(c) && Veto(c, db, req) == None
    ensures Admitted(db, req, MakePlan(c, req, Payee(c, db.users, req), word))
  {
    PlanBounds(c, req, Payee(c, db.users, req), word);
  }

  /** Each movement of an admitted plan fails exactly when its result does not fit a bigint. */
  lemma MoneyErrorsExact(db: DB, req: Request, p: Plan, ch: Choices)
    requires Solvent(db) && Admitted(db, req, p)
    ensures BetError(db, req, p, ch) == None
    ensures WinError(db, req, p, ch) ==
            if IsInt64(db.wallets[req.user].Spendable(req.isReal) - req.stake + p.payout) then None else Some(OutOfRange)
    ensures BankError(db, req, p, ch) ==
            if req.isReal ==> IsInt64(db.house.bankroll + HouseDelta(req, p)) && IsInt64(db.house.rake + p.rake)
            then None else Some(OutOfRange)
    ensures RefError(db, req, p, ch) ==
            if p.commission > 0 ==> IsInt64(db.wallets[p.payee.value].realCents + p.commission)
            then None else Some(OutOfRange)
  {
  }

  /** Admission control suffices. Once the checks before the draw pass, whatever word is drawn, the only
      movement that can still fail is one whose result does not fit a bigint: neither the inner
      ErrInsufficientFunds nor ErrBankrollExhausted can be reached. */
  lemma AdmissionSuffices(c: Config, db: DB, req: Request, ch: Choices)
    requires ValidConfig(c) && Solvent(db) && Veto(c, db, req) == None
    ensures var p := MakePlan(c, req, Payee(c, db.users, req), ch.word);
            && RowsPresent(db, req, p)
            && BetError(db, req, p, ch) == None
            && WinError(db, req, p, ch) in {None, Some(OutOfRange)}
            && BankError(db, req, p, ch) in {None, Some(OutOfRange)}
            && RefError(db, req, p, ch) in {None, Some(OutOfRange)}
            && (req.isReal ==> 0 <= db.house.bankroll + HouseDelta(req, p))
  {
    AdmittedPlan(c, db, req, ch.word);
    MoneyErrorsExact(db, req, MakePlan(c, req, Payee(c, db.users, req), ch.word), ch);
  }

  /** With entropy, an admitted spin under a fresh reference succeeds exactly when its results fit a bigint. */
  lemma SpinSucceeds(c: Config, db: DB, req: Request, ch: Choices)
    requires ValidConfig(c) && Solvent(db)
    ensures AtomicSpin(c, db, req, true, ch).Ok? <==>
              && Veto(c, db, req) == None
              && !Taken(db.spins, req.user, req.clientRef)
              && var p := MakePlan(c, req, Payee(c, db.users, req), ch.word);
                 && IsInt64(db.wallets[req.user].Spendable(req.isReal) - req.stake + p.payout)
                 && (req.isReal ==> IsInt64(db.house.bankroll + HouseDelta(req, p)) && IsInt64(db.house.rake + p.rake))
                 && (p.commission > 0 ==> IsInt64(db.wallets[p.payee.value].realCents + p.commission))
  {
    hide *;
    if Veto(c, db, req) == None {
      AfterVeto(c, db, req, ch);
      AdmittedPlan(c, db, req, ch.word);
      SucceedsWhenFits(db, req, MakePlan(c, req, Payee(c, db.users, req), ch.word), ch);
    } else {
      Vetoed(c, db, req, ch);
    }
  }

  lemma Vetoed(c: Config, db: DB, req: Request, ch: Choices)
    requires Veto(c, db, req).Some?
    ensures AtomicSpin(c, db, req, true, ch).Err?
  {
    hide Veto;
  }

  /** Past the veto only the reference and the money can still stop a spin. */
  lemma AfterVeto(c: Config, db: DB, req: Request, ch: Choices)
    requires ValidConfig(c) && Veto(c, db, req) == None
    ensures req.user in db.users
    ensures var p := MakePlan(c, req, Payee(c, db.users, req), ch.word);
            && RowsPresent(db, req, p)
            && (AtomicSpin(c, db, req, true, ch).Ok? <==>
                  !Taken(db.spins, req.user, req.clientRef) && MoneyError(db, req, p, ch) == None)
  {
    hide *;
    VetoRows(c, db, req, ch.word);
    WithinLimits(c, db, req);
    PlanBounds(c, req, Payee(c, db.users, req), ch.word);
    WhatIsLeft(c, db, req, ch);
  }

  lemma WhatIsLeft(c: Config, db: DB, req: Request, ch: Choices)
    requires Veto(c, db, req) == None && req.user in db.users
    requires Select(TableFor(c, req.isReal), ch.word % WEIGHT_TOTAL).Some?
    requires var p := MakePlan(c, req, Payee(c, db.users, req), ch.word);
             SpinChecks(RecordOf(req, p)) && RowsPresent(db, req, p)
    ensures AtomicSpin(c, db, req, true, ch).Ok? <==>
            && !Taken(db.spins, req.user, req.clientRef)
            && MoneyError(db, req, MakePlan(c, req, Payee(c, db.users, req), ch.word), ch) == None
  {
    hide Veto, MakePlan, Payee, Select, SpinChecks, Taken, AfterRef, MoneyError, RowsPresent;
  }

  /** The rows a plan needs are there. */
  lemma VetoRows(c: Config, db: DB, req: Request, word: nat)
    requires Veto(c, db, req) == None
    ensures req.user in db.users && RowsPresent(db, req, MakePlan(c, req, Payee(c, db.users, req), word))
  {
    hide Payout, MaxExposure, Select, MaxMult;
  }

  lemma SucceedsWhenFits(db: DB, req: Request, p: Plan, ch: Choices)
    requires Solvent(db) && Admitted(db, req, p)
    ensures MoneyError(db, req, p, ch) == None <==>
              && IsInt64(db.wallets[req.user].Spendable(req.isReal) - req.stake + p.payout)
              && (req.isReal ==> IsInt64(db.house.bankroll + HouseDelta(req, p)) && IsInt64(db.house.rake + p.rake))
              && (p.commission > 0 ==> IsInt64(db.wallets[p.payee.value].realCents + p.commission))
  {
    hide Solvent, BetError, WinError, BankError, RefError;
    MoneyErrorsExact(db, req, p, ch);
  }

  lemma WithinLimits(c: Config, db: DB, req: Request)
    requires Veto(c, db, req) == None
    ensures req.user in db.users && req.user in db.wallets && c.minStake <= req.stake <= c.maxStake
  {
  }

  function BetRow(db: DB, req: Request, ch: Choices): Row
    requires req.user in db.wallets
  {
    Row(ch.betId, req.user, Bet, req.isReal, -req.stake, db.wallets[req.user].Spendable(req.isReal) - req.stake,
        Some(ch.spinId))
  }

  function WinRows(db: DB, req: Request, p: Plan, ch: Choices): seq<Row>
    requires req.user in db.wallets
  {
    if p.payout > 0 then
      [Row(ch.winId, req.user, Win, req.isReal, p.payout,
           db.wallets[req.user].Spendable(req.isReal) - req.stake + p.payout, Some(ch.spinId))]
    else []
  }

  function RefRows(db: DB, p: Plan, ch: Choices): seq<Row>
    requires p.commission > 0 ==> p.payee.Some? && p.payee.value in db.wallets
  {
    if p.commission > 0 then
      [Row(ch.refId, p.payee.value, Referral, true, p.commission,
           db.wallets[p.payee.value].realCents + p.commission, Some(ch.spinId))]
    else []
  }

  /** The rows a spin appends. */
  function SpinRows(db: DB, req: Request, p: Plan, ch: Choices): seq<Row>
    requires RowsPresent(db, req, p)
  {
    [BetRow(db, req, ch)] + WinRows(db, req, p, ch) + RefRows(db, p, ch)
  }

  /** The four statements of a plan added up, table by table. */
  ghost predicate PlanApplied(db: DB, after: DB, req: Request, p: Plan, ch: Choices)
    requires RowsPresent(db, req, p)
  {
    && after.users == db.users && after.topups == db.topups
    && after.wallets.Keys == db.wallets.Keys
    && (forall u | u in db.wallets && u != req.user && p.payee != Some(u) :: after.wallets[u] == db.wallets[u])
    && after.wallets[req.user] == db.wallets[req.user].Credited(req.isReal, p.payout - req.stake)
    && (p.payee.Some? ==> after.wallets[p.payee.value] == db.wallets[p.payee.value].Credited(true, p.commission))
    && after.house == (if req.isReal then House(db.house.bankroll + HouseDelta(req, p), db.house.rake + p.rake)
                       else db.house)
    && after.spins == db.spins[ch.spinId := RecordOf(req, p)]
    && after.ledger == db.ledger + SpinRows(db, req, p, ch)
  }

  lemma StatementsAddUp(db: DB, req: Request, p: Plan, ch: Choices)
    requires RowsPresent(db, req, p) && p.payee != Some(req.user) && p.payout >= 0 && p.commission >= 0
    ensures PlanApplied(db, AfterRef(db, req, p, ch), req, p, ch)
  {
    var win, house := AfterWin(db, req, p, ch), AfterHouse(db, req, p, ch);
    PlayerMoved(db, req, p, ch);
    assert house.wallets == win.wallets && house.ledger == win.ledger;
    hide AfterWin;
    if p.commission == 0 && p.payee.Some? {
      assert db.wallets[p.payee.value].Credited(true, 0) == db.wallets[p.payee.value];
    }
  }

  /** The bet and the win together. */
  lemma PlayerMoved(db: DB, req: Request, p: Plan, ch: Choices)
    requires RowsPresent(db, req, p) && p.payout >= 0
    ensures var win := AfterWin(db, req, p, ch);
            && win.users == db.users && win.topups == db.topups && win.house == db.house
            && win.wallets == db.wallets[req.user := db.wallets[req.user].Credited(req.isReal, p.payout - req.stake)]
            && win.spins == db.spins[ch.spinId := RecordOf(req, p)]
            && win.ledger == db.ledger + ([BetRow(db, req, ch)] + WinRows(db, req, p, ch))
  {
    var bet, win := AfterBet(db, req, p, ch), AfterWin(db, req, p, ch);
    assert win.wallets[req.user] == db.wallets[req.user].Credited(req.isReal, p.payout - req.stake);
  }

  lemma StillSolvent(db: DB, after: DB, req: Request, p: Plan, ch: Choices)
    requires Solvent(db) && Admitted(db, req, p) && MoneyError(db, req, p, ch) == None
    requires PlanApplied(db, after, req, p, ch)
    ensures Solvent(after)
  {
    MoneyErrorsExact(db, req, p, ch);
    forall u | u in after.wallets
      ensures var w := after.wallets[u];
              w.realCents >= 0 && w.demoCents >= 0 && IsInt64(w.realCents) && IsInt64(w.demoCents)
              && w.heldCents == db.wallets[u].heldCents
    {
    }
  }

  /** The effect of a successful spin, and what the player is told about it. */
  lemma SpinEffect(c: Config, db: DB, req: Request, ch: Choices)
    requires ValidConfig(c) && Solvent(db) && AtomicSpin(c, db, req, true, ch).Ok?
    ensures var (after, r) := AtomicSpin(c, db, req, true, ch).value;
            var p := MakePlan(c, req, Payee(c, db.users, req), ch.word);
            && Admitted(db, req, p) && after == AfterRef(db, req, p, ch)
            && PlanApplied(db, after, req, p, ch) && Solvent(after)
            && r.balance == after.wallets[req.user].Spendable(req.isReal) && r.net == r.payout - r.stake
  {
    var p := MakePlan(c, req, Payee(c, db.users, req), ch.word);
    AdmittedPlan(c, db, req, ch.word);
    SuccessIsPlan(c, db, req, ch);
    hide Solvent, ValidConfig, AtomicSpin, MakePlan, AfterRef, MoneyError;
    StatementsAddUp(db, req, p, ch);
    StillSolvent(db, AfterRef(db, req, p, ch), req, p, ch);
  }

  /** What a success leaves behind, in terms of its plan. */
  lemma SuccessIsPlan(c: Config, db: DB, req: Request, ch: Choices)
    requires AtomicSpin(c, db, req, true, ch).Ok?
    ensures Veto(c, db, req) == None && req.user in db.users && req.user in db.wallets
    ensures var p := MakePlan(c, req, Payee(c, db.users, req), ch.word);
            && RowsPresent(db, req, p) && MoneyError(db, req, p, ch) == None
            && AtomicSpin(c, db, req, true, ch).value ==
               (AfterRef(db, req, p, ch), ResultOf(db.wallets[req.user].Spendable(req.isReal), req, p, ch.spinId))
  {
    hide MoneyError, AfterRef, SpinChecks, Taken;
  }
}

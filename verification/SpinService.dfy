/** Service.Spin statement by statement (internal/game/spin.go), and proof that it is the atomic spin. */
module SpinService {
  import opened Basics
  import opened Wheel
  import opened StakeCap
  import opened Schema
  import opened Movements
  import opened Spin
  import opened Machine
  import opened WalletStore
  import opened Transactions
  import opened Integrity
  import opened SpinRuns

  /** The ids a spin run alone draws: nextval in the order of its inserts. */
  function ChoicesFrom(c: Config, db: DB, seqs: Seqs, req: Request, word: nat): Choices {
    var wins := req.user in db.users && MakePlan(c, req, Payee(c, db.users, req), word).payout > 0;
    Choices(word, seqs.spin, seqs.row, seqs.row + 1, seqs.row + (if wins then 2 else 1), 0)
  }

  /** The answer of GET /v1/game/config. */
  datatype Advertised = Advertised(
    segments: seq<Segment>, rtpBP: int, demoRtpBP: int, minStake: int, maxStake: int, maxMultiplier: int)

  class Service {
    const pool: Database
    const c: Config

    constructor (pool: Database, c: Config)
      ensures this.pool == pool && this.c == c
    {
      this.pool, this.c := pool, c;
    }

    /** The real wheel, both returns, and the stakes now admissible: the highest is the lower of the ceiling and what the
        bankroll can cover. The practice return is the one its table pays. */
    method Config() returns (r: Advertised)
      ensures |r.segments| == 12
              && forall i | 0 <= i < 12 :: r.segments[i] == Segment(i + 1, c.wheel[i].multBP, c.wheel[i].weight)
      ensures r.rtpBP == c.rtpBP && r.minStake == c.minStake && r.maxMultiplier == MaxMult(c.wheel)
      ensures ValidTable(c.demo, c.demoRtpBP) && SmallMultipliers(c.demo) ==> r.demoRtpBP == c.demoRtpBP
      ensures r.maxStake <= c.maxStake && r.maxStake <= MaxAffordableStake(r.maxMultiplier, pool.committed.house.bankroll)
      ensures r.maxStake == c.maxStake || r.maxStake == MaxAffordableStake(r.maxMultiplier, pool.committed.house.bankroll)
      ensures r.maxStake == AdvertisedMax(MaxMult(c.wheel), c.maxStake, pool.committed.house.bankroll)
    {
      var maxStake := c.maxStake;
      var top := MaxMultBP(c.wheel);
      var afford := MaxAffordableStake(top, pool.committed.house.bankroll);
      if afford < maxStake {
        maxStake := afford;
      }
      var segments := Segments(c.wheel);
      var demoRTP := RTPBP(c.demo);
      if SmallMultipliers(c.demo) {
        AcceptedIsValid(c.demo, c.demoRtpBP);
      }
      return Advertised(segments, c.rtpBP, demoRTP, c.minStake, maxStake, top);
    }

    method FindByClientRef(user: nat, clientRef: string) returns (r: Option<SpinResult>)
      ensures Answers(pool.committed, user, clientRef, r)
    {
      var db := pool.committed;
      if user !in db.wallets || !Taken(db.spins, user, clientRef) {
        return None;
      }
      var id :| id in db.spins && db.spins[id].user == user && db.spins[id].clientRef == clientRef;
      var s := db.spins[id];
      return Some(SpinResult(id, s.segment, s.mult, s.stake, s.payout, s.payout - s.stake,
                             db.wallets[user].Spendable(s.isReal), s.isReal));
    }

    /** Who is playing and who earns commission; the locks, wallets first, then the house; admission control. */
    method Admit(tx: Transaction, req: Request) returns (r: Result<(Option<nat>, int), Error>)
      modifies tx`locks
      ensures tx.View() == old(tx.View())
      ensures match r
              case Err(e) => Veto(c, tx.View(), req) == Some(e)
              case Ok((payee, funds)) =>
                && Veto(c, tx.View(), req) == None && payee == Payee(c, tx.users, req)
                && funds == tx.wallets[req.user].Spendable(req.isReal)
                && tx.locks == old(tx.locks) + WalletRows(InOrder([req.user] + Optional(payee), tx.wallets))
                               + if req.isReal then [HouseRow] else []
    {
      if req.stake < c.minStake {
        return Err(StakeTooSmall(c.minStake));
      }
      if req.stake > c.maxStake {
        return Err(StakeTooLarge(c.maxStake));
      }
      if req.user !in tx.users || !req.active {
        return Err(UserNotFound);
      }
      var payee := Payee(c, tx.users, req);
      var ids := [req.user] + Optional(payee);
      var balances := tx.Lock(ids);
      MissingOfTwo(req.user, payee, tx.wallets);
      if balances.Err? {
        return Err(balances.error);
      }
      var funds := balances.value[req.user].Spendable(req.isReal);
      if funds < req.stake {
        return Err(InsufficientFunds(funds));
      }
      if req.isReal {
        var house := tx.HouseLock();
        var top := MaxMultBP(c.wheel);
        if house.bankroll < MaxExposure(top, req.stake) {
          return Err(StakeExceedsBank(MaxAffordableStake(top, house.bankroll)));
        }
      }
      return Ok((payee, funds));
    }

    /** INSERT INTO spins ... RETURNING id. */
    method Record(tx: Transaction, req: Request, p: Plan) returns (r: Result<nat, Error>)
      modifies tx`spins, tx.pool`seqs
      ensures !SpinChecks(RecordOf(req, p)) ==> r == Err(RecordRejected)
      ensures SpinChecks(RecordOf(req, p)) && Taken(old(tx.spins), req.user, req.clientRef) ==> r == Err(DuplicateSpin)
      ensures !Taken(old(tx.spins), req.user, req.clientRef) && SpinChecks(RecordOf(req, p)) ==>
                && r == Ok(old(tx.pool.seqs.spin))
                && tx.View() == AfterInsert(old(tx.View()), req, p, Choices(0, r.value, 0, 0, 0, 0))
                && tx.pool.seqs == old(tx.pool.seqs).(spin := r.value + 1)
    {
      var id := tx.pool.seqs.spin;
      tx.pool.seqs := tx.pool.seqs.(spin := id + 1);
      if !SpinChecks(RecordOf(req, p)) {
        return Err(RecordRejected);
      }
      if Taken(tx.spins, req.user, req.clientRef) {
        return Err(DuplicateSpin);
      }
      tx.spins := tx.spins[id := RecordOf(req, p)];
      return Ok(id);
    }

    /** The bet and, when there is one, the win. */
    method MoveStake(tx: Transaction, req: Request, p: Plan, spinId: nat, funds: int, ghost b: DB, ghost ch: Choices)
      returns (r: Result<int, Error>)
      requires RowsPresent(b, req, p) && tx.View() == AfterInsert(b, req, p, ch)
      requires funds == b.wallets[req.user].Spendable(req.isReal)
      requires ch.spinId == spinId && ch.betId == tx.pool.seqs.row && ch.winId == ch.betId + 1
      modifies tx`wallets, tx`ledger, tx.pool`seqs
      ensures match r
              case Err(e) =>
                Some(e) == if BetError(b, req, p, ch).Some? then BetError(b, req, p, ch) else WinError(b, req, p, ch)
              case Ok(balance) =>
                && BetError(b, req, p, ch) == None && WinError(b, req, p, ch) == None
                && tx.View() == AfterWin(b, req, p, ch)
                && balance == funds - req.stake + (if p.payout > 0 then p.payout else 0)
                && tx.pool.seqs.row == ch.betId + if p.payout > 0 then 2 else 1
    {
      r := tx.Move(Move(req.user, Bet, req.isReal, -req.stake, Some(spinId)));
      if r.Err? {
        return if r.error == WalletInsufficient then Err(InsufficientFunds(funds)) else r;
      }
      assert tx.View() == AfterBet(b, req, p, ch);
      if p.payout > 0 {
        r := tx.Move(Move(req.user, Win, req.isReal, p.payout, Some(spinId)));
      } else {
        r := Ok(funds - req.stake);
      }
    }

    /** The house's side of a real spin, and the commission. */
    method MoveBank(tx: Transaction, req: Request, p: Plan, spinId: nat, ghost b: DB, ghost ch: Choices)
      returns (error: Option<Error>)
      requires RowsPresent(b, req, p) && tx.View() == AfterWin(b, req, p, ch)
      requires ch.spinId == spinId && ch.refId == tx.pool.seqs.row && (!req.isReal ==> p.commission == 0)
      modifies tx`house, tx`wallets, tx`ledger, tx.pool`seqs
      ensures error == if BankError(b, req, p, ch).Some? then BankError(b, req, p, ch) else RefError(b, req, p, ch)
      ensures error == None ==> tx.View() == AfterRef(b, req, p, ch)
    {
      if !req.isReal {
        return None;
      }
      var h := tx.MoveHouse(req.stake - p.payout - p.rake - p.commission, p.rake);
      if h.Err? {
        return Some(h.error);
      }
      assert tx.View() == AfterHouse(b, req, p, ch);
      if p.commission > 0 {
        var r := tx.Move(Move(p.payee.value, Referral, true, p.commission, Some(spinId)));
        if r.Err? {
          return Some(r.error);
        }
      }
      return None;
    }

    /** One round, run alone: it commits what the atomic spin says, or nothing. */
    method Spin(req: Request, word: Option<nat>) returns (r: Result<SpinResult, Error>)
      requires ValidConfig(c) && (word.Some? ==> word.value < WORDS)
      modifies pool
      ensures var w := if word.Some? then word.value else 0;
              var ch := ChoicesFrom(c, old(pool.committed), old(pool.seqs), req, w);
              match AtomicSpin(c, old(pool.committed), req, word.Some?, ch)
              case Ok((after, result)) => r == Ok(result) && pool.committed == after
              case Err(e) => r == Err(e) && pool.committed == old(pool.committed)
    {
      ghost var db, seqs := pool.committed, pool.seqs;
      var tx := new Transaction.Begin(pool);
      var admitted := Admit(tx, req);
      if admitted.Err? {
        return Err(admitted.error);
      }
      var (payee, funds) := admitted.value;
      assert Veto(c, db, req) == None && payee == Payee(c, db.users, req) && RowsPresentFor(db, req, payee);
      hide Veto, MakePlan, Payee, MoneyError, SpinChecks, Taken, AfterRef, ResultOf, Select, ValidConfig, RowsPresentFor;
      var drawn := Draw(req, payee, word);
      if drawn.Err? {
        return Err(drawn.error);
      }
      PlanRows(c, db, req, payee, word.value);
      ghost var ch := ChoicesFrom(c, db, seqs, req, word.value);
      r := Finish(tx, req, drawn.value, funds, ch);
    }

    /** The draw and what it settles. */
    method Draw(req: Request, payee: Option<nat>, word: Option<nat>) returns (r: Result<Plan, Error>)
      requires word.Some? ==> word.value < WORDS
      ensures match r
              case Err(e) =>
                if word == None then e == EntropyUnavailable
                else e == FellThrough && Select(TableFor(c, req.isReal), word.value % WEIGHT_TOTAL) == None
              case Ok(p) =>
                && word.Some? && Select(TableFor(c, req.isReal), word.value % WEIGHT_TOTAL).Some?
                && p == MakePlan(c, req, payee, word.value)
    {
      if word == None {
        return Err(EntropyUnavailable);
      }
      var picked := PickFrom(TableFor(c, req.isReal), word.value);
      if picked == None {
        return Err(FellThrough);
      }
      var (segment, mult) := picked.value;
      var rake := if req.isReal then Payout(req.stake, c.rakeBP) else 0;
      var commission := if req.isReal && payee.Some? then Payout(req.stake, c.referralBP) else 0;
      return Ok(Plan(segment, mult, Payout(req.stake, mult), rake, commission, payee));
    }

    /** From the drawn segment to the commit. */
    method Finish(tx: Transaction, req: Request, p: Plan, funds: int, ghost ch: Choices) returns (r: Result<SpinResult, Error>)
      requires tx.pool == pool && tx.View() == pool.committed && RowsPresent(tx.View(), req, p)
      requires funds == tx.wallets[req.user].Spendable(req.isReal) && (!req.isReal ==> p.commission == 0)
      requires ch.spinId == pool.seqs.spin && ch.betId == pool.seqs.row && ch.winId == ch.betId + 1
      requires ch.refId == ch.betId + if p.payout > 0 then 2 else 1
      modifies pool, tx
      ensures var db := old(pool.committed);
              match r
              case Err(e) =>
                && pool.committed == db
                && Some(e) == if !SpinChecks(RecordOf(req, p)) then Some(RecordRejected)
                              else if Taken(db.spins, req.user, req.clientRef) then Some(DuplicateSpin)
                              else MoneyError(db, req, p, ch)
              case Ok(result) =>
                && !Taken(db.spins, req.user, req.clientRef) && SpinChecks(RecordOf(req, p))
                && MoneyError(db, req, p, ch) == None
                && pool.committed == AfterRef(db, req, p, ch) && result == ResultOf(funds, req, p, ch.spinId)
    {
      ghost var db := pool.committed;
      var id := Record(tx, req, p);
      if id.Err? {
        return Err(id.error);
      }
      var balance := MoveStake(tx, req, p, id.value, funds, db, ch);
      if balance.Err? {
        return Err(balance.error);
      }
      var error := MoveBank(tx, req, p, id.value, db, ch);
      if error.Some? {
        return Err(error.value);
      }
      tx.Commit();
      return Ok(SpinResult(id.value, p.segment, p.mult, req.stake, p.payout, p.payout - req.stake, balance.value, req.isReal));
    }
  }

  /** The ids are fresh, so a round run alone keeps every integrity predicate. */
  lemma RoundKeepsGood(c: Config, db: DB, seqs: Seqs, req: Request, word: nat)
    requires ValidConfig(c) && GoodDB(db) && SeqsAbove(db, seqs)
    ensures var ch := ChoicesFrom(c, db, seqs, req, word);
            && FreshFor(c, db, SpinOp(req), ch)
            && (AtomicSpin(c, db, req, true, ch).Ok? ==> GoodDB(AtomicSpin(c, db, req, true, ch).value.0))
  {
    var ch := ChoicesFrom(c, db, seqs, req, word);
    assert FreshFor(c, db, SpinOp(req), ch);
    if AtomicSpin(c, db, req, true, ch).Ok? {
      hide *;
      SpinKeepsGood(c, db, req, ch);
    }
  }

  /** What FindByClientRef may answer: the recorded spin, with the player's balance of the moment. */
  predicate Answers(db: DB, user: nat, clientRef: string, r: Option<SpinResult>) {
    match r
    case None => user !in db.wallets || !Taken(db.spins, user, clientRef)
    case Some(x) =>
      && user in db.wallets && x.spinId in db.spins
      && var s := db.spins[x.spinId];
         && s.user == user && s.clientRef == clientRef
         && x == SpinResult(x.spinId, s.segment, s.mult, s.stake, s.payout, s.payout - s.stake,
                            db.wallets[user].Spendable(s.isReal), s.isReal)
  }

  predicate RowsPresentFor(db: DB, req: Request, payee: Option<nat>) {
    req.user in db.users && req.user in db.wallets && (payee.Some? ==> payee.value in db.wallets)
  }

  lemma PlanRows(c: Config, db: DB, req: Request, payee: Option<nat>, word: nat)
    requires RowsPresentFor(db, req, payee) && payee == Payee(c, db.users, req)
    ensures var p := MakePlan(c, req, payee, word);
            RowsPresent(db, req, p) && (!req.isReal ==> p.commission == 0)
    ensures ChoicesFrom(c, db, Seqs(0, 0, 0), req, word).refId == if MakePlan(c, req, payee, word).payout > 0 then 2 else 1
  {
  }

  function Optional(payee: Option<nat>): seq<nat> {
    if payee.Some? then [payee.value] else []
  }

  /** Lock names the player before the payee. */
  lemma MissingOfTwo(user: nat, payee: Option<nat>, wallets: map<nat, Wallet>)
    ensures FirstMissing([user] + Optional(payee), wallets) ==
            if user !in wallets then Some(user)
            else if payee.Some? && payee.value !in wallets then payee else None
  {
    var ids := [user] + Optional(payee);
    assert ids[1..] == Optional(payee);
    assert FirstMissing([], wallets) == None;
    assert payee.Some? ==> Optional(payee)[1..] == [];
  }
}

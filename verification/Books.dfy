/** Conservation of money, the house's books and the separation of practice play, over whole runs
    (internal/game/spin.go, internal/wallet/wallet.go, internal/users/users.go). */
module Books {
  import opened Basics
  import opened Schema
  import opened Movements
  import opened Spin
  import opened Transactions
  import opened Integrity
  import opened Machine
  import opened Engine
  import opened MapSums

  /******* Conservation *******/

  ghost function RealAndHeld(w: map<nat, Wallet>): map<nat, int> {
    map u | u in w :: w[u].realCents + w[u].heldCents
  }

  /** All the real money there is: players', held for payout, bankroll and rake. */
  ghost function Wealth(db: DB): int {
    MapSum(RealAndHeld(db.wallets)) + db.house.bankroll + db.house.rake
  }

  lemma WalletWealth(db: DB, after: DB, user: nat, w: Wallet)
    requires user in db.wallets && after.wallets == db.wallets[user := w] && after.house == db.house
    ensures Wealth(after) == Wealth(db) - db.wallets[user].realCents - db.wallets[user].heldCents + w.realCents + w.heldCents
  {
    MapSumPut(RealAndHeld(db.wallets), user, w.realCents + w.heldCents);
    assert RealAndHeld(after.wallets) == RealAndHeld(db.wallets)[user := w.realCents + w.heldCents];
  }

  lemma MoveWealth(db: DB, m: Move, id: nat)
    requires m.user in db.wallets
    ensures Wealth(Moved(db, m, id)) == Wealth(db) + if m.isReal then m.delta else 0
  {
    WalletWealth(db, Moved(db, m, id), m.user, db.wallets[m.user].Credited(m.isReal, m.delta));
  }

  lemma HeldWealth(db: DB, user: nat, delta: int)
    requires user in db.wallets
    ensures Wealth(HeldChanged(db, user, delta)) == Wealth(db) + delta
  {
    WalletWealth(db, HeldChanged(db, user, delta), user, db.wallets[user].(heldCents := db.wallets[user].heldCents + delta));
  }

  /** A spin moves real money between player, referrer and house, and neither makes nor loses any. */
  lemma SpinWealth(db: DB, req: Request, p: Plan, ch: Choices)
    requires Admitted(db, req, p)
    ensures Wealth(AfterRef(db, req, p, ch)) == Wealth(db)
  {
    MoveWealth(AfterInsert(db, req, p, ch), BetMove(req, ch), ch.betId);
    assert Wealth(AfterInsert(db, req, p, ch)) == Wealth(db);
    if p.payout > 0 {
      MoveWealth(AfterBet(db, req, p, ch), WinMove(req, p, ch), ch.winId);
    }
    if p.commission > 0 {
      MoveWealth(AfterHouse(db, req, p, ch), RefMove(p, ch), ch.refId);
    }
  }

  /** The money an operation takes out of the system. */
  function PaidOut(op: Op): int {
    if op.ReleaseOp? then op.amount else 0
  }

  lemma RegisterWealth(db: DB, phone: string, code: string, invite: Option<Invite>, grant: int, uid: nat, id: nat)
    requires uid !in db.wallets && AtomicRegister(db, phone, code, invite, grant, uid, id).Ok?
    ensures Wealth(AtomicRegister(db, phone, code, invite, grant, uid, id).value) == Wealth(db)
  {
    var account := WalletAdded(UserAdded(db, uid, User(phone, code, Referrer(db.users, invite))), uid);
    MapSumPut(RealAndHeld(db.wallets), uid, 0);
    assert RealAndHeld(account.wallets) == RealAndHeld(db.wallets)[uid := 0];
    if grant > 0 {
      MoveWealth(account, GrantMove(uid, grant), id);
    }
  }

  /** Only a released hold takes money out; it takes exactly its amount. */
  lemma AtomicWealth(c: Config, db: DB, op: Op, entropy: bool, ch: Choices)
    requires ValidConfig(c) && Solvent(db) && FreshFor(c, db, op, ch) && Atomic(c, db, op, entropy, ch).Ok?
    ensures Wealth(Atomic(c, db, op, entropy, ch).value) == Wealth(db) - PaidOut(op)
  {
    match op
    case SpinOp(req) =>
      SpinEffect(c, db, req, ch);
      SpinWealth(db, req, MakePlan(c, req, Payee(c, db.users, req), ch.word), ch);
    case TopUpOp(user, now, _, target) =>
      var claimed := Claimed(db, user, now);
      assert Wealth(claimed) == Wealth(db);
      if TopUpDelta(claimed, user, target) > 0 {
        MoveWealth(claimed, GrantMove(user, TopUpDelta(claimed, user, target)), ch.betId);
      }
    case HoldOp(user, amount, withdrawal) =>
      MoveWealth(db, HoldMove(user, amount, withdrawal), ch.betId);
      HeldWealth(Moved(db, HoldMove(user, amount, withdrawal), ch.betId), user, amount);
    case ReleaseOp(user, amount) => HeldWealth(db, user, -amount);
    case ReverseOp(user, amount, withdrawal) =>
      HeldWealth(db, user, -amount);
      MoveWealth(Released(db, user, amount), ReverseMove(user, amount, withdrawal), ch.betId);
    case RegisterOp(phone, code, invite, grant) =>
      RegisterWealth(db, phone, code, invite, grant, ch.uid, ch.betId);
  }

  function TotalPaidOut(log: seq<Entry>): int {
    if log == [] then 0 else TotalPaidOut(log[..|log| - 1]) + PaidOut(log[|log| - 1].op)
  }

  lemma {:induction false} SerialStaysGood(c: Config, db: DB, log: seq<Entry>)
    requires ValidConfig(c) && GoodDB(db) && SerialRun(c, db, log).Some?
    ensures GoodDB(SerialRun(c, db, log).value)
  {
    if log != [] {
      var before, e := log[..|log| - 1], log[|log| - 1];
      SerialStaysGood(c, db, before);
      AtomicKeepsGood(c, SerialRun(c, db, before).value, e.op, true, e.ch);
    }
  }

  lemma {:induction false} SerialConserves(c: Config, db: DB, log: seq<Entry>)
    requires ValidConfig(c) && GoodDB(db) && SerialRun(c, db, log).Some?
    ensures Wealth(SerialRun(c, db, log).value) == Wealth(db) - TotalPaidOut(log)
  {
    if log != [] {
      var before, e := log[..|log| - 1], log[|log| - 1];
      SerialStaysGood(c, db, before);
      SerialConserves(c, db, before);
      AtomicWealth(c, SerialRun(c, db, before).value, e.op, true, e.ch);
    }
  }

  /** Over any interleaving, real money is what it was at the start less the payouts released. */
  lemma Conservation(c: Config, s0: State, ls: seq<Label>)
    requires ValidConfig(c) && Initial(s0) && Run(c, s0, ls).Some?
    ensures Wealth(Run(c, s0, ls).value.db) == Wealth(s0.db) - TotalPaidOut(Run(c, s0, ls).value.log)
  {
    Serialisable(c, s0, ls);
    SerialConserves(c, s0.db, Run(c, s0, ls).value.log);
  }

  /******* Practice play *******/

  predicate Practice(op: Op) {
    op.TopUpOp? || op.RegisterOp? || (op.SpinOp? && !op.req.isReal)
  }

  ghost predicate RealUntouched(db: DB, after: DB) {
    && after.house == db.house
    && (forall u | u in db.wallets :: u in after.wallets
          && after.wallets[u].realCents == db.wallets[u].realCents && after.wallets[u].heldCents == db.wallets[u].heldCents)
    && (forall u | u in after.wallets && u !in db.wallets :: after.wallets[u].realCents == 0 && after.wallets[u].heldCents == 0)
    && db.ledger <= after.ledger
    && forall i | |db.ledger| <= i < |after.ledger| ::
         !after.ledger[i].isReal && after.ledger[i].kind in {DemoGrant, Bet, Win}
  }

  lemma PracticeSpin(db: DB, after: DB, req: Request, p: Plan, ch: Choices)
    requires Admitted(db, req, p) && !req.isReal && PlanApplied(db, after, req, p, ch)
    ensures RealUntouched(db, after)
  {
    var rows := SpinRows(db, req, p, ch);
    assert forall r | r in rows :: !r.isReal && r.kind in {Bet, Win};
    forall i | |db.ledger| <= i < |after.ledger|
      ensures !after.ledger[i].isReal && after.ledger[i].kind in {DemoGrant, Bet, Win}
    {
      assert after.ledger[i] == rows[i - |db.ledger|];
      assert after.ledger[i] in rows;
    }
  }

  /** Nothing done with practice money touches real money, the house or a real-only kind of row. */
  lemma PracticeIsSeparate(c: Config, db: DB, op: Op, entropy: bool, ch: Choices)
    requires ValidConfig(c) && Solvent(db) && Practice(op) && FreshFor(c, db, op, ch)
    requires Atomic(c, db, op, entropy, ch).Ok?
    ensures RealUntouched(db, Atomic(c, db, op, entropy, ch).value)
  {
    match op
    case SpinOp(req) => PracticeRound(c, db, req, entropy, ch);
    case TopUpOp(user, now, cooldown, target) => PracticeTopUp(db, user, now, cooldown, target, ch.betId);
    case RegisterOp(phone, code, invite, grant) => PracticeAccount(db, phone, code, invite, grant, ch.uid, ch.betId);
  }

  lemma PracticeRound(c: Config, db: DB, req: Request, entropy: bool, ch: Choices)
    requires ValidConfig(c) && Solvent(db) && !req.isReal && AtomicSpin(c, db, req, entropy, ch).Ok?
    ensures RealUntouched(db, AtomicSpin(c, db, req, entropy, ch).value.0)
  {
    assert AtomicSpin(c, db, req, entropy, ch) == AtomicSpin(c, db, req, true, ch);
    hide AtomicSpin, ValidConfig, Solvent, RealUntouched, PlanApplied, MakePlan, AfterRef;
    SpinEffect(c, db, req, ch);
    PracticeSpin(db, AtomicSpin(c, db, req, true, ch).value.0, req, MakePlan(c, req, Payee(c, db.users, req), ch.word), ch);
  }

  lemma PracticeTopUp(db: DB, user: nat, now: int, cooldown: int, target: int, id: nat)
    requires AtomicTopUp(db, user, now, cooldown, target, id).Ok?
    ensures RealUntouched(db, AtomicTopUp(db, user, now, cooldown, target, id).value)
  {
    hide AtomicTopUp;
    TopUpEffect(db, user, now, cooldown, target, id);
  }

  lemma PracticeAccount(db: DB, phone: string, code: string, invite: Option<Invite>, grant: int, uid: nat, id: nat)
    requires uid !in db.wallets && AtomicRegister(db, phone, code, invite, grant, uid, id).Ok?
    ensures RealUntouched(db, AtomicRegister(db, phone, code, invite, grant, uid, id).value)
  {
    hide AtomicRegister;
    RegisterEffect(db, phone, code, invite, grant, uid, id);
  }

  /******* The house's books over many real spins *******/

  ghost function PlanAt(c: Config, db: DB, e: Entry): Plan
    requires e.op.SpinOp?
  {
    MakePlan(c, e.op.req, if e.op.req.user in db.users then Payee(c, db.users, e.op.req) else None, e.ch.word)
  }

  predicate RealSpin(e: Entry) {
    e.op.SpinOp? && e.op.req.isReal
  }

  /** The stakes of the real spins, in commit order. */
  function RealStakes(log: seq<Entry>): seq<int> {
    if log == [] then [] else
      var e := log[|log| - 1];
      RealStakes(log[..|log| - 1]) + if RealSpin(e) then [e.op.req.stake] else []
  }

  /** The stakes among them that earned somebody commission. */
  ghost function ReferredStakes(c: Config, db: DB, log: seq<Entry>): seq<int>
    requires SerialRun(c, db, log).Some?
  {
    if log == [] then [] else
      var before, e := log[..|log| - 1], log[|log| - 1];
      ReferredStakes(c, db, before)
      + if RealSpin(e) && PlanAt(c, SerialRun(c, db, before).value, e).payee.Some? then [e.op.req.stake] else []
  }

  ghost function RealPayouts(c: Config, db: DB, log: seq<Entry>): int
    requires SerialRun(c, db, log).Some?
  {
    if log == [] then 0 else
      var before, e := log[..|log| - 1], log[|log| - 1];
      RealPayouts(c, db, before) + if RealSpin(e) then PlanAt(c, SerialRun(c, db, before).value, e).payout else 0
  }

  function SumOf(xs: seq<int>): int {
    if xs == [] then 0 else SumOf(xs[..|xs| - 1]) + xs[|xs| - 1]
  }

  /** Rounded down stake by stake, as the code does it. */
  function SumOfShares(xs: seq<int>, bp: int): int {
    if xs == [] then 0 else SumOfShares(xs[..|xs| - 1], bp) + xs[|xs| - 1] * bp / 10000
  }

  lemma SharesAppend(xs: seq<int>, x: int, bp: int)
    ensures SumOf(xs + [x]) == SumOf(xs) + x && SumOfShares(xs + [x], bp) == SumOfShares(xs, bp) + x * bp / 10000
  {
    assert (xs + [x])[..|xs|] == xs;
  }

  lemma HouseAfterSpin(c: Config, db: DB, req: Request, ch: Choices)
    requires ValidConfig(c) && Solvent(db) && AtomicSpin(c, db, req, true, ch).Ok?
    ensures req.user in db.users
    ensures var p := MakePlan(c, req, Payee(c, db.users, req), ch.word);
            var house := AtomicSpin(c, db, req, true, ch).value.0.house;
            if req.isReal then
              && house == House(db.house.bankroll + req.stake - p.payout - p.rake - p.commission, db.house.rake + p.rake)
              && p.rake == req.stake * c.rakeBP / 10000
              && p.commission == (if p.payee.Some? then req.stake * c.referralBP / 10000 else 0)
            else house == db.house
  {
    hide AtomicSpin, ValidConfig, Admitted, Solvent, MoneyError;
    SuccessIsPlan(c, db, req, ch);
    WithinLimits(c, db, req);
    hide Veto, MakePlan;
    SpinEffect(c, db, req, ch);
    PlanBounds(c, req, Payee(c, db.users, req), ch.word);
    PayeeKept(c, req, Payee(c, db.users, req), ch.word);
    hide Payee, AfterRef, RowsPresent;
  }

  lemma PayeeKept(c: Config, req: Request, payee: Option<nat>, word: nat)
    ensures MakePlan(c, req, payee, word).payee == payee
  {
  }

  lemma HouseAfterOther(c: Config, db: DB, op: Op, ch: Choices)
    requires !op.SpinOp? && Atomic(c, db, op, true, ch).Ok?
    ensures Atomic(c, db, op, true, ch).value.house == db.house
  {
  }

  lemma {:induction false} SerialHouseBooks(c: Config, db: DB, log: seq<Entry>)
    requires ValidConfig(c) && GoodDB(db) && SerialRun(c, db, log).Some?
    ensures var after := SerialRun(c, db, log).value;
            && after.house.bankroll == db.house.bankroll + SumOf(RealStakes(log)) - RealPayouts(c, db, log)
               - SumOfShares(RealStakes(log), c.rakeBP) - SumOfShares(ReferredStakes(c, db, log), c.referralBP)
            && after.house.rake == db.house.rake + SumOfShares(RealStakes(log), c.rakeBP)
  {
    if log != [] {
      var before, e := log[..|log| - 1], log[|log| - 1];
      var d := SerialRun(c, db, before).value;
      SerialHouseBooks(c, db, before);
      SerialStaysGood(c, db, before);
      assert Solvent(d);
      if e.op.SpinOp? {
        HouseAfterSpin(c, d, e.op.req, e.ch);
        SharesAppend(RealStakes(before), e.op.req.stake, c.rakeBP);
        SharesAppend(ReferredStakes(c, db, before), e.op.req.stake, c.referralBP);
      } else {
        HouseAfterOther(c, d, e.op, e.ch);
      }
      assert RealStakes(before) + [] == RealStakes(before);
      assert ReferredStakes(c, db, before) + [] == ReferredStakes(c, db, before);
    }
  }

  /** The bankroll over any interleaving: what was staked, less what was paid out, raked and shared. */
  lemma HouseBooks(c: Config, s0: State, ls: seq<Label>)
    requires ValidConfig(c) && Initial(s0) && Run(c, s0, ls).Some?
    ensures var s := Run(c, s0, ls).value;
            && SerialRun(c, s0.db, s.log).Some?
            && s.db.house.bankroll == s0.db.house.bankroll + SumOf(RealStakes(s.log)) - RealPayouts(c, s0.db, s.log)
               - SumOfShares(RealStakes(s.log), c.rakeBP) - SumOfShares(ReferredStakes(c, s0.db, s.log), c.referralBP)
            && s.db.house.rake == s0.db.house.rake + SumOfShares(RealStakes(s.log), c.rakeBP)
  {
    Serialisable(c, s0, ls);
    SerialHouseBooks(c, s0.db, Run(c, s0, ls).value.log);
  }

  /** What rounding each share down leaves in the bankroll: less than a cent a spin, and nothing over one spin. */
  lemma {:induction false} RoundingGap(xs: seq<int>, bp: int)
    ensures 10000 * SumOfShares(xs, bp) <= SumOf(xs) * bp
    ensures SumOf(xs) * bp <= 10000 * SumOfShares(xs, bp) + 9999 * |xs|
    ensures SumOfShares(xs, bp) <= SumOf(xs) * bp / 10000
    ensures xs != [] ==> SumOf(xs) * bp / 10000 - SumOfShares(xs, bp) <= |xs| - 1
  {
    if xs != [] {
      var x, rest := xs[|xs| - 1], xs[..|xs| - 1];
      RoundingGap(rest, bp);
      assert SumOf(xs) * bp == SumOf(rest) * bp + x * bp;
      var y := x * bp;
      assert 10000 * (y / 10000) <= y <= 10000 * (y / 10000) + 9999;
    }
  }
}

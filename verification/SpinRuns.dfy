/** What an interleaved spin knows at each statement (internal/game/spin.go): its own row versions are the
    atomic spin's, so far, applied to the committed rows it holds locks on. */
module SpinRuns {
  import opened Basics
  import opened Wheel
  import opened StakeCap
  import opened Schema
  import opened Movements
  import opened Spin
  import opened Transactions
  import opened Integrity
  import opened Machine
  import opened Fragments

  function WalletLocks(ids: seq<nat>): set<Resource> {
    set u | u in ids :: WalletRow(u)
  }

  /** The locks held from the draw on. */
  function DrawLocks(req: Request, payee: Option<nat>): set<Resource> {
    WalletLocks(LockIds(req.user, payee)) + if req.isReal then {HouseRow} else {}
  }

  function AllLocks(req: Request, payee: Option<nat>): set<Resource> {
    DrawLocks(req, payee) + {SpinKey(req.user, req.clientRef)}
  }

  /** The balances read under lock: still the committed ones. */
  predicate RowsLocked(r: DB, req: Request, payee: Option<nat>) {
    req.user in r.wallets && (payee.Some? ==> payee.value in r.wallets)
  }

  predicate FundsOk(r: DB, req: Request) {
    req.user in r.wallets && req.stake <= r.wallets[req.user].Spendable(req.isReal)
  }

  predicate BankOk(c: Config, r: DB, req: Request) {
    req.isReal ==> r.house.bankroll >= MaxExposure(MaxMult(c.wheel), req.stake)
  }

  /** The facts every statement after the insert can rely on. */
  ghost predicate Recording(c: Config, tx: Tx, req: Request, r: DB, p: Plan) {
    && tx.locks == AllLocks(req, tx.payee)
    && RowsLocked(r, req, tx.payee) && RowsPresent(r, req, p) && FundsOk(r, req) && BankOk(c, r, req)
    && Select(TableFor(c, req.isReal), tx.ch.word % WEIGHT_TOTAL).Some?
    && SpinChecks(RecordOf(req, p)) && p.commission >= 0 && p.payout >= 0
  }

  /** Knowledge about the locked rows, `r` being their committed versions. */
  ghost predicate SpinLocal(c: Config, tx: Tx, req: Request, r: DB) {
    var ids := LockIds(req.user, tx.payee);
    var p, ch := MakePlan(c, req, tx.payee, tx.ch.word), tx.ch;
    match tx.pc
    case Load => tx.locks == {} && tx.frag == r
    case LockNext(k) => k <= |ids| && tx.locks == WalletLocks(ids[..k]) && tx.frag == r
                        && forall i | 0 <= i < k :: ids[i] in r.wallets
    case Funds => tx.locks == WalletLocks(ids) && RowsLocked(r, req, tx.payee) && tx.frag == r
    case Bank => tx.locks == WalletLocks(ids) && RowsLocked(r, req, tx.payee) && tx.frag == r && FundsOk(r, req) && req.isReal
    case Draw =>
      tx.locks == DrawLocks(req, tx.payee) && RowsLocked(r, req, tx.payee) && tx.frag == r && FundsOk(r, req) && BankOk(c, r, req)
    case Insert =>
      tx.locks == DrawLocks(req, tx.payee) && RowsLocked(r, req, tx.payee) && tx.frag == r && FundsOk(r, req) && BankOk(c, r, req)
      && Select(TableFor(c, req.isReal), ch.word % WEIGHT_TOTAL).Some?
    case BetStep => Recording(c, tx, req, r, p) && tx.frag == AfterInsert(r, req, p, ch)
    case WinStep => Recording(c, tx, req, r, p) && tx.frag == AfterBet(r, req, p, ch) && BetError(r, req, p, ch) == None
    case BankStep =>
      Recording(c, tx, req, r, p) && tx.frag == AfterWin(r, req, p, ch) && req.isReal
      && BetError(r, req, p, ch) == None && WinError(r, req, p, ch) == None
    case RefStep =>
      Recording(c, tx, req, r, p) && tx.frag == AfterHouse(r, req, p, ch) && p.commission > 0
      && BetError(r, req, p, ch) == None && WinError(r, req, p, ch) == None && BankError(r, req, p, ch) == None
    case Commit => Recording(c, tx, req, r, p) && tx.frag == AfterRef(r, req, p, ch) && MoneyError(r, req, p, ch) == None
    case _ => false
  }

  predicate Recorded(pc: Pc) {
    pc in {BetStep, WinStep, BankStep, RefStep, Commit}
  }

  /** Knowledge that rests on more than the locked rows, but that no other transaction can invalidate. */
  ghost predicate SpinShared(c: Config, tx: Tx, req: Request, db: DB) {
    && (tx.pc != Load ==>
          && c.minStake <= req.stake <= c.maxStake
          && req.user in db.users && req.active && tx.payee == Payee(c, db.users, req))
    && (Recorded(tx.pc) ==>
          && !Taken(db.spins, req.user, req.clientRef)
          && tx.ch.spinId in tx.frag.spins && tx.ch.spinId !in db.spins && SpinIdsBelow(db, req.user, tx.ch.spinId))
    && (tx.pc in {WinStep, BankStep, RefStep, Commit} ==> RowIdsBelow(db, req.user, tx.ch.betId))
    && (tx.pc in {BankStep, RefStep, Commit} && MakePlan(c, req, tx.payee, tx.ch.word).payout > 0 ==> tx.ch.betId < tx.ch.winId)
    && (tx.pc == Commit && MakePlan(c, req, tx.payee, tx.ch.word).commission > 0 ==>
          tx.payee.Some? && RowIdsBelow(db, tx.payee.value, tx.ch.refId))
  }

  ghost predicate SpinInv(c: Config, tx: Tx, db: DB) {
    tx.op.SpinOp? && SpinLocal(c, tx, tx.op.req, Restrict(db, tx.locks)) && SpinShared(c, tx, tx.op.req, db)
  }

  /******* Others' commits *******/

  lemma SpinUndisturbed(c: Config, tx: Tx, db: DB, db': DB)
    requires SpinInv(c, tx, db) && Unnoticed(db, db', tx)
    ensures SpinInv(c, tx, db')
  {
    var req := tx.op.req;
    if Recorded(tx.pc) {
      LocksOfSpin(c, tx, req, Restrict(db, tx.locks));
    }
  }

  lemma LocksOfSpin(c: Config, tx: Tx, req: Request, r: DB)
    requires SpinLocal(c, tx, req, r) && Recorded(tx.pc)
    ensures WalletRow(req.user) in tx.locks
    ensures tx.payee.Some? ==> WalletRow(tx.payee.value) in tx.locks
    ensures req.isReal ==> HouseRow in tx.locks
  {
    assert tx.locks == AllLocks(req, tx.payee);
    assert req.user in LockIds(req.user, tx.payee);
  }

  /******* Own steps *******/

  ghost predicate SeqsAbove(db: DB, seqs: Seqs) {
    && (forall s | s in db.spins :: s < seqs.spin)
    && (forall u | u in db.users :: u < seqs.user)
    && (forall r | r in db.ledger :: r.id < seqs.row)
  }

  /** The ids a transaction holds were handed out by the sequences. */
  ghost predicate Issued(tx: Tx, seqs: Seqs) {
    && (forall s | s in tx.frag.spins :: s < seqs.spin)
    && (forall u | u in tx.frag.users :: u < seqs.user)
    && (forall r | r in tx.frag.ledger :: r.id < seqs.row)
  }

  lemma RestrictWallet(db: DB, locks: set<Resource>, u: nat)
    requires u in db.wallets
    ensures Restrict(db, locks + {WalletRow(u)}) ==
            Restrict(db, locks).(wallets := Restrict(db, locks).wallets[u := db.wallets[u]])
  {
    var a, b := Restrict(db, locks + {WalletRow(u)}), Restrict(db, locks);
    assert a.wallets == b.wallets[u := db.wallets[u]];
    assert a.topups == b.topups;
  }

  lemma RestrictHouse(db: DB, locks: set<Resource>)
    ensures Restrict(db, locks + {HouseRow}) == Restrict(db, locks).(house := db.house)
  {
    var a, b := Restrict(db, locks + {HouseRow}), Restrict(db, locks);
    assert a.wallets == b.wallets && a.topups == b.topups;
  }

  /** A lock on a key, not a row, brings nothing into the fragment. */
  lemma RestrictKey(db: DB, locks: set<Resource>, key: Resource)
    requires key.SpinKey? || key.PhoneKey? || key.CodeKey?
    ensures Restrict(db, locks + {key}) == Restrict(db, locks)
  {
    var a, b := Restrict(db, locks + {key}), Restrict(db, locks);
    assert a.wallets == b.wallets && a.topups == b.topups;
  }

  lemma StepLoad(c: Config, tx: Tx, db: DB, seqs: Seqs, word: nat, entropy: bool)
    requires SpinInv(c, tx, db) && tx.pc == Load && ExecSpin(c, tx, db, seqs, word, entropy).Goes?
    ensures SpinInv(c, ExecSpin(c, tx, db, seqs, word, entropy).tx, db)
  {
  }

  lemma StepLock(c: Config, tx: Tx, db: DB, seqs: Seqs, word: nat, entropy: bool)
    requires SpinInv(c, tx, db) && tx.pc.LockNext? && ExecSpin(c, tx, db, seqs, word, entropy).Goes?
    requires OwnersExist(db)
    ensures SpinInv(c, ExecSpin(c, tx, db, seqs, word, entropy).tx, db)
  {
    var ids := LockIds(tx.op.req.user, tx.payee);
    if tx.pc.k < |ids| {
      assert ids[tx.pc.k] in db.wallets;
      LockRow(c, tx, db, ids[tx.pc.k]);
      hide SpinInv, LockWallet, LockIds, OwnersExist;
    } else {
      LocksDone(c, tx, db);
      hide SpinInv, LockIds, OwnersExist;
    }
  }

  lemma LockRow(c: Config, tx: Tx, db: DB, u: nat)
    requires SpinInv(c, tx, db) && tx.pc.LockNext? && u in db.wallets
    requires var ids := LockIds(tx.op.req.user, tx.payee); tx.pc.k < |ids| && ids[tx.pc.k] == u
    ensures SpinInv(c, LockWallet(tx, db, u).(pc := LockNext(tx.pc.k + 1)), db)
  {
    var ids, k := LockIds(tx.op.req.user, tx.payee), tx.pc.k;
    RestrictWallet(db, tx.locks, u);
    assert ids[..k + 1] == ids[..k] + [u];
    OneMoreLock(ids[..k], u);
    hide Restrict, WalletLocks, MakePlan, LockIds, Taken, Recording;
  }

  lemma LocksDone(c: Config, tx: Tx, db: DB)
    requires SpinInv(c, tx, db) && tx.pc.LockNext?
    requires tx.pc.k == |LockIds(tx.op.req.user, tx.payee)|
    ensures SpinInv(c, tx.(pc := Funds), db)
  {
    var ids := LockIds(tx.op.req.user, tx.payee);
    assert tx.op.req.user in ids && (tx.payee.Some? ==> tx.payee.value in ids);
    assert ids[..tx.pc.k] == ids;
    hide Restrict, WalletLocks, MakePlan, LockIds, Taken, Recording;
  }

  lemma OneMoreLock(ids: seq<nat>, u: nat)
    ensures WalletLocks(ids + [u]) == WalletLocks(ids) + {WalletRow(u)}
  {
  }

  lemma StepChecks(c: Config, tx: Tx, db: DB, seqs: Seqs, word: nat, entropy: bool)
    requires SpinInv(c, tx, db) && tx.pc in {Funds, Bank, Draw} && ExecSpin(c, tx, db, seqs, word, entropy).Goes?
    ensures SpinInv(c, ExecSpin(c, tx, db, seqs, word, entropy).tx, db)
  {
    if tx.pc == Bank {
      RestrictHouse(db, tx.locks);
    } else if tx.pc == Funds {
      assert DrawLocks(tx.op.req.(isReal := false), tx.payee) == WalletLocks(LockIds(tx.op.req.user, tx.payee));
    }
  }

  lemma StepInsert(c: Config, tx: Tx, db: DB, seqs: Seqs, word: nat, entropy: bool)
    requires ValidConfig(c) && SeqsAbove(db, seqs)
    requires SpinInv(c, tx, db) && tx.pc == Insert && ExecSpin(c, tx, db, seqs, word, entropy).Goes?
    ensures SpinInv(c, ExecSpin(c, tx, db, seqs, word, entropy).tx, db)
  {
    var req := tx.op.req;
    RestrictKey(db, tx.locks, SpinKey(req.user, req.clientRef));
    PlanBounds(c, req, tx.payee, tx.ch.word);
  }

  lemma StepBet(c: Config, tx: Tx, db: DB, seqs: Seqs, word: nat, entropy: bool)
    requires SeqsAbove(db, seqs)
    requires SpinInv(c, tx, db) && tx.pc == BetStep && ExecSpin(c, tx, db, seqs, word, entropy).Goes?
    ensures SpinInv(c, ExecSpin(c, tx, db, seqs, word, entropy).tx, db)
  {
  }

  lemma StepWin(c: Config, tx: Tx, db: DB, seqs: Seqs, word: nat, entropy: bool)
    requires SeqsAbove(db, seqs) && Issued(tx, seqs)
    requires SpinInv(c, tx, db) && tx.pc == WinStep && ExecSpin(c, tx, db, seqs, word, entropy).Goes?
    ensures SpinInv(c, ExecSpin(c, tx, db, seqs, word, entropy).tx, db)
  {
    var req, r, p := tx.op.req, Restrict(db, tx.locks), PlanOf(c, tx);
    assert tx.frag.ledger[0] in tx.frag.ledger;
    assert tx.ch.betId < seqs.row;
    WinLocal(c, tx, r, seqs.row);
    if p.payout > 0 {
      assert ExecSpin(c, tx, db, seqs, word, entropy).tx == AfterWinStep(c, tx, seqs.row);
    } else {
      assert ExecSpin(c, tx, db, seqs, word, entropy).tx == AfterWinStep(c, tx, seqs.row);
    }
  }

  /** The transaction a successful WinStep leaves behind. */
  ghost function AfterWinStep(c: Config, tx: Tx, id: nat): Tx
    requires tx.op.SpinOp? && tx.op.req.user in tx.frag.wallets
  {
    var req, p := tx.op.req, PlanOf(c, tx);
    var next := if req.isReal then BankStep else Commit;
    if p.payout <= 0 then tx.(pc := next)
    else tx.(ch := tx.ch.(winId := id), frag := Moved(tx.frag, WinMove(req, p, tx.ch), id), pc := next)
  }

  lemma WinLocal(c: Config, tx: Tx, r: DB, id: nat)
    requires tx.op.SpinOp? && SpinLocal(c, tx, tx.op.req, r) && tx.pc == WinStep
    requires PlanOf(c, tx).payout > 0 ==> MoveError(tx.frag, WinMove(tx.op.req, PlanOf(c, tx), tx.ch)) == None
    ensures SpinLocal(c, AfterWinStep(c, tx, id), tx.op.req, r)
  {
    var req, p := tx.op.req, PlanOf(c, tx);
    var tx' := AfterWinStep(c, tx, id);
    assert tx'.frag == AfterWin(r, req, p, tx'.ch);
    if !req.isReal {
      assert p.commission == 0;
    }
  }

  lemma StepBank(c: Config, tx: Tx, db: DB, seqs: Seqs, word: nat, entropy: bool)
    requires SpinInv(c, tx, db) && tx.pc == BankStep && ExecSpin(c, tx, db, seqs, word, entropy).Goes?
    ensures SpinInv(c, ExecSpin(c, tx, db, seqs, word, entropy).tx, db)
  {
  }

  lemma StepRef(c: Config, tx: Tx, db: DB, seqs: Seqs, word: nat, entropy: bool)
    requires SeqsAbove(db, seqs)
    requires SpinInv(c, tx, db) && tx.pc == RefStep && ExecSpin(c, tx, db, seqs, word, entropy).Goes?
    ensures SpinInv(c, ExecSpin(c, tx, db, seqs, word, entropy).tx, db)
  {
    var r := Restrict(db, tx.locks);
    var tx' := ExecSpin(c, tx, db, seqs, word, entropy).tx;
    assert tx.payee.Some? && MoveError(tx.frag, RefMove(PlanOf(c, tx), tx.ch)) == None;
    assert tx' == AfterRefStep(c, tx, seqs.row);
    RefLocal(c, tx, r, seqs.row);
    RefShared(c, tx, db, seqs);
    hide SpinLocal, SpinShared, ExecSpin, Restrict, AfterRefStep;
    assert tx'.locks == tx.locks && tx'.op == tx.op;
  }

  /** The transaction a successful RefStep leaves behind. */
  ghost function AfterRefStep(c: Config, tx: Tx, id: nat): (tx': Tx)
    requires tx.op.SpinOp? && tx.payee.Some? && tx.payee.value in tx.frag.wallets
    ensures tx'.locks == tx.locks && tx'.op == tx.op
  {
    tx.(ch := tx.ch.(refId := id), frag := Moved(tx.frag, RefMove(PlanOf(c, tx), tx.ch), id), pc := Commit)
  }

  lemma RefLocal(c: Config, tx: Tx, r: DB, id: nat)
    requires tx.op.SpinOp? && SpinLocal(c, tx, tx.op.req, r) && tx.pc == RefStep
    requires tx.payee.Some? && tx.payee.value in tx.frag.wallets
    requires MoveError(tx.frag, RefMove(PlanOf(c, tx), tx.ch)) == None
    ensures SpinLocal(c, AfterRefStep(c, tx, id), tx.op.req, r)
  {
    RefIdLater(r, tx.op.req, PlanOf(c, tx), tx.ch, id);
    hide MakePlan, AfterHouse, Moved, MoveError, AllLocks, Select, BetError, WinError, BankError, RowsPresent;
  }

  lemma RefShared(c: Config, tx: Tx, db: DB, seqs: Seqs)
    requires SpinInv(c, tx, db) && tx.pc == RefStep && SeqsAbove(db, seqs)
    requires tx.payee.Some? && tx.payee.value in tx.frag.wallets
    ensures SpinShared(c, AfterRefStep(c, tx, seqs.row), tx.op.req, db)
  {
    assert RowIdsBelow(db, tx.payee.value, seqs.row);
    hide MakePlan, Restrict, SpinLocal, MoveError, Payee, Taken, RowIdsBelow;
  }

  /** What went before the commission does not depend on the id its row is given. */
  lemma RefIdLater(r: DB, req: Request, p: Plan, ch: Choices, id: nat)
    requires RowsPresent(r, req, p)
    ensures var ch' := ch.(refId := id);
            && AfterHouse(r, req, p, ch') == AfterHouse(r, req, p, ch)
            && BetError(r, req, p, ch') == BetError(r, req, p, ch) && WinError(r, req, p, ch') == WinError(r, req, p, ch)
            && BankError(r, req, p, ch') == BankError(r, req, p, ch) && RefError(r, req, p, ch') == RefError(r, req, p, ch)
  {
  }

  lemma SpinStep(c: Config, tx: Tx, db: DB, seqs: Seqs, word: nat, entropy: bool)
    requires ValidConfig(c) && SeqsAbove(db, seqs) && Issued(tx, seqs) && OwnersExist(db)
    requires SpinInv(c, tx, db) && ExecSpin(c, tx, db, seqs, word, entropy).Goes?
    ensures SpinInv(c, ExecSpin(c, tx, db, seqs, word, entropy).tx, db)
  {
    match tx.pc
    case Load => StepLoad(c, tx, db, seqs, word, entropy);
    case LockNext(_) => StepLock(c, tx, db, seqs, word, entropy);
    case Funds => StepChecks(c, tx, db, seqs, word, entropy);
    case Bank => StepChecks(c, tx, db, seqs, word, entropy);
    case Draw => StepChecks(c, tx, db, seqs, word, entropy);
    case Insert => StepInsert(c, tx, db, seqs, word, entropy);
    case BetStep => StepBet(c, tx, db, seqs, word, entropy);
    case WinStep => StepWin(c, tx, db, seqs, word, entropy);
    case BankStep => StepBank(c, tx, db, seqs, word, entropy);
    case RefStep => StepRef(c, tx, db, seqs, word, entropy);
    case _ =>
  }

  /** The rows the statements of a spin touch. */
  ghost predicate Touches(r: DB, d: DB, req: Request, p: Plan, ch: Choices) {
    && d.users == r.users && d.topups == r.topups && d.wallets.Keys == r.wallets.Keys
    && d.spins == r.spins[ch.spinId := RecordOf(req, p)]
    && r.ledger <= d.ledger
    && forall i | |r.ledger| <= i < |d.ledger| :: d.ledger[i].user == req.user || p.payee == Some(d.ledger[i].user)
  }

  lemma MoveTouches(r: DB, d: DB, req: Request, p: Plan, ch: Choices, m: Move, id: nat)
    requires Touches(r, d, req, p, ch) && m.user in d.wallets && (m.user == req.user || p.payee == Some(m.user))
    ensures Touches(r, Moved(d, m, id), req, p, ch)
  {
    assert Moved(d, m, id).wallets.Keys == d.wallets.Keys;
  }

  lemma SpinTouches(r: DB, req: Request, p: Plan, ch: Choices)
    requires RowsPresent(r, req, p)
    ensures Touches(r, AfterInsert(r, req, p, ch), req, p, ch) && Touches(r, AfterBet(r, req, p, ch), req, p, ch)
    ensures Touches(r, AfterWin(r, req, p, ch), req, p, ch) && Touches(r, AfterHouse(r, req, p, ch), req, p, ch)
    ensures Touches(r, AfterRef(r, req, p, ch), req, p, ch)
  {
    MoveTouches(r, AfterInsert(r, req, p, ch), req, p, ch, BetMove(req, ch), ch.betId);
    if p.payout > 0 {
      MoveTouches(r, AfterBet(r, req, p, ch), req, p, ch, WinMove(req, p, ch), ch.winId);
    }
    assert Touches(r, AfterHouse(r, req, p, ch), req, p, ch);
    if p.commission > 0 {
      MoveTouches(r, AfterHouse(r, req, p, ch), req, p, ch, RefMove(p, ch), ch.refId);
    }
  }

  lemma TouchedFragment(c: Config, tx: Tx, db: DB)
    requires SpinInv(c, tx, db)
    ensures Recorded(tx.pc) ==> Touches(Restrict(db, tx.locks), tx.frag, tx.op.req, PlanOf(c, tx), tx.ch)
    ensures !Recorded(tx.pc) ==> tx.frag == Restrict(db, tx.locks)
  {
    if Recorded(tx.pc) {
      SpinTouches(Restrict(db, tx.locks), tx.op.req, PlanOf(c, tx), tx.ch);
    }
  }

  lemma SpinContained(c: Config, tx: Tx, db: DB)
    requires SpinInv(c, tx, db)
    ensures Contained(tx) && tx.frag.users == map[]
    ensures tx.frag.spins == if Recorded(tx.pc) then map[tx.ch.spinId := RecordOf(tx.op.req, PlanOf(c, tx))] else map[]
  {
    var r := Restrict(db, tx.locks);
    assert PlanOf(c, tx).payee == tx.payee;
    hide MakePlan, SpinLocal, SpinShared;
    TouchedFragment(c, tx, db);
    if Recorded(tx.pc) {
      LocksOfSpin(c, tx, tx.op.req, r);
      hide SpinInv;
      TouchesContained(tx, r, db, PlanOf(c, tx));
    }
  }

  lemma TouchesContained(tx: Tx, r: DB, db: DB, p: Plan)
    requires tx.op.SpinOp? && r == Restrict(db, tx.locks) && Touches(r, tx.frag, tx.op.req, p, tx.ch)
    requires WalletRow(tx.op.req.user) in tx.locks && (p.payee.Some? ==> WalletRow(p.payee.value) in tx.locks)
    ensures Contained(tx) && tx.frag.users == map[]
    ensures tx.frag.spins == map[tx.ch.spinId := RecordOf(tx.op.req, p)]
  {
    assert r.ledger == [] && r.spins == map[] && r.users == map[];
    forall x | x in tx.frag.ledger ensures WalletRow(x.user) in tx.locks {
      var i :| 0 <= i < |tx.frag.ledger| && tx.frag.ledger[i] == x;
    }
  }

  /******* Commit and refusal agree with the atomic spin *******/

  lemma AdmittedUnderLocks(c: Config, tx: Tx, db: DB)
    requires SpinInv(c, tx, db) && (Recorded(tx.pc) || tx.pc == Insert)
    ensures Veto(c, db, tx.op.req) == None && tx.payee == Payee(c, db.users, tx.op.req)
    ensures Select(TableFor(c, tx.op.req.isReal), tx.ch.word % WEIGHT_TOTAL).Some?
  {
    assert tx.locks == DrawLocks(tx.op.req, tx.payee) || tx.locks == AllLocks(tx.op.req, tx.payee);
    assert tx.op.req.isReal ==> HouseRow in tx.locks;
  }

  /** The tables a commit produces are those of the spin run alone on the tables it commits to. */
  lemma SpinCommit(c: Config, tx: Tx, db: DB)
    requires SpinInv(c, tx, db) && tx.pc == Commit
    ensures AtomicSpin(c, db, tx.op.req, true, tx.ch).Ok?
    ensures AtomicSpin(c, db, tx.op.req, true, tx.ch).value.0 == Merge(db, tx.frag, tx.locks)
    ensures FreshFor(c, db, tx.op, tx.ch)
  {
    var req, p := tx.op.req, PlanOf(c, tx);
    AdmittedUnderLocks(c, tx, db);
    LocksOfSpin(c, tx, req, Restrict(db, tx.locks));
    SameMoneyErrors(db, tx.locks, req, p, tx.ch);
    MergeSpin(db, tx.locks, req, p, tx.ch);
    hide Restrict, Merge, Veto, Payee, MakePlan, BetError, WinError, BankError, RefError, AfterRef, Select, Taken;
  }

  /** The choices a refusal can depend on. */
  function Seen(tx: Tx, word: nat): Choices {
    if tx.pc == Draw then tx.ch.(word := word) else tx.ch
  }

  lemma AllLocked(c: Config, tx: Tx, r: DB)
    requires tx.op.SpinOp? && SpinLocal(c, tx, tx.op.req, r) && tx.pc.LockNext?
    ensures tx.pc.k == |LockIds(tx.op.req.user, tx.payee)| ==> RowsLocked(r, tx.op.req, tx.payee)
  {
    var ids := LockIds(tx.op.req.user, tx.payee);
    if tx.pc.k == |ids| {
      assert ids[0] in r.wallets && ids[|ids| - 1] in r.wallets;
    }
  }

  lemma EarlyRefusal(c: Config, tx: Tx, db: DB, seqs: Seqs, word: nat, entropy: bool)
    requires SpinInv(c, tx, db) && OwnersExist(db) && !Recorded(tx.pc)
    requires ExecSpin(c, tx, db, seqs, word, entropy).Fails?
    ensures AtomicSpin(c, db, tx.op.req, tx.pc != Draw || entropy, Seen(tx, word)) ==
            Err(ExecSpin(c, tx, db, seqs, word, entropy).error)
  {
    var req := tx.op.req;
    if tx.pc.LockNext? {
      AllLocked(c, tx, Restrict(db, tx.locks));
      assert false;
    } else if tx.pc == Draw || tx.pc == Insert {
      assert tx.locks == DrawLocks(req, tx.payee);
      assert req.isReal ==> HouseRow in tx.locks;
    }
  }

  lemma LateRefusal(c: Config, tx: Tx, db: DB, seqs: Seqs, word: nat, entropy: bool)
    requires SpinInv(c, tx, db) && Recorded(tx.pc)
    requires ExecSpin(c, tx, db, seqs, word, entropy).Fails?
    ensures AtomicSpin(c, db, tx.op.req, true, tx.ch) == Err(ExecSpin(c, tx, db, seqs, word, entropy).error)
  {
    var req, p, r := tx.op.req, PlanOf(c, tx), Restrict(db, tx.locks);
    AdmittedUnderLocks(c, tx, db);
    LocksOfSpin(c, tx, req, r);
    SameMoneyErrors(db, tx.locks, req, p, tx.ch);
    LateError(c, tx, r, db, seqs, word, entropy);
    hide Restrict, SpinLocal, Payee, MakePlan, Veto, ExecSpin, BetError, WinError, BankError, RefError, Select;
  }

  /** After the insert a statement is refused with the first refusal among the money movements of the plan. */
  lemma LateError(c: Config, tx: Tx, r: DB, db: DB, seqs: Seqs, word: nat, entropy: bool)
    requires tx.op.SpinOp? && SpinLocal(c, tx, tx.op.req, r) && Recorded(tx.pc)
    requires ExecSpin(c, tx, db, seqs, word, entropy).Fails?
    ensures RowsPresent(r, tx.op.req, PlanOf(c, tx)) && SpinChecks(RecordOf(tx.op.req, PlanOf(c, tx)))
    ensures MoneyError(r, tx.op.req, PlanOf(c, tx), tx.ch) == Some(ExecSpin(c, tx, db, seqs, word, entropy).error)
  {
    hide MakePlan, Moved, MoveError, HouseError, HouseMoved, Select, AllLocks;
  }

  /** The two branches Spin's comments call unreachable are: the debit cannot overdraw the wallet, and the
      house movement cannot exhaust the bankroll, however the transactions interleave. */
  lemma InnerErrorsUnreachable(c: Config, tx: Tx, db: DB, seqs: Seqs, word: nat, entropy: bool)
    requires ValidConfig(c) && Solvent(db) && SpinInv(c, tx, db)
    ensures tx.pc == BetStep ==> ExecSpin(c, tx, db, seqs, word, entropy).Goes?
    ensures tx.pc in {WinStep, BankStep, RefStep} && ExecSpin(c, tx, db, seqs, word, entropy).Fails? ==>
              ExecSpin(c, tx, db, seqs, word, entropy).error == OutOfRange
  {
    if Recorded(tx.pc) {
      var req, p, r := tx.op.req, PlanOf(c, tx), Restrict(db, tx.locks);
      AdmittedUnderLocks(c, tx, db);
      LocksOfSpin(c, tx, req, r);
      AdmissionSuffices(c, db, req, tx.ch);
      SameMoneyErrors(db, tx.locks, req, p, tx.ch);
    }
  }
}

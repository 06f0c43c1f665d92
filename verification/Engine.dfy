/** The interleaved machine refines one-at-a-time execution in commit order: READ COMMITTED suffices. */
module Engine {
  import opened Basics
  import opened Schema
  import opened Movements
  import opened Spin
  import opened Transactions
  import opened Integrity
  import opened Machine
  import opened Fragments
  import opened SpinRuns
  import opened AccountRuns
  import opened Wheel
  import opened StakeCap

  ghost predicate TxInv(c: Config, tx: Tx, db: DB) {
    match tx.op
    case SpinOp(_) => SpinInv(c, tx, db)
    case TopUpOp(_, _, _, _) => TopUpInv(tx, db)
    case RegisterOp(_, _, _, _) => RegisterInv(tx, db)
    case _ => HoldsInv(tx, db)
  }

  ghost predicate AllKnown(c: Config, s: State) {
    forall t | t in s.txs :: TxInv(c, s.txs[t], s.db)
  }

  ghost predicate AllIssued(s: State) {
    forall t | t in s.txs :: Issued(s.txs[t], s.seqs)
  }

  ghost predicate AllApart(s: State) {
    forall t, u | t in s.txs && u in s.txs && t != u :: Apart(s.txs[t], s.txs[u])
  }

  /** What holds between any two statements of any interleaving. */
  ghost predicate Inv(c: Config, s: State) {
    GoodDB(s.db) && SeqsAbove(s.db, s.seqs) && AllKnown(c, s) && AllIssued(s) && AllApart(s)
  }

  /** A machine at rest on good tables. */
  ghost predicate Initial(s: State) {
    GoodDB(s.db) && SeqsAbove(s.db, s.seqs) && s.txs == map[] && s.log == []
  }

  /******* One statement *******/

  /** How many statements a transaction has left, at most. */
  function Remaining(pc: Pc): nat {
    match pc
    case Load => 14
    case LockNext(k) => if k < 3 then 13 - k else 10
    case Funds => 9 case Bank => 8 case Draw => 7 case Insert => 6 case BetStep => 5 case WinStep => 4
    case BankStep => 3 case RefStep => 2
    case Claim => 4 case LockOne => 3 case Body => 2
    case Resolve => 6 case Phone => 5 case Code => 4 case OpenWallet => 3 case Grant => 2
    case Commit => 1
  }

  /** What a statement may add to a transaction: the lock it waited for, fresh ids, and progress. */
  ghost predicate Grows(c: Config, tx: Tx, tx': Tx, db: DB, seqs: Seqs) {
    && tx'.op == tx.op && Remaining(tx'.pc) < Remaining(tx.pc)
    && (forall r | r in tx'.locks ::
          r in tx.locks || Wants(c, tx, db) == Some(r) || (tx.op.RegisterOp? && tx.pc == OpenWallet && r == WalletRow(tx.ch.uid)))
    && tx'.frag.spins.Keys <= tx.frag.spins.Keys + (if tx.pc == Insert then {seqs.spin} else {})
    && tx'.frag.users.Keys <= tx.frag.users.Keys + (if tx.pc == Code then {seqs.user} else {})
    && (forall r | r in tx'.frag.ledger :: r in tx.frag.ledger || (r.id == seqs.row && tx.pc != Insert && tx.pc != Code))
  }

  lemma SpinGrows(c: Config, tx: Tx, db: DB, seqs: Seqs, word: nat, entropy: bool)
    requires tx.op.SpinOp? && ExecSpin(c, tx, db, seqs, word, entropy).Goes?
    requires tx.pc.LockNext? ==> tx.pc.k <= 2
    ensures Grows(c, tx, ExecSpin(c, tx, db, seqs, word, entropy).tx, db, seqs)
  {
    if Recorded(tx.pc) {
      MovesGrow(c, tx, db, seqs, word, entropy);
    } else {
      hide MakePlan, Payee, Taken, SpinChecks, MaxMult, MaxExposure, MaxAffordableStake, Select, LockIds, MoveError, HouseError;
    }
  }

  lemma MovesGrow(c: Config, tx: Tx, db: DB, seqs: Seqs, word: nat, entropy: bool)
    requires tx.op.SpinOp? && Recorded(tx.pc) && ExecSpin(c, tx, db, seqs, word, entropy).Goes?
    ensures Grows(c, tx, ExecSpin(c, tx, db, seqs, word, entropy).tx, db, seqs)
  {
    hide MakePlan, MoveError, HouseError, LockIds, MaxMult, Select, Payee;
  }

  lemma AtMostTwoLocks(c: Config, tx: Tx, db: DB)
    requires SpinInv(c, tx, db)
    ensures tx.pc.LockNext? ==> tx.pc.k <= 2
  {
  }

  lemma TopUpGrows(c: Config, tx: Tx, db: DB, seqs: Seqs)
    requires TopUpInv(tx, db) && ExecTopUp(tx, db, seqs).Goes?
    ensures Grows(c, tx, ExecTopUp(tx, db, seqs).tx, db, seqs)
  {
  }

  lemma HoldsGrow(c: Config, tx: Tx, db: DB, seqs: Seqs)
    requires HoldsInv(tx, db) && ExecHolds(tx, db, seqs).Goes?
    ensures Grows(c, tx, ExecHolds(tx, db, seqs).tx, db, seqs)
  {
  }

  lemma RegisterGrows(c: Config, tx: Tx, db: DB, seqs: Seqs)
    requires RegisterInv(tx, db) && ExecRegister(tx, db, seqs).Goes?
    ensures Grows(c, tx, ExecRegister(tx, db, seqs).tx, db, seqs)
  {
    hide RegisterShared, RegisterLocal, Recognised, HasPhone, HasCode, Referrer, GrantError, Restrict;
  }

  lemma StatementGrows(c: Config, tx: Tx, db: DB, seqs: Seqs, word: nat, entropy: bool)
    requires TxInv(c, tx, db) && Exec(c, tx, db, seqs, word, entropy).Goes?
    ensures Grows(c, tx, Exec(c, tx, db, seqs, word, entropy).tx, db, seqs)
  {
    match tx.op
    case SpinOp(_) =>
      AtMostTwoLocks(c, tx, db);
      SpinGrows(c, tx, db, seqs, word, entropy);
    case TopUpOp(_, _, _, _) => TopUpGrows(c, tx, db, seqs);
    case RegisterOp(_, _, _, _) => RegisterGrows(c, tx, db, seqs);
    case _ => HoldsGrow(c, tx, db, seqs);
  }

  lemma StatementKeepsTxInv(c: Config, tx: Tx, db: DB, seqs: Seqs, word: nat, entropy: bool)
    requires ValidConfig(c) && OwnersExist(db) && SeqsAbove(db, seqs) && Issued(tx, seqs)
    requires TxInv(c, tx, db) && Exec(c, tx, db, seqs, word, entropy).Goes?
    ensures TxInv(c, Exec(c, tx, db, seqs, word, entropy).tx, db)
  {
    StatementGrows(c, tx, db, seqs, word, entropy);
    match tx.op
    case SpinOp(_) => SpinStep(c, tx, db, seqs, word, entropy);
    case TopUpOp(_, _, _, _) => TopUpStep(tx, db, seqs);
    case RegisterOp(_, _, _, _) => RegisterStep(tx, db, seqs);
    case _ => HoldsStep(tx, db, seqs);
  }

  lemma TxUndisturbed(c: Config, tx: Tx, db: DB, db': DB)
    requires TxInv(c, tx, db) && Unnoticed(db, db', tx) && UniqueKeys(db')
    ensures TxInv(c, tx, db')
  {
    match tx.op
    case SpinOp(_) => SpinUndisturbed(c, tx, db, db');
    case TopUpOp(_, _, _, _) => TopUpUndisturbed(tx, db, db');
    case RegisterOp(_, _, _, _) => RegisterUndisturbed(tx, db, db');
    case _ => HoldsUndisturbed(tx, db, db');
  }

  /** An open transaction's rows and new users are its own. */
  ghost predicate Own(tx: Tx, db: DB) {
    && Contained(tx) && tx.frag.users.Keys !! db.users.Keys && tx.frag.spins.Keys !! db.spins.Keys
    && forall u | WalletRow(u) in tx.locks :: u in db.wallets || u in tx.frag.users
  }

  lemma TxOwn(c: Config, tx: Tx, db: DB)
    requires TxInv(c, tx, db)
    ensures Own(tx, db)
  {
    match tx.op
    case SpinOp(req) =>
      SpinContained(c, tx, db);
      SpinWallets(c, tx, db);
    case TopUpOp(_, _, _, _) => TopUpContained(tx, db);
    case RegisterOp(_, _, _, _) => RegisterContained(tx, db);
    case _ => HoldsContained(tx, db);
  }

  lemma SpinWallets(c: Config, tx: Tx, db: DB)
    requires SpinInv(c, tx, db)
    ensures forall u | WalletRow(u) in tx.locks :: u in db.wallets
  {
    var req, r := tx.op.req, Restrict(db, tx.locks);
    var ids := LockIds(req.user, tx.payee);
    forall u | WalletRow(u) in tx.locks ensures u in r.wallets {
      assert u in ids;
      if tx.pc.LockNext? {
        assert u in ids[..tx.pc.k];
      }
    }
  }

  /******* Commit *******/

  /** A committing transaction does what it would have done alone, on the tables it commits to. */
  lemma CommitIsAtomic(c: Config, tx: Tx, db: DB)
    requires TxInv(c, tx, db) && tx.pc == Commit && OwnersExist(db)
    ensures Atomic(c, db, tx.op, true, tx.ch) == Ok(Merge(db, tx.frag, tx.locks))
    ensures FreshFor(c, db, tx.op, tx.ch)
  {
    match tx.op
    case SpinOp(_) => SpinCommit(c, tx, db);
    case TopUpOp(_, _, _, _) => TopUpCommit(tx, db);
    case RegisterOp(_, _, _, _) => RegisterCommit(tx, db);
    case _ => HoldsCommit(c, tx, db);
  }

  lemma OnlyCommitCommits(c: Config, tx: Tx, db: DB, seqs: Seqs, word: nat, entropy: bool)
    requires TxInv(c, tx, db)
    ensures Exec(c, tx, db, seqs, word, entropy).Commits? <==> tx.pc == Commit
  {
    PlaceOfItsOwn(c, tx, db);
    hide TxInv;
    match tx.op
    case SpinOp(_) => SpinCommitsLast(c, tx, db, seqs, word, entropy);
    case TopUpOp(_, _, _, _) => hide TopUpError, Eligible, ToppedUp;
    case RegisterOp(_, _, _, _) => RegisterCommitsLast(tx, db, seqs);
    case _ => HoldsCommitLast(tx, db, seqs);
  }

  /** A transaction only ever stands at a statement of its own kind. */
  predicate OnCourse(tx: Tx) {
    match tx.op
    case SpinOp(_) =>
      tx.pc.LockNext? || tx.pc in {Load, Funds, Bank, Draw, Insert, BetStep, WinStep, BankStep, RefStep, Commit}
    case TopUpOp(_, _, _, _) => tx.pc in {Claim, LockOne, Body, Commit}
    case RegisterOp(_, _, _, _) => tx.pc in {Resolve, Phone, Code, OpenWallet, Grant, Commit}
    case _ => tx.pc in {LockOne, Body, Commit}
  }

  lemma PlaceOfItsOwn(c: Config, tx: Tx, db: DB)
    requires TxInv(c, tx, db)
    ensures OnCourse(tx)
  {
    hide Restrict, MakePlan, Recording, SpinShared, RegisterShared, LockIds;
  }

  lemma SpinCommitsLast(c: Config, tx: Tx, db: DB, seqs: Seqs, word: nat, entropy: bool)
    requires OnCourse(tx) && tx.op.SpinOp?
    ensures ExecSpin(c, tx, db, seqs, word, entropy).Commits? <==> tx.pc == Commit
  {
    hide MakePlan, MoveError, HouseError, Payee, Taken, SpinChecks, Select, LockIds, LockWallet, Moved, AfterInsert, MaxMult;
    hide MaxExposure, MaxAffordableStake;
  }

  lemma RegisterCommitsLast(tx: Tx, db: DB, seqs: Seqs)
    requires OnCourse(tx) && tx.op.RegisterOp?
    ensures ExecRegister(tx, db, seqs).Commits? <==> tx.pc == Commit
  {
    hide Recognised, HasPhone, HasCode, Referrer, GrantError, Granted;
  }

  lemma HoldsCommitLast(tx: Tx, db: DB, seqs: Seqs)
    requires OnCourse(tx) && (tx.op.HoldOp? || tx.op.ReleaseOp? || tx.op.ReverseOp?)
    ensures ExecHolds(tx, db, seqs).Commits? <==> tx.pc == Commit
  {
    hide HoldError, ReleaseError, ReverseError, Held, Released, Reversed;
  }

  /** A refused transaction would have been refused alone, on the committed tables of that moment, with the
      same error. */
  lemma RefusalIsAtomic(c: Config, tx: Tx, db: DB, seqs: Seqs, word: nat, entropy: bool)
    requires TxInv(c, tx, db) && OwnersExist(db) && Exec(c, tx, db, seqs, word, entropy).Fails?
    ensures Atomic(c, db, tx.op, tx.pc != Draw || entropy, Seen(tx, word)) ==
            Err(Exec(c, tx, db, seqs, word, entropy).error)
  {
    match tx.op
    case SpinOp(_) =>
      if Recorded(tx.pc) {
        LateRefusal(c, tx, db, seqs, word, entropy);
      } else {
        EarlyRefusal(c, tx, db, seqs, word, entropy);
      }
    case TopUpOp(_, _, _, _) => TopUpRefusal(tx, db, seqs);
    case RegisterOp(_, _, _, _) => RegisterRefusal(tx, db, seqs);
    case _ => HoldsRefusal(c, tx, db, seqs);
  }

  /******* The whole machine *******/

  lemma BeginKeepsInv(c: Config, s: State, tid: nat, op: Op)
    requires Inv(c, s) && tid !in s.txs
    ensures Inv(c, s.(txs := s.txs[tid := Start(op)]))
  {
    var s' := s.(txs := s.txs[tid := Start(op)]);
    StartKnowsNothing(c, s.db, s.seqs, op);
    assert AllKnown(c, s') && AllIssued(s');
    forall t, u | t in s'.txs && u in s'.txs && t != u ensures Apart(s'.txs[t], s'.txs[u]) {
      if t != tid && u != tid {
        assert Apart(s.txs[t], s.txs[u]);
      }
    }
  }

  lemma StartKnowsNothing(c: Config, db: DB, seqs: Seqs, op: Op)
    ensures TxInv(c, Start(op), db) && Issued(Start(op), seqs)
  {
    assert Restrict(db, {}) == EMPTY;
  }

  lemma DropKeepsInv(c: Config, s: State, tid: nat, seqs: Seqs)
    requires Inv(c, s) && s.seqs.user <= seqs.user && s.seqs.spin <= seqs.spin && s.seqs.row <= seqs.row
    ensures Inv(c, s.(txs := s.txs - {tid}, seqs := seqs))
  {
    var s' := s.(txs := s.txs - {tid}, seqs := seqs);
    assert AllIssued(s');
    forall t, u | t in s'.txs && u in s'.txs && t != u ensures Apart(s'.txs[t], s'.txs[u]) {
      assert Apart(s.txs[t], s.txs[u]);
    }
  }

  /** The statement stays apart from every other transaction: its lock was free, its ids are new. */
  lemma StatementStaysApart(c: Config, s: State, tid: nat, tx': Tx, u: nat)
    requires AllKnown(c, s) && AllIssued(s) && OwnersExist(s.db) && SeqsAbove(s.db, s.seqs)
    requires tid in s.txs && u in s.txs && u != tid && !Blocked(c, s, tid) && Apart(s.txs[tid], s.txs[u])
    requires Grows(c, s.txs[tid], tx', s.db, s.seqs)
    ensures Apart(tx', s.txs[u]) && Apart(s.txs[u], tx')
  {
    var tx, other := s.txs[tid], s.txs[u];
    assert TxInv(c, tx, s.db) && TxInv(c, other, s.db) && Issued(other, s.seqs);
    hide AllKnown, AllIssued;
    TxOwn(c, other, s.db);
    TxOwn(c, tx, s.db);
    WantsFree(c, s, tid, u);
    if tx.op.RegisterOp? && tx.pc == OpenWallet {
      OpensOwnWallet(c, tx, s.db);
    }
    hide *;
    LocksStayApart(c, tx, tx', other, s.db, s.seqs);
    IdsStayApart(c, tx, tx', other, s.db, s.seqs);
    BothApart(tx', other);
  }

  lemma LocksStayApart(c: Config, tx: Tx, tx': Tx, other: Tx, db: DB, seqs: Seqs)
    requires Grows(c, tx, tx', db, seqs) && Apart(tx, other) && Own(tx, db) && Own(other, db) && OwnersExist(db)
    requires Wants(c, tx, db).Some? ==> Wants(c, tx, db).value !in other.locks
    requires tx.op.RegisterOp? && tx.pc == OpenWallet ==> tx.ch.uid in tx.frag.users
    ensures tx'.locks !! other.locks
  {
    hide Wants, Contained;
    forall r | r in tx'.locks ensures r !in other.locks {
      if r !in tx.locks && Wants(c, tx, db) != Some(r) {
        assert tx.ch.uid !in db.wallets && tx.ch.uid !in other.frag.users;
      }
    }
  }

  lemma IdsStayApart(c: Config, tx: Tx, tx': Tx, other: Tx, db: DB, seqs: Seqs)
    requires Grows(c, tx, tx', db, seqs) && Apart(tx, other) && Issued(other, seqs)
    ensures tx'.frag.spins.Keys !! other.frag.spins.Keys && tx'.frag.users.Keys !! other.frag.users.Keys
  {
    hide Wants;
  }

  lemma BothApart(t: Tx, u: Tx)
    requires t.locks !! u.locks && t.frag.spins.Keys !! u.frag.spins.Keys && t.frag.users.Keys !! u.frag.users.Keys
    ensures Apart(t, u) && Apart(u, t)
  {
  }

  lemma WantsFree(c: Config, s: State, tid: nat, u: nat)
    requires tid in s.txs && u in s.txs && u != tid && !Blocked(c, s, tid)
    ensures Wants(c, s.txs[tid], s.db).Some? ==> Wants(c, s.txs[tid], s.db).value !in s.txs[u].locks
  {
    hide Wants;
  }

  lemma OpensOwnWallet(c: Config, tx: Tx, db: DB)
    requires TxInv(c, tx, db) && tx.op.RegisterOp? && tx.pc == OpenWallet
    ensures tx.ch.uid in tx.frag.users
  {
    hide RegisterInv;
    RegisterContained(tx, db);
  }

  lemma StatementKeepsIssued(c: Config, tx: Tx, tx': Tx, db: DB, seqs: Seqs)
    requires Issued(tx, seqs) && Grows(c, tx, tx', db, seqs)
    ensures Issued(tx', Bump(seqs, tx.pc))
  {
  }

  lemma StatementKeepsInv(c: Config, s: State, tid: nat, word: nat, entropy: bool)
    requires ValidConfig(c) && Inv(c, s) && tid in s.txs && !Blocked(c, s, tid)
    requires Exec(c, s.txs[tid], s.db, s.seqs, word, entropy).Goes?
    ensures Inv(c, s.(txs := s.txs[tid := Exec(c, s.txs[tid], s.db, s.seqs, word, entropy).tx],
                      seqs := Bump(s.seqs, s.txs[tid].pc)))
  {
    var tx := s.txs[tid];
    var tx' := Exec(c, tx, s.db, s.seqs, word, entropy).tx;
    Known(c, s, tid);
    hide *;
    BumpRises(s.seqs, tx.pc);
    StatementGrows(c, tx, s.db, s.seqs, word, entropy);
    StatementKeepsTxInv(c, tx, s.db, s.seqs, word, entropy);
    StatementKeepsIssued(c, tx, tx', s.db, s.seqs);
    ApartAfterStatement(c, s, tid, tx');
    IssuedLater(s, tid, tx', Bump(s.seqs, tx.pc));
    KnownLater(c, s, tid, tx', Bump(s.seqs, tx.pc));
  }

  lemma Known(c: Config, s: State, tid: nat)
    requires Inv(c, s) && tid in s.txs
    ensures TxInv(c, s.txs[tid], s.db) && Issued(s.txs[tid], s.seqs) && OwnersExist(s.db) && SeqsAbove(s.db, s.seqs)
    ensures AllKnown(c, s) && AllIssued(s) && AllApart(s)
  {
    hide TxInv, Issued, SeqsAbove, OwnersExist, AllApart, Apart;
  }

  lemma KnownLater(c: Config, s: State, tid: nat, tx': Tx, seqs: Seqs)
    requires Inv(c, s) && TxInv(c, tx', s.db)
    requires s.seqs.user <= seqs.user && s.seqs.spin <= seqs.spin && s.seqs.row <= seqs.row
    requires var s' := s.(txs := s.txs[tid := tx'], seqs := seqs); AllIssued(s') && AllApart(s')
    ensures Inv(c, s.(txs := s.txs[tid := tx'], seqs := seqs))
  {
    hide TxInv, AllIssued, AllApart, GoodDB;
  }

  lemma IssuedLater(s: State, tid: nat, tx': Tx, seqs: Seqs)
    requires AllIssued(s) && Issued(tx', seqs)
    requires s.seqs.user <= seqs.user && s.seqs.spin <= seqs.spin && s.seqs.row <= seqs.row
    ensures AllIssued(s.(txs := s.txs[tid := tx'], seqs := seqs))
  {
    var s' := s.(txs := s.txs[tid := tx'], seqs := seqs);
    forall t | t in s'.txs ensures Issued(s'.txs[t], seqs) {
      if t != tid {
        assert Issued(s.txs[t], s.seqs);
      }
    }
  }

  lemma ApartAfterStatement(c: Config, s: State, tid: nat, tx': Tx)
    requires AllKnown(c, s) && AllIssued(s) && AllApart(s) && OwnersExist(s.db) && SeqsAbove(s.db, s.seqs)
    requires tid in s.txs && !Blocked(c, s, tid) && Grows(c, s.txs[tid], tx', s.db, s.seqs)
    ensures AllApart(s.(txs := s.txs[tid := tx'], seqs := Bump(s.seqs, s.txs[tid].pc)))
  {
    var s' := s.(txs := s.txs[tid := tx'], seqs := Bump(s.seqs, s.txs[tid].pc));
    forall t, u | t in s'.txs && u in s'.txs && t != u ensures Apart(s'.txs[t], s'.txs[u]) {
      assert Apart(s.txs[t], s.txs[u]);
      if t == tid {
        StatementStaysApart(c, s, tid, tx', u);
      } else if u == tid {
        assert Apart(s.txs[u], s.txs[t]);
        StatementStaysApart(c, s, tid, tx', t);
      }
    }
  }

  /** The sequences stay above the committed ids. */
  lemma CommitKeepsSeqs(tx: Tx, db: DB, seqs: Seqs)
    requires SeqsAbove(db, seqs) && Issued(tx, seqs)
    ensures SeqsAbove(Merge(db, tx.frag, tx.locks), seqs)
  {
  }

  lemma CommitKeepsKnown(c: Config, s: State, tid: nat, t: nat)
    requires AllKnown(c, s) && AllApart(s) && tid in s.txs && t in s.txs && t != tid
    requires UniqueKeys(Merge(s.db, s.txs[tid].frag, s.txs[tid].locks))
    ensures TxInv(c, s.txs[t], Merge(s.db, s.txs[tid].frag, s.txs[tid].locks))
  {
    var tx, other := s.txs[tid], s.txs[t];
    assert TxInv(c, tx, s.db) && TxInv(c, other, s.db) && Apart(tx, other);
    TxOwn(c, tx, s.db);
    CommitUnnoticed(s.db, tx, other);
    TxUndisturbed(c, other, s.db, Merge(s.db, tx.frag, tx.locks));
  }

  lemma CommitKeepsInv(c: Config, s: State, tid: nat)
    requires ValidConfig(c) && Inv(c, s) && tid in s.txs && s.txs[tid].pc == Commit
    ensures var tx := s.txs[tid];
            Inv(c, State(Merge(s.db, tx.frag, tx.locks), s.seqs, s.txs - {tid}, s.log + [Entry(tx.op, tx.ch)]))
  {
    var tx := s.txs[tid];
    var db' := Merge(s.db, tx.frag, tx.locks);
    var s' := State(db', s.seqs, s.txs - {tid}, s.log + [Entry(tx.op, tx.ch)]);
    assert TxInv(c, tx, s.db) && Issued(tx, s.seqs);
    CommitIsAtomic(c, tx, s.db);
    AtomicKeepsGood(c, s.db, tx.op, true, tx.ch);
    CommitKeepsSeqs(tx, s.db, s.seqs);
    forall t | t in s'.txs ensures TxInv(c, s'.txs[t], db') {
      CommitKeepsKnown(c, s, tid, t);
    }
    forall t, u | t in s'.txs && u in s'.txs && t != u ensures Apart(s'.txs[t], s'.txs[u]) {
      assert Apart(s.txs[t], s.txs[u]);
    }
    assert AllIssued(s');
  }

  /** The transactions open after a step. */
  lemma StepsOpenTxs(c: Config, s: State, l: Label)
    requires !l.Begin? && Next(c, s, l).Some?
    ensures l.tid in s.txs
    ensures var txs := Next(c, s, l).value.txs;
            if l.Forward? && Exec(c, s.txs[l.tid], s.db, s.seqs, l.word, l.entropy).Goes?
            then txs == s.txs[l.tid := Exec(c, s.txs[l.tid], s.db, s.seqs, l.word, l.entropy).tx]
            else txs == s.txs - {l.tid}
  {
    if l.Forward? {
      hide *;
      StepShape(c, s, l);
    }
  }

  lemma NextKeepsInv(c: Config, s: State, l: Label)
    requires ValidConfig(c) && Inv(c, s) && Next(c, s, l).Some?
    ensures Inv(c, Next(c, s, l).value)
  {
    match l
    case Begin(tid, op) => BeginKeepsInv(c, s, tid, op);
    case Rollback(tid) => DropKeepsInv(c, s, tid, s.seqs);
    case Forward(_, _, _) => ForwardKeepsInv(c, s, l);
  }

  lemma ForwardKeepsInv(c: Config, s: State, l: Label)
    requires ValidConfig(c) && Inv(c, s) && l.Forward? && Next(c, s, l).Some?
    ensures Inv(c, Next(c, s, l).value)
  {
    StepShape(c, s, l);
    var tx := s.txs[l.tid];
    assert TxInv(c, tx, s.db) && !Blocked(c, s, l.tid);
    hide *;
    OnlyCommitCommits(c, tx, s.db, s.seqs, l.word, l.entropy);
    match Exec(c, tx, s.db, s.seqs, l.word, l.entropy)
    case Goes(_) => StatementKeepsInv(c, s, l.tid, l.word, l.entropy);
    case Fails(_) =>
      BumpRises(s.seqs, tx.pc);
      DropKeepsInv(c, s, l.tid, Bump(s.seqs, tx.pc));
    case Commits => CommitKeepsInv(c, s, l.tid);
  }

  lemma BumpRises(seqs: Seqs, pc: Pc)
    ensures var b := Bump(seqs, pc);
            seqs.user <= b.user && seqs.spin <= b.spin && seqs.row <= b.row
  {
  }

  lemma {:induction false} RunKeepsInv(c: Config, s0: State, ls: seq<Label>)
    requires ValidConfig(c) && Initial(s0) && Run(c, s0, ls).Some?
    ensures Inv(c, Run(c, s0, ls).value)
  {
    if ls != [] {
      RunKeepsInv(c, s0, ls[..|ls| - 1]);
      NextKeepsInv(c, Run(c, s0, ls[..|ls| - 1]).value, ls[|ls| - 1]);
    }
  }

  /******* Serialisability *******/

  /** The committed transactions run alone, one after the other; each must go through. */
  ghost function SerialRun(c: Config, db: DB, log: seq<Entry>): Option<DB> {
    if log == [] then Some(db) else
    match SerialRun(c, db, log[..|log| - 1])
    case None => None
    case Some(d) =>
      var e := log[|log| - 1];
      match Atomic(c, d, e.op, true, e.ch)
      case Err(_) => None
      case Ok(d') => if FreshFor(c, d, e.op, e.ch) then Some(d') else None
  }

  /** For every interleaving of any number of transactions, with rollbacks anywhere, the committed tables are
      those of the committed transactions run one at a time in commit order. */
  lemma {:induction false} Serialisable(c: Config, s0: State, ls: seq<Label>)
    requires ValidConfig(c) && Initial(s0) && Run(c, s0, ls).Some?
    ensures SerialRun(c, s0.db, Run(c, s0, ls).value.log) == Some(Run(c, s0, ls).value.db)
  {
    if ls != [] {
      var before, l := ls[..|ls| - 1], ls[|ls| - 1];
      Serialisable(c, s0, before);
      RunKeepsInv(c, s0, before);
      NextIsSerial(c, s0.db, Run(c, s0, before).value, l);
    }
  }

  predicate Committing(s: State, l: Label) {
    l.Forward? && l.tid in s.txs && s.txs[l.tid].pc == Commit
  }

  /** Only a commit changes the tables, and it alone is logged. */
  lemma CommitStep(c: Config, s: State, l: Label)
    requires Inv(c, s) && Next(c, s, l).Some? && Committing(s, l)
    ensures var tx := s.txs[l.tid];
            Next(c, s, l).value ==
            State(Merge(s.db, tx.frag, tx.locks), s.seqs, s.txs - {l.tid}, s.log + [Entry(tx.op, tx.ch)])
  {
    assert TxInv(c, s.txs[l.tid], s.db);
    hide Inv, TxInv, Exec, Merge, Next;
    OnlyCommitCommits(c, s.txs[l.tid], s.db, s.seqs, l.word, l.entropy);
    StepShape(c, s, l);
  }

  /** A step, with the statement it executes left closed. */
  lemma StepShape(c: Config, s: State, l: Label)
    requires Next(c, s, l).Some? && l.Forward?
    ensures l.tid in s.txs
    ensures var tx, s' := s.txs[l.tid], Next(c, s, l).value;
            var out := Exec(c, tx, s.db, s.seqs, l.word, l.entropy);
            if out.Commits? then
              s' == State(Merge(s.db, tx.frag, tx.locks), s.seqs, s.txs - {l.tid}, s.log + [Entry(tx.op, tx.ch)])
            else
              && s'.db == s.db && s'.log == s.log && s'.seqs == Bump(s.seqs, tx.pc)
              && s'.txs == if out.Goes? then s.txs[l.tid := out.tx] else s.txs - {l.tid}
  {
    hide Exec, Merge, Blocked, Bump;
  }

  lemma OtherStep(c: Config, s: State, l: Label)
    requires Inv(c, s) && Next(c, s, l).Some? && !Committing(s, l)
    ensures Next(c, s, l).value.db == s.db && Next(c, s, l).value.log == s.log
    ensures s.seqs.spin <= Next(c, s, l).value.seqs.spin && s.seqs.row <= Next(c, s, l).value.seqs.row
  {
    if l.Forward? {
      hide Next, Exec, Merge, Blocked;
      StepShape(c, s, l);
      assert TxInv(c, s.txs[l.tid], s.db) by { hide GoodDB, SeqsAbove, AllIssued, AllApart, TxInv; }
      hide Inv, TxInv;
      OnlyCommitCommits(c, s.txs[l.tid], s.db, s.seqs, l.word, l.entropy);
      BumpRises(s.seqs, s.txs[l.tid].pc);
    }
  }

  lemma NextIsSerial(c: Config, start: DB, s: State, l: Label)
    requires ValidConfig(c) && Inv(c, s) && Next(c, s, l).Some? && SerialRun(c, start, s.log) == Some(s.db)
    ensures SerialRun(c, start, Next(c, s, l).value.log) == Some(Next(c, s, l).value.db)
  {
    if Committing(s, l) {
      var tx := s.txs[l.tid];
      assert TxInv(c, tx, s.db) && OwnersExist(s.db);
      hide *;
      CommitStep(c, s, l);
      CommitIsAtomic(c, tx, s.db);
      SerialAppend(c, start, s.log, Entry(tx.op, tx.ch), s.db);
    } else {
      OtherStep(c, s, l);
    }
  }

  lemma SerialAppend(c: Config, start: DB, log: seq<Entry>, e: Entry, db: DB)
    requires SerialRun(c, start, log) == Some(db) && FreshFor(c, db, e.op, e.ch) && Atomic(c, db, e.op, true, e.ch).Ok?
    ensures SerialRun(c, start, log + [e]) == Some(Atomic(c, db, e.op, true, e.ch).value)
  {
    assert (log + [e])[..|log|] == log;
  }
}

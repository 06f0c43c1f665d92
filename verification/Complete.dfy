/** The converse of serialisability: whatever a transaction can do as one atomic step, the machine can do statement by
    statement. For a spin the entropy word alone decides whether it can; for the others, the tables. */
module Complete {
  import opened Basics
  import opened Wheel
  import opened StakeCap
  import opened Schema
  import opened Movements
  import opened Spin
  import opened Transactions
  import opened Integrity
  import opened Machine
  import opened SpinRuns
  import opened Engine
  import opened Progress

  /** The ids a spin is given never decide whether it succeeds; given the tables, only the word does. */
  lemma OnlyTheWordMatters(c: Config, db: DB, req: Request, ch: Choices, ch': Choices)
    requires ValidConfig(c) && Solvent(db) && ch.word == ch'.word
    ensures AtomicSpin(c, db, req, true, ch).Ok? <==> AtomicSpin(c, db, req, true, ch').Ok?
  {
    hide ValidConfig, Solvent, AtomicSpin, Taken, Veto;
    SpinSucceeds(c, db, req, ch);
    SpinSucceeds(c, db, req, ch');
  }

  /** Nor do the ids of any other transaction. */
  lemma OnlyTheTablesMatter(c: Config, db: DB, op: Op, ch: Choices, ch': Choices)
    requires ValidConfig(c) && Solvent(db) && (op.SpinOp? ==> ch.word == ch'.word)
    ensures Atomic(c, db, op, true, ch).Ok? <==> Atomic(c, db, op, true, ch').Ok?
  {
    match op
    case SpinOp(req) =>
      hide AtomicSpin, ValidConfig, Solvent;
      OnlyTheWordMatters(c, db, req, ch, ch');
    case RegisterOp(phone, code, invite, grant) =>
      hide ValidConfig, Solvent, Recognised, HasPhone, HasCode, Referrer;
      SameGrantError(db, User(phone, code, Referrer(db.users, invite)), ch.uid, ch'.uid, grant);
    case TopUpOp(_, _, _, _) => hide ValidConfig, Solvent, Eligible, TopUpError, ToppedUp;
    case HoldOp(_, _, _) => hide ValidConfig, Solvent, HoldError, Held;
    case ReleaseOp(_, _) => hide ValidConfig, Solvent, ReleaseError, Released;
    case ReverseOp(_, _, _) => hide ValidConfig, Solvent, ReverseError, Reversed;
  }

  lemma SameGrantError(db: DB, user: User, uid: nat, uid': nat, grant: int)
    ensures GrantError(WalletAdded(UserAdded(db, uid, user), uid), uid, grant) ==
            GrantError(WalletAdded(UserAdded(db, uid', user), uid'), uid', grant)
  {
  }

  predicate Early(e: Error) {
    e.StakeTooSmall? || e.StakeTooLarge? || e.UserNotFound? || e.NoWallet? || e.InsufficientFunds? || e.StakeExceedsBank?
  }

  predicate Drawn(pc: Pc) {
    pc == Insert || Recorded(pc)
  }

  /** Past the veto, an atomic spin is only refused for what the word or the reference brought about. */
  lemma LateErrors(c: Config, db: DB, req: Request, ch: Choices)
    requires ValidConfig(c) && Solvent(db) && Veto(c, db, req) == None && AtomicSpin(c, db, req, true, ch).Err?
    ensures !Early(AtomicSpin(c, db, req, true, ch).error)
  {
    assert req.user in db.users;
    hide ValidConfig, Solvent, Veto, MakePlan, BetError, WinError, BankError, RefError, Taken, SpinChecks, Select, Payee;
    hide RowsPresent, AfterRef;
    AdmissionSuffices(c, db, req, ch);
  }

  lemma EarlyErrors(c: Config, tx: Tx, db: DB, seqs: Seqs, word: nat)
    requires tx.op.SpinOp? && tx.pc != Draw && !Drawn(tx.pc) && ExecSpin(c, tx, db, seqs, word, true).Fails?
    ensures Early(ExecSpin(c, tx, db, seqs, word, true).error)
  {
    hide MakePlan, MaxExposure, MaxAffordableStake, MaxMult, Payee;
  }

  lemma WordKept(c: Config, tx: Tx, db: DB, seqs: Seqs, word: nat)
    requires tx.op.SpinOp? && ExecSpin(c, tx, db, seqs, word, true).Goes?
    requires Drawn(tx.pc) ==> tx.ch.word == word
    ensures var tx' := ExecSpin(c, tx, db, seqs, word, true).tx;
            tx'.op == tx.op && (Drawn(tx'.pc) ==> tx'.ch.word == word)
  {
    hide MakePlan, MaxExposure, MaxAffordableStake, MaxMult, Payee, MoneyError, MoveError, HouseError, Taken, SpinChecks, Select, Moved;
  }

  /** While the spin would succeed alone with this word, none of its statements is refused. */
  lemma SpinNotRefused(c: Config, tx: Tx, db: DB, seqs: Seqs, word: nat, ch: Choices)
    requires ValidConfig(c) && GoodDB(db) && tx.op.SpinOp? && TxInv(c, tx, db)
    requires AtomicSpin(c, db, tx.op.req, true, ch).Ok? && ch.word == word
    requires Drawn(tx.pc) ==> tx.ch.word == word
    ensures !Exec(c, tx, db, seqs, word, true).Fails?
  {
    assert Solvent(db) && OwnersExist(db) && Veto(c, db, tx.op.req) == None;
    assert Exec(c, tx, db, seqs, word, true) == ExecSpin(c, tx, db, seqs, word, true);
    assert Atomic(c, db, tx.op, true, Seen(tx, word)).Err? ==> AtomicSpin(c, db, tx.op.req, true, Seen(tx, word)).Err?;
    assert Atomic(c, db, tx.op, true, Seen(tx, word)).Err? ==>
        Atomic(c, db, tx.op, true, Seen(tx, word)).error == AtomicSpin(c, db, tx.op.req, true, Seen(tx, word)).error;
    var seen := Seen(tx, word);
    assert tx.pc == Draw || Drawn(tx.pc) ==> seen.word == word;
    hide *;
    if Exec(c, tx, db, seqs, word, true).Fails? {
      RefusalIsAtomic(c, tx, db, seqs, word, true);
      if tx.pc == Draw || Drawn(tx.pc) {
        OnlyTheWordMatters(c, db, tx.op.req, ch, seen);
        assert false;
      } else {
        EarlyErrors(c, tx, db, seqs, word);
        LateErrors(c, db, tx.op.req, seen);
        assert false;
      }
    }
  }

  /** A spin past its draw carries that word. */
  predicate HasWord(tx: Tx, word: nat) {
    tx.op.SpinOp? && Drawn(tx.pc) ==> tx.ch.word == word
  }

  /** While a transaction would go through alone, none of its statements is refused. */
  lemma NotRefused(c: Config, tx: Tx, db: DB, seqs: Seqs, word: nat, ch: Choices)
    requires ValidConfig(c) && GoodDB(db) && TxInv(c, tx, db) && HasWord(tx, word)
    requires Atomic(c, db, tx.op, true, ch).Ok? && ch.word == word
    ensures !Exec(c, tx, db, seqs, word, true).Fails?
  {
    if tx.op.SpinOp? {
      assert AtomicSpin(c, db, tx.op.req, true, ch).Ok?;
      hide ValidConfig, GoodDB, TxInv, Exec, AtomicSpin, Drawn;
      SpinNotRefused(c, tx, db, seqs, word, ch);
    } else {
      assert Solvent(db) && OwnersExist(db);
      hide *;
      if Exec(c, tx, db, seqs, word, true).Fails? {
        RefusalIsAtomic(c, tx, db, seqs, word, true);
        OnlyTheTablesMatter(c, db, tx.op, ch, Seen(tx, word));
        assert false;
      }
    }
  }

  /** The state after the transaction has committed. */
  ghost predicate Committed(c: Config, s: State, s': State, op: Op, word: nat) {
    && s'.txs == map[] && |s'.log| == |s.log| + 1 && s.log <= s'.log
    && var e := s'.log[|s.log|];
       e.op == op && (op.SpinOp? ==> e.ch.word == word) && Atomic(c, s.db, op, true, e.ch) == Ok(s'.db)
  }

  /** The one open transaction, about to run with the given word. */
  ghost predicate Alone(c: Config, s: State, tid: nat, word: nat, ch: Choices) {
    && s.txs.Keys == {tid} && ch.word == word && HasWord(s.txs[tid], word)
    && Atomic(c, s.db, s.txs[tid].op, true, ch).Ok?
  }

  /** Its next statement goes through: it commits, or it is still alone with less to do. */
  lemma AloneGoesOn(c: Config, s: State, tid: nat, word: nat, ch: Choices)
    requires ValidConfig(c) && Inv(c, s) && Alone(c, s, tid, word, ch)
    ensures var l := Forward(tid, word, true);
            && Next(c, s, l).Some?
            && var s' := Next(c, s, l).value;
               if Committing(s, l) then Committed(c, s, s', s.txs[tid].op, word)
               else
                 && Alone(c, s', tid, word, ch) && s'.txs[tid].op == s.txs[tid].op && s'.db == s.db && s'.log == s.log
                 && Remaining(s'.txs[tid].pc) < Remaining(s.txs[tid].pc)
  {
    var l, tx := Forward(tid, word, true), s.txs[tid];
    assert TxInv(c, tx, s.db) && GoodDB(s.db) && OwnersExist(s.db) && !Blocked(c, s, tid);
    hide *;
    LoneTx(c, s, tid, word, ch);
    NotRefused(c, tx, s.db, s.seqs, word, ch);
    UnblockedGoesOn(c, s, tid);
    OnlyCommitCommits(c, tx, s.db, s.seqs, word, true);
    StepShape(c, s, l);
    CommittingAlone(s, tid, word);
    if tx.pc == Commit {
      LoneCommit(c, s, Next(c, s, l).value, tid, word);
    } else {
      StepKeepsWord(c, tx, s.db, s.seqs, word);
      StatementProgresses(c, tx, s.db, s.seqs, word, true);
      LoneStep(c, s, Next(c, s, l).value, tid, word, ch);
    }
  }

  lemma LoneTx(c: Config, s: State, tid: nat, word: nat, ch: Choices)
    requires Alone(c, s, tid, word, ch)
    ensures s.txs.Keys == {tid} && ch.word == word && HasWord(s.txs[tid], word)
    ensures Atomic(c, s.db, s.txs[tid].op, true, ch).Ok?
  {
  }

  lemma CommittingAlone(s: State, tid: nat, word: nat)
    requires tid in s.txs
    ensures Committing(s, Forward(tid, word, true)) <==> s.txs[tid].pc == Commit
  {
  }

  lemma LoneStep(c: Config, s: State, s': State, tid: nat, word: nat, ch: Choices)
    requires Alone(c, s, tid, word, ch) && s'.db == s.db && tid in s'.txs && s'.txs == s.txs[tid := s'.txs[tid]]
    requires s'.txs[tid].op == s.txs[tid].op && HasWord(s'.txs[tid], word)
    ensures Alone(c, s', tid, word, ch)
  {
    hide Atomic, HasWord;
  }

  lemma StepKeepsWord(c: Config, tx: Tx, db: DB, seqs: Seqs, word: nat)
    requires TxInv(c, tx, db) && Exec(c, tx, db, seqs, word, true).Goes? && HasWord(tx, word)
    ensures var tx' := Exec(c, tx, db, seqs, word, true).tx;
            tx'.op == tx.op && HasWord(tx', word)
  {
    if tx.op.SpinOp? {
      assert Exec(c, tx, db, seqs, word, true) == ExecSpin(c, tx, db, seqs, word, true);
      hide Exec, ExecSpin, Drawn, TxInv;
      WordKept(c, tx, db, seqs, word);
    } else {
      hide Exec, Drawn, TxInv, Wants;
      StatementGrows(c, tx, db, seqs, word, true);
    }
  }

  lemma LoneCommit(c: Config, s: State, s': State, tid: nat, word: nat)
    requires s.txs.Keys == {tid} && TxInv(c, s.txs[tid], s.db) && OwnersExist(s.db)
    requires s.txs[tid].pc == Commit && HasWord(s.txs[tid], word)
    requires var tx := s.txs[tid];
             s' == State(Merge(s.db, tx.frag, tx.locks), s.seqs, s.txs - {tid}, s.log + [Entry(tx.op, tx.ch)])
    ensures Committed(c, s, s', s.txs[tid].op, word)
  {
    hide TxInv, OwnersExist, Atomic, Merge;
    CommitIsAtomic(c, s.txs[tid], s.db);
  }

  lemma {:induction false} RunsToCommit(c: Config, s: State, tid: nat, word: nat, ch: Choices) returns (ls: seq<Label>)
    requires ValidConfig(c) && Inv(c, s) && Alone(c, s, tid, word, ch)
    ensures Run(c, s, ls).Some? && Committed(c, s, Run(c, s, ls).value, s.txs[tid].op, word)
    ensures AllForward(ls)
    decreases Remaining(s.txs[tid].pc)
  {
    var l := Forward(tid, word, true);
    AloneGoesOn(c, s, tid, word, ch);
    var s' := Next(c, s, l).value;
    assert tid in s.txs;
    hide Next, Inv, ValidConfig, Alone, Committing, Committed;
    if Committing(s, l) {
      ls := [l];
      LastLabel(c, s, l);
      hide *;
    } else {
      hide *;
      NextKeepsInv(c, s, l);
      var rest := RunsToCommit(c, s', tid, word, ch);
      RunCons(c, s, l, rest);
      ls := [l] + rest;
      ForwardFirst(l, rest);
      SameStart(c, s, s', Run(c, s', rest).value, s.txs[tid].op, word);
    }
  }

  lemma LastLabel(c: Config, s: State, l: Label)
    requires Next(c, s, l).Some? && l.Forward?
    ensures Run(c, s, [l]) == Next(c, s, l) && AllForward([l])
  {
    hide Next;
    assert [l][..0] == [];
    assert Run(c, s, []) == Some(s);
  }

  lemma SameStart(c: Config, s: State, s': State, end: State, op: Op, word: nat)
    requires s'.db == s.db && s'.log == s.log && Committed(c, s', end, op, word)
    ensures Committed(c, s, end, op, word)
  {
  }

  lemma BeginsAlone(c: Config, s: State, tid: nat, op: Op, ch: Choices)
    requires s.txs == map[] && Atomic(c, s.db, op, true, ch).Ok?
    ensures Next(c, s, Begin(tid, op)).Some?
    ensures var s' := Next(c, s, Begin(tid, op)).value;
            && Alone(c, s', tid, ch.word, ch) && s'.txs.Keys == {tid} && s'.txs[tid].op == op
            && s'.db == s.db && s'.log == s.log
  {
    hide Atomic;
  }

  /** Every transaction that goes through as one atomic step can be run by the machine from any state at rest: it is
      begun, goes statement by statement to its commit, and leaves the tables and the log entry of that atomic step, for a
      spin one drawn with the same word. */
  lemma EverythingCanCommit(c: Config, s: State, tid: nat, op: Op, ch: Choices) returns (ls: seq<Label>)
    requires ValidConfig(c) && Inv(c, s) && s.txs == map[] && Atomic(c, s.db, op, true, ch).Ok?
    ensures Run(c, s, ls).Some? && Committed(c, s, Run(c, s, ls).value, op, ch.word)
  {
    hide *;
    var l := Begin(tid, op);
    BeginsAlone(c, s, tid, op, ch);
    var s' := Next(c, s, l).value;
    NextKeepsInv(c, s, l);
    var rest := RunsToCommit(c, s', tid, ch.word, ch);
    RunCons(c, s, l, rest);
    ls := [l] + rest;
    SameStart(c, s, s', Run(c, s', rest).value, op, ch.word);
  }
}

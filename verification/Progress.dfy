/** Lock order, freedom from deadlock and termination (internal/wallet/wallet.go, internal/game/spin.go). */
module Progress {
  import opened Basics
  import opened Schema
  import opened Spin
  import opened Machine
  import opened Fragments
  import opened SpinRuns
  import opened Engine
  import opened MapSums

  /******* The global lock order *******/

  /** Unique keys of users, user rows, wallets by id, the house, spin keys. */
  function Class(r: Resource): nat {
    match r
    case PhoneKey(_) => 0
    case CodeKey(_) => 1
    case UserRow(_) => 2
    case WalletRow(_) => 3
    case HouseRow => 4
    case SpinKey(_, _) => 5
  }

  function Index(r: Resource): nat {
    match r
    case UserRow(id) => id
    case WalletRow(id) => id
    case _ => 0
  }

  predicate Precedes(a: Resource, b: Resource) {
    Class(a) < Class(b) || (Class(a) == Class(b) && Index(a) < Index(b))
  }

  /** A transaction asks for a lock it has, or for one beyond every lock it has. */
  ghost predicate Ascending(c: Config, tx: Tx, db: DB) {
    var w := Wants(c, tx, db);
    w.Some? ==> w.value in tx.locks || forall r | r in tx.locks :: Precedes(r, w.value)
  }

  lemma SpinAscends(c: Config, tx: Tx, db: DB)
    requires SpinInv(c, tx, db)
    ensures Ascending(c, tx, db)
  {
    var req, r := tx.op.req, Restrict(db, tx.locks);
    var ids := LockIds(req.user, tx.payee);
    assert req.user in ids && (tx.payee.Some? ==> tx.payee.value in ids);
    if tx.pc.LockNext? && tx.pc.k < |ids| {
      forall l | l in tx.locks ensures Precedes(l, WalletRow(ids[tx.pc.k])) {
        assert l.WalletRow? && l.id in ids[..tx.pc.k];
      }
    } else if tx.pc == RefStep || tx.pc == BetStep || tx.pc == WinStep || tx.pc == BankStep {
      LocksOfSpin(c, tx, req, r);
    }
  }

  lemma LocksAscend(c: Config, tx: Tx, db: DB)
    requires TxInv(c, tx, db)
    ensures Ascending(c, tx, db)
  {
    match tx.op
    case SpinOp(_) => SpinAscends(c, tx, db);
    case _ =>
  }

  /** Money only ever moves under a lock already held: from the funds check on, a spin locks nothing but the
      house and its own reference. */
  lemma MovesUnderLock(c: Config, tx: Tx, db: DB)
    requires TxInv(c, tx, db) && tx.pc in {BetStep, WinStep, BankStep, RefStep, Body, Grant}
    ensures Wants(c, tx, db).Some? ==> Wants(c, tx, db).value in tx.locks
  {
    match tx.op
    case SpinOp(req) =>
      if Recorded(tx.pc) {
        LocksOfSpin(c, tx, req, Restrict(db, tx.locks));
      }
    case _ =>
  }

  /** A spin's reference is locked only together with its player's wallet ... */
  lemma SpinKeyNeedsWallet(c: Config, tx: Tx, db: DB, user: nat, ref: string)
    requires TxInv(c, tx, db) && SpinKey(user, ref) in tx.locks
    ensures WalletRow(user) in tx.locks
  {
    match tx.op
    case SpinOp(req) =>
      KeyIsRecorded(c, tx, req, Restrict(db, tx.locks), user, ref);
      LocksOfSpin(c, tx, req, Restrict(db, tx.locks));
    case _ =>
  }

  lemma KeyIsRecorded(c: Config, tx: Tx, req: Request, r: DB, user: nat, ref: string)
    requires SpinLocal(c, tx, req, r) && SpinKey(user, ref) in tx.locks
    ensures Recorded(tx.pc) && user == req.user
  {
    hide MakePlan, RowsPresent, AfterInsert, AfterBet, AfterWin, AfterHouse, AfterRef, LockIds;
  }

  /** ... so inserting a spin never waits for the unique index. */
  lemma InsertNeverWaits(c: Config, s: State, tid: nat)
    requires Inv(c, s) && tid in s.txs && s.txs[tid].op.SpinOp? && s.txs[tid].pc == Insert
    ensures !Blocked(c, s, tid)
  {
    var req := s.txs[tid].op.req;
    assert TxInv(c, s.txs[tid], s.db);
    assert req.user in LockIds(req.user, s.txs[tid].payee);
    assert WalletRow(req.user) in s.txs[tid].locks;
    forall t | t in s.txs && t != tid ensures SpinKey(req.user, req.clientRef) !in s.txs[t].locks {
      assert TxInv(c, s.txs[t], s.db) && Apart(s.txs[tid], s.txs[t]);
      if SpinKey(req.user, req.clientRef) in s.txs[t].locks {
        SpinKeyNeedsWallet(c, s.txs[t], s.db, req.user, req.clientRef);
      }
    }
  }

  /******* Waiting *******/

  /** The lock `t` asks for next (meaningful only for a transaction that asks for one). */
  function Wanted(c: Config, s: State, t: nat): Resource {
    if t in s.txs && Wants(c, s.txs[t], s.db).Some? then Wants(c, s.txs[t], s.db).value else HouseRow
  }

  ghost predicate WaitsFor(c: Config, s: State, t: nat, u: nat) {
    && t in s.txs && u in s.txs && t != u
    && Wants(c, s.txs[t], s.db).Some? && Wanted(c, s, t) in s.txs[u].locks
  }

  /** Whoever is waited for and waits in turn, waits for something further up the order. */
  lemma WaitingAscends(c: Config, s: State, t: nat, u: nat, v: nat)
    requires Inv(c, s) && WaitsFor(c, s, t, u) && WaitsFor(c, s, u, v)
    ensures Precedes(Wanted(c, s, t), Wanted(c, s, u))
  {
    assert TxInv(c, s.txs[u], s.db);
    LocksAscend(c, s.txs[u], s.db);
    assert Apart(s.txs[u], s.txs[v]);
  }

  ghost predicate WaitPath(c: Config, s: State, p: seq<nat>) {
    forall i | 0 <= i < |p| - 1 :: WaitsFor(c, s, p[i], p[i + 1])
  }

  lemma {:induction false} PathAscends(c: Config, s: State, p: seq<nat>, k: nat)
    requires Inv(c, s) && WaitPath(c, s, p) && 0 < k < |p| - 1
    ensures Precedes(Wanted(c, s, p[0]), Wanted(c, s, p[k]))
  {
    assert WaitsFor(c, s, p[k - 1], p[k - 1 + 1]) && WaitsFor(c, s, p[k], p[k + 1]);
    WaitingAscends(c, s, p[k - 1], p[k], p[k + 1]);
    if k > 1 {
      PathAscends(c, s, p, k - 1);
    }
  }

  /** No cycle of transactions waiting for each other, of any length. */
  lemma NoWaitCycle(c: Config, s: State, p: seq<nat>)
    requires Inv(c, s) && |p| >= 2 && WaitPath(c, s, p)
    ensures p[0] != p[|p| - 1]
  {
    var last := |p| - 1;
    assert WaitsFor(c, s, p[0], p[0 + 1]) && WaitsFor(c, s, p[last - 1], p[last - 1 + 1]);
    if p[0] == p[last] {
      WaitingAscends(c, s, p[last - 1], p[0], p[1]);
      if last > 1 {
        PathAscends(c, s, p, last - 1);
      }
    }
  }

  /** Among blocked transactions one waits furthest up the order. */
  lemma {:induction false} FurthestWait(c: Config, s: State, ts: set<nat>) returns (t: nat)
    requires ts != {}
    ensures t in ts
    ensures forall u | u in ts :: !Precedes(Wanted(c, s, t), Wanted(c, s, u))
    decreases |ts|
  {
    hide Wanted;
    var x :| x in ts;
    if ts == {x} {
      t := x;
    } else {
      assert ts - {x} != {};
      var y := FurthestWait(c, s, ts - {x});
      t := if Precedes(Wanted(c, s, y), Wanted(c, s, x)) then x else y;
    }
  }

  lemma BlockedWaits(c: Config, s: State, t: nat) returns (u: nat)
    requires t in s.txs && Blocked(c, s, t)
    ensures WaitsFor(c, s, t, u)
  {
    u :| u in s.txs && u != t && Wanted(c, s, t) in s.txs[u].locks;
  }

  lemma UnblockedGoesOn(c: Config, s: State, t: nat)
    requires t in s.txs && !Blocked(c, s, t)
    ensures forall word: nat, entropy :: Next(c, s, Forward(t, word, entropy)).Some?
  {
    hide Exec;
  }

  /** Freedom from deadlock: while a transaction is open, some transaction can take its next step forward. */
  lemma NoDeadlock(c: Config, s: State) returns (t: nat)
    requires Inv(c, s) && s.txs != map[]
    ensures t in s.txs && !Blocked(c, s, t)
    ensures forall word: nat, entropy :: Next(c, s, Forward(t, word, entropy)).Some?
  {
    t := FurthestWait(c, s, s.txs.Keys);
    if Blocked(c, s, t) {
      var u := BlockedWaits(c, s, t);
      if Blocked(c, s, u) {
        var v := BlockedWaits(c, s, u);
        WaitingAscends(c, s, t, u, v);
        assert false;
      }
      t := u;
    }
    UnblockedGoesOn(c, s, t);
  }

  /******* Termination *******/

  ghost function WorkLeft(txs: map<nat, Tx>): map<nat, int> {
    map t | t in txs :: Remaining(txs[t].pc)
  }

  ghost function Work(txs: map<nat, Tx>): int {
    MapSum(WorkLeft(txs))
  }

  lemma WorkDrop(txs: map<nat, Tx>, t: nat)
    requires t in txs
    ensures Work(txs - {t}) == Work(txs) - Remaining(txs[t].pc)
  {
    MapSumRemove(WorkLeft(txs), t);
    assert WorkLeft(txs) - {t} == WorkLeft(txs - {t});
  }

  lemma WorkPut(txs: map<nat, Tx>, t: nat, tx: Tx)
    requires t in txs
    ensures Work(txs[t := tx]) == Work(txs) - Remaining(txs[t].pc) + Remaining(tx.pc)
  {
    MapSumPut(WorkLeft(txs), t, Remaining(tx.pc));
    assert WorkLeft(txs)[t := Remaining(tx.pc)] == WorkLeft(txs[t := tx]);
  }

  lemma {:induction false} WorkNonneg(m: map<nat, int>)
    requires forall k | k in m :: m[k] >= 0
    ensures MapSum(m) >= 0
    decreases |m|
  {
    if m != map[] {
      var k :| k in m && MapSum(m) == m[k] + MapSum(m - {k});
      WorkNonneg(m - {k});
    }
  }

  lemma StatementProgresses(c: Config, tx: Tx, db: DB, seqs: Seqs, word: nat, entropy: bool)
    requires TxInv(c, tx, db) && Exec(c, tx, db, seqs, word, entropy).Goes?
    ensures Remaining(Exec(c, tx, db, seqs, word, entropy).tx.pc) < Remaining(tx.pc)
  {
    StatementGrows(c, tx, db, seqs, word, entropy);
  }

  lemma SomethingLeft(pc: Pc)
    ensures Remaining(pc) > 0
  {
  }

  lemma LabelOfTx(c: Config, s: State, l: Label)
    requires Inv(c, s) && !l.Begin? && Next(c, s, l).Some?
    ensures l.tid in s.txs && TxInv(c, s.txs[l.tid], s.db)
  {
    hide SeqsAbove, AllIssued, AllApart, TxInv, Exec, Merge;
  }

  /** Every step but the opening of a transaction uses up work: nothing retries, nothing loops. */
  lemma StepsUseUpWork(c: Config, s: State, l: Label)
    requires Inv(c, s) && !l.Begin? && Next(c, s, l).Some?
    ensures Work(Next(c, s, l).value.txs) < Work(s.txs)
  {
    hide *;
    LabelOfTx(c, s, l);
    var tx := s.txs[l.tid];
    SomethingLeft(tx.pc);
    StepsOpenTxs(c, s, l);
    WorkDrop(s.txs, l.tid);
    var s' := Next(c, s, l).value;
    if l.Forward? && Exec(c, tx, s.db, s.seqs, l.word, l.entropy).Goes? {
      StatementProgresses(c, tx, s.db, s.seqs, l.word, l.entropy);
      WorkPut(s.txs, l.tid, Exec(c, tx, s.db, s.seqs, l.word, l.entropy).tx);
      assert s'.txs == s.txs[l.tid := Exec(c, tx, s.db, s.seqs, l.word, l.entropy).tx];
    } else {
      assert s'.txs == s.txs - {l.tid};
    }
  }

  lemma {:induction false} RunCons(c: Config, s: State, l: Label, ls: seq<Label>)
    requires Next(c, s, l).Some?
    ensures Run(c, s, [l] + ls) == Run(c, Next(c, s, l).value, ls)
    decreases |ls|
  {
    var all := [l] + ls;
    if ls == [] {
      assert all[..0] == [] && all[0] == l;
      assert Run(c, s, all[..0]) == Some(s);
    } else {
      assert all[..|all| - 1] == [l] + ls[..|ls| - 1];
      RunCons(c, s, l, ls[..|ls| - 1]);
    }
  }

  ghost predicate AllForward(ls: seq<Label>) {
    forall l | l in ls :: l.Forward?
  }

  lemma SomebodyMoves(c: Config, s: State) returns (l: Label)
    requires ValidConfig(c) && Inv(c, s) && s.txs != map[]
    ensures l.Forward? && Next(c, s, l).Some?
    ensures Inv(c, Next(c, s, l).value) && Work(Next(c, s, l).value.txs) < Work(s.txs)
  {
    hide *;
    var t := NoDeadlock(c, s);
    l := Forward(t, 0, true);
    StepsUseUpWork(c, s, l);
    NextKeepsInv(c, s, l);
  }

  lemma WorkBounded(s: State)
    ensures Work(s.txs) >= 0
  {
    WorkNonneg(WorkLeft(s.txs));
  }

  lemma ForwardFirst(l: Label, ls: seq<Label>)
    requires l.Forward? && AllForward(ls)
    ensures AllForward([l] + ls)
  {
  }

  /** From every reachable state the open transactions can all be finished, each by committing or by its own
      refusal, in at most as many statements as they have left. */
  lemma {:induction false} EverybodyFinishes(c: Config, s: State) returns (ls: seq<Label>)
    requires ValidConfig(c) && Inv(c, s)
    ensures AllForward(ls) && |ls| <= Work(s.txs)
    ensures Run(c, s, ls).Some? && Run(c, s, ls).value.txs == map[]
    decreases Work(s.txs)
  {
    WorkBounded(s);
    if s.txs == map[] {
      ls := [];
    } else {
      hide *;
      var l := SomebodyMoves(c, s);
      var rest := EverybodyFinishes(c, Next(c, s, l).value);
      RunCons(c, s, l, rest);
      ForwardFirst(l, rest);
      ls := [l] + rest;
    }
  }
}

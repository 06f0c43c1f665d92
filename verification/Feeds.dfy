/** The history and spin lists over a run of the money engine: whatever is committed between two pages. */
module Feeds {
  import opened Basics
  import opened Paging
  import opened Schema
  import opened Spin
  import opened Transactions
  import opened Integrity
  import opened Machine
  import opened SpinRuns
  import opened Engine

  /** The rows of transactions the history query selects, by ascending id. */
  function History(l: seq<Row>, user: nat, kind: Option<Kind>): seq<Item<Row>> {
    if l == [] then [] else
      var r := l[|l| - 1];
      History(l[..|l| - 1], user, kind)
      + if r.user == user && (kind == None || kind.value == r.kind) then [Item(r.id, r)] else []
  }

  /** The user's rows of spins with an id below `n`, by ascending id. */
  function SpinList(spins: map<nat, SpinRow>, user: nat, n: nat): seq<Item<SpinRow>> {
    if n == 0 then [] else
      SpinList(spins, user, n - 1) + if n - 1 in spins && spins[n - 1].user == user then [Item(n - 1, spins[n - 1])] else []
  }

  /******* The tables only grow, and each user's ids ascend *******/

  ghost predicate SpinsGrow(db: DB, db': DB) {
    && (forall s | s in db.spins :: s in db'.spins && db'.spins[s] == db.spins[s])
    && forall s | s in db'.spins && s !in db.spins :: SpinIdsBelow(db, db'.spins[s].user, s)
  }

  ghost predicate Later(s: State, s': State) {
    s.db.ledger <= s'.db.ledger && SpinsGrow(s.db, s'.db) && s.seqs.spin <= s'.seqs.spin && s.seqs.row <= s'.seqs.row
  }

  /** One commit: the ledger keeps its rows, and a new spin's id is above its player's others. */
  lemma CommitGrows(c: Config, tx: Tx, db: DB)
    requires TxInv(c, tx, db) && tx.pc == Commit && OwnersExist(db)
    ensures db.ledger <= Merge(db, tx.frag, tx.locks).ledger && SpinsGrow(db, Merge(db, tx.frag, tx.locks))
  {
    CommitIsAtomic(c, tx, db);
    var db' := Merge(db, tx.frag, tx.locks);
    if tx.op.SpinOp? {
      SpinCommitGrows(c, db, db', tx.op.req, tx.ch);
    } else {
      OthersKeepSpins(c, db, db', tx.op, tx.ch);
    }
  }

  lemma SpinCommitGrows(c: Config, db: DB, db': DB, req: Request, ch: Choices)
    requires Atomic(c, db, SpinOp(req), true, ch) == Ok(db') && FreshFor(c, db, SpinOp(req), ch)
    ensures SpinsGrow(db, db')
  {
    var p := MakePlan(c, req, Payee(c, db.users, req), ch.word);
    assert db'.spins == db.spins[ch.spinId := RecordOf(req, p)];
  }

  lemma OthersKeepSpins(c: Config, db: DB, db': DB, op: Op, ch: Choices)
    requires !op.SpinOp? && Atomic(c, db, op, true, ch) == Ok(db')
    ensures SpinsGrow(db, db')
  {
    assert db'.spins == db.spins;
  }

  lemma NextGrows(c: Config, s: State, l: Label)
    requires Inv(c, s) && Next(c, s, l).Some?
    ensures Later(s, Next(c, s, l).value)
  {
    if Committing(s, l) {
      assert TxInv(c, s.txs[l.tid], s.db) && OwnersExist(s.db);
      hide Inv, Next, TxInv, Committing, SpinsGrow, OwnersExist;
      CommitStep(c, s, l);
      CommitGrows(c, s.txs[l.tid], s.db);
    } else {
      OtherStep(c, s, l);
      Unchanged(s.db);
    }
  }

  lemma Unchanged(db: DB)
    ensures SpinsGrow(db, db)
  {
  }

  lemma LaterStill(a: State, b: State, d: State)
    requires Later(a, b) && Later(b, d)
    ensures Later(a, d)
  {
    forall s | s in d.db.spins && s !in a.db.spins ensures SpinIdsBelow(a.db, d.db.spins[s].user, s) {
      if s in b.db.spins {
        assert SpinIdsBelow(a.db, b.db.spins[s].user, s);
      } else {
        assert SpinIdsBelow(b.db, d.db.spins[s].user, s);
      }
    }
  }

  /** The state after the first i labels. */
  ghost function StateAt(c: Config, s0: State, ls: seq<Label>, i: nat): State {
    if i <= |ls| && Run(c, s0, ls[..i]).Some? then Run(c, s0, ls[..i]).value else s0
  }

  lemma {:induction false} Prefixes(c: Config, s0: State, ls: seq<Label>, i: nat)
    requires i <= |ls| && Run(c, s0, ls).Some?
    ensures Run(c, s0, ls[..i]).Some?
  {
    if i < |ls| {
      Prefixes(c, s0, ls[..|ls| - 1], i);
      assert ls[..|ls| - 1][..i] == ls[..i];
    } else {
      assert ls[..i] == ls;
    }
  }

  lemma {:induction false} RunGrows(c: Config, s0: State, ls: seq<Label>, i: nat, j: nat)
    requires ValidConfig(c) && Initial(s0) && Run(c, s0, ls).Some? && i <= j <= |ls|
    ensures Later(StateAt(c, s0, ls, i), StateAt(c, s0, ls, j))
    ensures Inv(c, StateAt(c, s0, ls, j))
    decreases j
  {
    hide *;
    KeptAt(c, s0, ls, j);
    if i == j {
      NoLater(StateAt(c, s0, ls, i));
    } else {
      RunGrows(c, s0, ls, i, j - 1);
      OneMore(c, s0, ls, j);
      NextGrows(c, StateAt(c, s0, ls, j - 1), ls[j - 1]);
      LaterStill(StateAt(c, s0, ls, i), StateAt(c, s0, ls, j - 1), StateAt(c, s0, ls, j));
    }
  }

  lemma KeptAt(c: Config, s0: State, ls: seq<Label>, j: nat)
    requires ValidConfig(c) && Initial(s0) && Run(c, s0, ls).Some? && j <= |ls|
    ensures Run(c, s0, ls[..j]).Some? && Inv(c, StateAt(c, s0, ls, j))
  {
    hide Run, Inv, Initial, ValidConfig;
    Prefixes(c, s0, ls, j);
    RunKeepsInv(c, s0, ls[..j]);
  }

  lemma NoLater(s: State)
    ensures Later(s, s)
  {
    hide SpinsGrow;
    Unchanged(s.db);
  }

  lemma OneMore(c: Config, s0: State, ls: seq<Label>, j: nat)
    requires 0 < j <= |ls| && Run(c, s0, ls[..j]).Some?
    ensures Run(c, s0, ls[..j - 1]).Some?
    ensures Next(c, StateAt(c, s0, ls, j - 1), ls[j - 1]) == Some(StateAt(c, s0, ls, j))
  {
    assert ls[..j][..j - 1] == ls[..j - 1];
  }

  /******* Ids start at 1 *******/

  ghost predicate RowsFromOne(db: DB) {
    (forall r | r in db.ledger :: r.id >= 1) && forall s | s in db.spins :: s >= 1
  }

  /** A bigserial hands out 1 first. */
  ghost predicate FromOne(s: State) {
    s.seqs.row >= 1 && s.seqs.spin >= 1 && RowsFromOne(s.db) && forall t | t in s.txs :: RowsFromOne(s.txs[t].frag)
  }

  lemma StatementFromOne(c: Config, tx: Tx, db: DB, seqs: Seqs, word: nat, entropy: bool)
    requires TxInv(c, tx, db) && Exec(c, tx, db, seqs, word, entropy).Goes?
    requires RowsFromOne(tx.frag) && seqs.row >= 1 && seqs.spin >= 1
    ensures RowsFromOne(Exec(c, tx, db, seqs, word, entropy).tx.frag)
  {
    var tx' := Exec(c, tx, db, seqs, word, entropy).tx;
    StatementGrows(c, tx, db, seqs, word, entropy);
    hide Exec, TxInv, Wants;
    assert forall s | s in tx'.frag.spins :: s in tx.frag.spins.Keys + {seqs.spin};
  }

  lemma NextFromOne(c: Config, s: State, l: Label)
    requires Inv(c, s) && Next(c, s, l).Some? && FromOne(s)
    ensures FromOne(Next(c, s, l).value)
  {
    if l.Forward? {
      hide *;
      StepShape(c, s, l);
      var tx, s' := s.txs[l.tid], Next(c, s, l).value;
      Known(c, s, l.tid);
      BumpRises(s.seqs, tx.pc);
      TxFromOne(s, l.tid);
      if Exec(c, tx, s.db, s.seqs, l.word, l.entropy).Goes? {
        StatementFromOne(c, tx, s.db, s.seqs, l.word, l.entropy);
        StaysFromOne(s, s', l.tid);
      } else {
        DropsFromOne(s, s', l.tid);
      }
    } else {
      hide Inv;
    }
  }

  lemma TxFromOne(s: State, tid: nat)
    requires FromOne(s) && tid in s.txs
    ensures RowsFromOne(s.txs[tid].frag) && s.seqs.row >= 1 && s.seqs.spin >= 1
  {
  }

  lemma StaysFromOne(s: State, s': State, tid: nat)
    requires FromOne(s) && tid in s.txs && tid in s'.txs && RowsFromOne(s'.txs[tid].frag)
    requires s'.db == s.db && s'.seqs.row >= s.seqs.row && s'.seqs.spin >= s.seqs.spin
    requires s'.txs == s.txs[tid := s'.txs[tid]]
    ensures FromOne(s')
  {
    hide RowsFromOne;
  }

  lemma DropsFromOne(s: State, s': State, tid: nat)
    requires FromOne(s) && tid in s.txs && s'.txs == s.txs - {tid}
    requires s'.seqs.row >= s.seqs.row && s'.seqs.spin >= s.seqs.spin
    requires s'.db == s.db || s'.db == Merge(s.db, s.txs[tid].frag, s.txs[tid].locks)
    ensures FromOne(s')
  {
    assert RowsFromOne(s.txs[tid].frag);
    MergedFromOne(s.db, s.txs[tid]);
    hide RowsFromOne, Merge;
  }

  lemma MergedFromOne(db: DB, tx: Tx)
    requires RowsFromOne(db) && RowsFromOne(tx.frag)
    ensures RowsFromOne(Merge(db, tx.frag, tx.locks))
  {
  }

  lemma {:induction false} RunFromOne(c: Config, s0: State, ls: seq<Label>)
    requires ValidConfig(c) && Initial(s0) && Run(c, s0, ls).Some? && FromOne(s0)
    ensures FromOne(Run(c, s0, ls).value)
  {
    if ls != [] {
      var before := ls[..|ls| - 1];
      RunFromOne(c, s0, before);
      RunKeepsInv(c, s0, before);
      var s := Run(c, s0, before).value;
      assert Next(c, s, ls[|ls| - 1]) == Run(c, s0, ls);
      hide Run, Next, Inv, FromOne, Initial, ValidConfig;
      NextFromOne(c, s, ls[|ls| - 1]);
    }
  }

  /** Neither sequence has run out by the end of the run. */
  ghost predicate IdsLeft(c: Config, s0: State, ls: seq<Label>) {
    var s := StateAt(c, s0, ls, |ls|);
    s.seqs.row <= MAX_INT64 && s.seqs.spin <= MAX_INT64
  }

  lemma IdsInRange(c: Config, s0: State, ls: seq<Label>, i: nat)
    requires ValidConfig(c) && Initial(s0) && Run(c, s0, ls).Some? && FromOne(s0) && IdsLeft(c, s0, ls) && i <= |ls|
    ensures var s := StateAt(c, s0, ls, i);
            && (forall r | r in s.db.ledger :: 0 < r.id <= MAX_INT64)
            && s.seqs.spin <= MAX_INT64 && forall k | k in s.db.spins :: 0 < k < s.seqs.spin
  {
    RunGrows(c, s0, ls, i, |ls|);
    RunGrows(c, s0, ls, i, i);
    Prefixes(c, s0, ls, i);
    RunFromOne(c, s0, ls[..i]);
    assert StateAt(c, s0, ls, i) == Run(c, s0, ls[..i]).value;
    var s := StateAt(c, s0, ls, i);
    assert FromOne(s) && SeqsAbove(s.db, s.seqs) && s.seqs.row <= MAX_INT64;
    hide Run, StateAt, Inv, Initial, ValidConfig;
  }

  /******* History *******/

  lemma {:induction false} HistoryRows(l: seq<Row>, user: nat, kind: Option<Kind>)
    ensures forall i | i in History(l, user, kind) ::
              i.row in l && i.row.user == user && i.id == i.row.id && (kind.Some? ==> i.row.kind == kind.value)
    ensures forall r | r in l && r.user == user && (kind.Some? ==> r.kind == kind.value) ::
              Item(r.id, r) in History(l, user, kind)
  {
    if l != [] {
      HistoryRows(l[..|l| - 1], user, kind);
    }
  }

  lemma {:induction false} HistoryAscends(l: seq<Row>, user: nat, kind: Option<Kind>)
    requires IdsAscend(l)
    ensures Ascending(History(l, user, kind))
  {
    if l != [] {
      var shorter, last := l[..|l| - 1], l[|l| - 1];
      HistoryAscends(shorter, user, kind);
      HistoryRows(shorter, user, kind);
      forall i | i in History(shorter, user, kind) && last.user == user ensures i.id < last.id {
        var k :| 0 <= k < |shorter| && shorter[k] == i.row;
        assert l[k].user == last.user;
      }
    }
  }

  lemma {:induction false} HistoryExtends(l: seq<Row>, m: seq<Row>, user: nat, kind: Option<Kind>)
    requires l <= m
    ensures History(l, user, kind) <= History(m, user, kind)
  {
    if l != m {
      HistoryExtends(l, m[..|m| - 1], user, kind);
    }
  }

  ghost function HistoryView(
    c: Config, s0: State, ls: seq<Label>, asked: nat -> nat, user: nat, kind: Option<Kind>): nat -> seq<Item<Row>>
  {
    (n: nat) => History(StateAt(c, s0, ls, asked(n)).db.ledger, user, kind)
  }

  lemma HistoryLater(c: Config, s0: State, ls: seq<Label>, i: nat, j: nat, user: nat, kind: Option<Kind>)
    requires ValidConfig(c) && Initial(s0) && Run(c, s0, ls).Some? && i <= j <= |ls|
    ensures Extends(History(StateAt(c, s0, ls, i).db.ledger, user, kind),
                    History(StateAt(c, s0, ls, j).db.ledger, user, kind))
  {
    RunGrows(c, s0, ls, i, j);
    var l, m := StateAt(c, s0, ls, i).db.ledger, StateAt(c, s0, ls, j).db.ledger;
    assert IdsAscend(m);
    HistoryAscends(m, user, kind);
    HistoryExtends(l, m, user, kind);
  }

  /** A player who pages through the history while any transactions run gets exactly the rows that were there at
      the first request, each once, newest first. Page n is answered after `asked(n)` steps of the run. */
  lemma HistoryWalkIsComplete(
    c: Config, s0: State, ls: seq<Label>, asked: nat -> nat, user: nat, kind: Option<Kind>, limit: nat)
    requires ValidConfig(c) && Initial(s0) && Run(c, s0, ls).Some? && limit > 0
    requires FromOne(s0) && IdsLeft(c, s0, ls) && forall n: nat :: asked(0) <= asked(n) <= |ls|
    ensures var view := HistoryView(c, s0, ls, asked, user, kind);
            && (forall n: nat :: Ascending(view(n)) && Printable(view(n)))
            && WalkText(view, 0, "", limit) == Reverse(History(StateAt(c, s0, ls, asked(0)).db.ledger, user, kind))
  {
    var view := HistoryView(c, s0, ls, asked, user, kind);
    forall n: nat ensures Extends(view(0), view(n)) && Printable(view(n)) {
      HistoryLater(c, s0, ls, asked(0), asked(n), user, kind);
      HistoryPrintable(c, s0, ls, asked(n), user, kind);
    }
    TextWalkIsComplete(view, limit);
  }

  lemma HistoryPrintable(c: Config, s0: State, ls: seq<Label>, i: nat, user: nat, kind: Option<Kind>)
    requires ValidConfig(c) && Initial(s0) && Run(c, s0, ls).Some? && FromOne(s0) && IdsLeft(c, s0, ls) && i <= |ls|
    ensures Printable(History(StateAt(c, s0, ls, i).db.ledger, user, kind))
  {
    IdsInRange(c, s0, ls, i);
    HistoryRows(StateAt(c, s0, ls, i).db.ledger, user, kind);
  }

  /******* Spins *******/

  lemma {:induction false} SpinListAscends(spins: map<nat, SpinRow>, user: nat, n: nat)
    ensures Ascending(SpinList(spins, user, n))
    ensures forall i | i in SpinList(spins, user, n) :: i.id < n
  {
    if n > 0 {
      SpinListAscends(spins, user, n - 1);
    }
  }

  /** The list holds exactly the user's spins. */
  lemma {:induction false} SpinListRows(spins: map<nat, SpinRow>, user: nat, n: nat, i: Item<SpinRow>)
    ensures i in SpinList(spins, user, n) <==>
            i.id < n && i.id in spins && i.row == spins[i.id] && spins[i.id].user == user
  {
    if n > 0 {
      SpinListRows(spins, user, n - 1, i);
    }
  }

  /** Below an id the user already has, nothing is ever added. */
  lemma {:induction false} SameBelow(db: DB, db': DB, user: nat, n: nat)
    requires SpinsGrow(db, db') && exists k | k in db.spins :: n <= k + 1 && db.spins[k].user == user
    ensures SpinList(db.spins, user, n) == SpinList(db'.spins, user, n)
  {
    if n > 0 {
      SameBelow(db, db', user, n - 1);
    }
  }

  lemma {:induction false} SpinListExtends(db: DB, db': DB, user: nat, n: nat)
    requires SpinsGrow(db, db')
    ensures SpinList(db.spins, user, n) <= SpinList(db'.spins, user, n)
  {
    if n > 0 {
      if exists k | k in db.spins :: n <= k + 1 && db.spins[k].user == user {
        SameBelow(db, db', user, n);
      } else {
        SpinListExtends(db, db', user, n - 1);
      }
    }
  }

  /** The list is the same whatever bound above every id it is built with. */
  lemma {:induction false} SpinListBound(spins: map<nat, SpinRow>, user: nat, n: nat, m: nat)
    requires n <= m && forall s | s in spins :: s < n
    ensures SpinList(spins, user, n) == SpinList(spins, user, m)
  {
    if n < m {
      SpinListBound(spins, user, n, m - 1);
    }
  }

  ghost function SpinView(c: Config, s0: State, ls: seq<Label>, asked: nat -> nat, user: nat): nat -> seq<Item<SpinRow>> {
    (n: nat) => SpinFeed(StateAt(c, s0, ls, asked(n)), user)
  }

  function SpinFeed(s: State, user: nat): seq<Item<SpinRow>> {
    SpinList(s.db.spins, user, s.seqs.spin)
  }

  lemma SpinFeedLater(s: State, s': State, user: nat)
    requires Later(s, s') && SeqsAbove(s.db, s.seqs)
    ensures Extends(SpinFeed(s, user), SpinFeed(s', user))
  {
    SpinListAscends(s'.db.spins, user, s'.seqs.spin);
    SpinListBound(s.db.spins, user, s.seqs.spin, s'.seqs.spin);
    SpinListExtends(s.db, s'.db, user, s'.seqs.spin);
  }

  /** The same for the list of spins. */
  lemma SpinWalkIsComplete(c: Config, s0: State, ls: seq<Label>, asked: nat -> nat, user: nat, limit: nat)
    requires ValidConfig(c) && Initial(s0) && Run(c, s0, ls).Some? && limit > 0
    requires FromOne(s0) && IdsLeft(c, s0, ls) && forall n: nat :: asked(0) <= asked(n) <= |ls|
    ensures var view := SpinView(c, s0, ls, asked, user);
            && (forall n: nat :: Ascending(view(n)) && Printable(view(n)))
            && WalkText(view, 0, "", limit) == Reverse(SpinFeed(StateAt(c, s0, ls, asked(0)), user))
  {
    var view := SpinView(c, s0, ls, asked, user);
    RunGrows(c, s0, ls, asked(0), asked(0));
    forall n: nat ensures Extends(view(0), view(n)) && Printable(view(n)) {
      RunGrows(c, s0, ls, asked(0), asked(n));
      SpinFeedLater(StateAt(c, s0, ls, asked(0)), StateAt(c, s0, ls, asked(n)), user);
      SpinsPrintable(c, s0, ls, asked(n), user);
    }
    TextWalkIsComplete(view, limit);
  }

  lemma SpinsPrintable(c: Config, s0: State, ls: seq<Label>, i: nat, user: nat)
    requires ValidConfig(c) && Initial(s0) && Run(c, s0, ls).Some? && FromOne(s0) && IdsLeft(c, s0, ls) && i <= |ls|
    ensures Printable(SpinFeed(StateAt(c, s0, ls, i), user))
  {
    IdsInRange(c, s0, ls, i);
    var s := StateAt(c, s0, ls, i);
    forall x | x in SpinFeed(s, user) ensures 0 < x.id <= MAX_INT64 {
      SpinListRows(s.db.spins, user, s.seqs.spin, x);
    }
  }
}

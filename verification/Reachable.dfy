/** The invariants read off any state that some interleaving reaches. */
module Reachable {
  import opened Basics
  import opened Schema
  import opened Spin
  import opened Transactions
  import opened Integrity
  import opened Machine
  import opened SpinRuns
  import opened Engine
  import opened Progress
  import opened Feeds
  import opened StakeCap

  /** Where every database starts: no users, and whatever the house was given. */
  lemma EmptyDatabase(bankroll: int)
    requires 0 <= bankroll <= MAX_INT64
    ensures var s := State(EMPTY.(house := House(bankroll, 0)), Seqs(1, 1, 1), map[], []);
            Initial(s) && FromOne(s)
  {
  }

  /** One player whose deposit of 1000 shillings is on record, and a house that can pay a win on its smallest stake. */
  const FUNDED: DB :=
    DB(map[1 := User("254700000001", "AAAAAAAA", None)], map[], map[1 := Wallet(100000, 0, 0)], House(100000, 0),
       [Row(1, 1, Deposit, true, 100000, 100000, None)], map[])

  lemma FundedDatabase()
    ensures Initial(State(FUNDED, Seqs(2, 1, 2), map[], [])) && FromOne(State(FUNDED, Seqs(2, 1, 2), map[], []))
  {
    var l := FUNDED.ledger;
    assert l[..1] == l && l[..0] == [];
    assert Sum(l[..0], 1, true) == 0 && Sum(l, 1, true) == 100000;
    assert Sum(l[..0], 1, false) == 0 && Sum(l, 1, false) == 0;
    assert I1(FUNDED);
  }

  /** From there a real spin is admitted, and succeeds whatever word is drawn. */
  lemma FundedSpin(clientRef: string, ch: Choices)
    ensures ValidConfig(DEFAULTS)
    ensures AtomicSpin(DEFAULTS, FUNDED, Request(1, 500, true, clientRef, true), true, ch).Ok?
  {
    var req := Request(1, 500, true, clientRef, true);
    DefaultsAreValid();
    assert MaxExposure(2000000, 500) == 100000;
    assert Veto(DEFAULTS, FUNDED, req) == None && Payee(DEFAULTS, FUNDED.users, req) == None;
    assert Solvent(FUNDED) && !Taken(FUNDED.spins, 1, clientRef);
    var p := MakePlan(DEFAULTS, req, None, ch.word);
    hide *;
    PlanBounds(DEFAULTS, req, None, ch.word);
    FundedOutcome(req, p);
    SpinSucceeds(DEFAULTS, FUNDED, req, ch);
  }

  lemma FundedOutcome(req: Request, p: Plan)
    requires req.user == 1 && req.stake == 500 && req.isReal && p.payee == None
    requires 0 <= p.payout <= 100000 && 0 <= p.rake && p.rake + p.commission <= 500 && p.commission == 0
    ensures IsInt64(FUNDED.wallets[1].Spendable(true) - 500 + p.payout)
    ensures IsInt64(FUNDED.house.bankroll + HouseDelta(req, p)) && IsInt64(FUNDED.house.rake + p.rake)
  {
  }

  /** At rest, the machine can be taken to start afresh. */
  lemma RestIsInitial(c: Config, s0: State, ls: seq<Label>)
    requires ValidConfig(c) && Initial(s0) && Run(c, s0, ls).Some? && Run(c, s0, ls).value.txs == map[]
    ensures Initial(Run(c, s0, ls).value.(log := []))
  {
    RunKeepsInv(c, s0, ls);
    hide Run;
  }

  /** The integrity queries never report anything. */
  lemma MoneyIsRight(c: Config, s0: State, ls: seq<Label>)
    requires ValidConfig(c) && Initial(s0) && Run(c, s0, ls).Some?
    ensures GoodDB(Run(c, s0, ls).value.db)
  {
    RunKeepsInv(c, s0, ls);
  }

  /** Spelled out for one spin: its numbers, and the rows that go with it. */
  lemma SpinOnRecord(c: Config, s0: State, ls: seq<Label>, sid: nat)
    requires ValidConfig(c) && Initial(s0) && Run(c, s0, ls).Some? && sid in Run(c, s0, ls).value.db.spins
    ensures var db := Run(c, s0, ls).value.db;
            var s, bets, wins := db.spins[sid], Legs(db.ledger, Bet, sid), Legs(db.ledger, Win, sid);
            && s.stake > 0 && 1 <= s.segment <= 12 && 0 <= s.mult <= MAX_INT32 && s.payout == s.stake * s.mult / 10000
            && s.rake >= 0 && (!s.isReal ==> s.rake == 0)
            && |bets| == 1 && bets[0].user == s.user && bets[0].isReal == s.isReal && bets[0].amount == -s.stake
            && (s.payout == 0 ==> wins == [])
            && (s.payout != 0 ==>
                  |wins| == 1 && wins[0].user == s.user && wins[0].isReal == s.isReal && wins[0].amount == s.payout)
    ensures var db := Run(c, s0, ls).value.db;
            var s, refs := db.spins[sid], Legs(db.ledger, Referral, sid);
            refs == [] || (|refs| == 1 && s.isReal && s.user in db.users && db.users[s.user].referredBy == Some(refs[0].user)
                           && refs[0].user != s.user && 0 < refs[0].amount <= s.stake)
  {
    MoneyIsRight(c, s0, ls);
    var db := Run(c, s0, ls).value.db;
    assert FullyRecorded(db.ledger, sid, db.spins[sid]) && FairCommission(db, sid) by { hide Run, Initial, ValidConfig; }
    hide Run, Initial, ValidConfig, GoodDB, Legs;
  }

  /** For one ledger row: it moves something, keeps to its realm, carries the running balance, belongs to a wallet, and if
      it is a leg of a spin that spin is on record. */
  lemma RowOnRecord(c: Config, s0: State, ls: seq<Label>, k: nat)
    requires ValidConfig(c) && Initial(s0) && Run(c, s0, ls).Some? && k < |Run(c, s0, ls).value.db.ledger|
    ensures var db := Run(c, s0, ls).value.db;
            var r := db.ledger[k];
            && r.amount != 0 && r.after >= 0 && r.after == Sum(db.ledger[..k + 1], r.user, r.isReal) && r.user in db.wallets
            && r.kind != Unset && (r.kind == DemoGrant ==> !r.isReal)
            && (r.kind in {Deposit, Withdraw, WithdrawReversed, Referral} ==> r.isReal)
            && (r.kind in {Bet, Win, Referral} ==> r.ref.Some? && r.ref.value in db.spins)
  {
    hide *;
    MoneyIsRight(c, s0, ls);
    var db := Run(c, s0, ls).value.db;
    Parts(db);
    RowParts(db, k);
    RowSums(db, k);
  }

  lemma RowParts(db: DB, k: nat)
    requires I3(db) && RefsExist(db) && OwnersExist(db) && k < |db.ledger|
    ensures var r := db.ledger[k];
            && r.amount != 0 && r.after >= 0 && r.user in db.wallets
            && r.kind != Unset && (r.kind == DemoGrant ==> !r.isReal)
            && (r.kind in {Deposit, Withdraw, WithdrawReversed, Referral} ==> r.isReal)
            && (r.kind in {Bet, Win, Referral} ==> r.ref.Some? && r.ref.value in db.spins)
  {
    var r := db.ledger[k];
    assert r in db.ledger && GoodRow(r);
    hide I3, RefsExist, OwnersExist;
  }

  lemma Parts(db: DB)
    requires GoodDB(db)
    ensures I3(db) && RefsExist(db) && OwnersExist(db)
  {
    hide I1, Solvent, I3, I6, I7, RefsExist, OwnersExist, IdsAscend, UniqueKeys;
  }

  lemma RowSums(db: DB, k: nat)
    requires GoodDB(db) && k < |db.ledger|
    ensures db.ledger[k].after == Sum(db.ledger[..k + 1], db.ledger[k].user, db.ledger[k].isReal)
  {
    assert I1(db);
    hide GoodDB, Sum;
  }

  /** For one wallet: no balance is negative, and the spendable ones are what the ledger adds up to. */
  lemma WalletOnRecord(c: Config, s0: State, ls: seq<Label>, u: nat)
    requires ValidConfig(c) && Initial(s0) && Run(c, s0, ls).Some? && u in Run(c, s0, ls).value.db.wallets
    ensures var db := Run(c, s0, ls).value.db;
            && db.wallets[u].realCents == Sum(db.ledger, u, true) >= 0 && db.wallets[u].demoCents == Sum(db.ledger, u, false) >= 0
            && db.wallets[u].heldCents >= 0 && db.house.bankroll >= 0 && db.house.rake >= 0
            && u in db.users
  {
    MoneyIsRight(c, s0, ls);
    var db := Run(c, s0, ls).value.db;
    assert I1(db) && Solvent(db) && OwnersExist(db) by { hide Run, Initial, ValidConfig; }
    hide Run, Initial, ValidConfig, GoodDB, Sum, RunningSums;
  }

  /** No two users share a phone or a referral code, and no two spins of a user a reference. */
  lemma KeysOnRecord(c: Config, s0: State, ls: seq<Label>)
    requires ValidConfig(c) && Initial(s0) && Run(c, s0, ls).Some?
    ensures var db := Run(c, s0, ls).value.db;
            && (forall u, v | u in db.users && v in db.users && u != v ::
                  db.users[u].phone != db.users[v].phone && db.users[u].code != db.users[v].code)
            && forall s, t | s in db.spins && t in db.spins && s != t && db.spins[s].user == db.spins[t].user ::
                 db.spins[s].clientRef != db.spins[t].clientRef
  {
    MoneyIsRight(c, s0, ls);
    var db := Run(c, s0, ls).value.db;
    assert UniqueKeys(db) by { hide Run, Initial, ValidConfig; }
    hide Run, Initial, ValidConfig, GoodDB;
  }

  /** The last row of a user in a realm carries the balance of the wallet, which is not negative. */
  lemma LastBalanceIsTheWallet(c: Config, s0: State, ls: seq<Label>, k: nat)
    requires ValidConfig(c) && Initial(s0) && Run(c, s0, ls).Some?
    requires var l := Run(c, s0, ls).value.db.ledger;
             k < |l| && forall j | k < j < |l| :: l[j].user != l[k].user || l[j].isReal != l[k].isReal
    ensures var db := Run(c, s0, ls).value.db;
            && db.ledger[k].user in db.wallets
            && db.ledger[k].after == db.wallets[db.ledger[k].user].Spendable(db.ledger[k].isReal) >= 0
  {
    MoneyIsRight(c, s0, ls);
    var db := Run(c, s0, ls).value.db;
    assert I1(db) && Solvent(db) && OwnersExist(db);
    hide GoodDB, Run, Initial, ValidConfig;
    var r := db.ledger[k];
    assert r in db.ledger;
    NothingAfter(db.ledger, k + 1, r.user, r.isReal);
  }

  lemma {:induction false} NothingAfter(l: seq<Row>, k: nat, user: nat, isReal: bool)
    requires k <= |l| && forall j | k <= j < |l| :: l[j].user != user || l[j].isReal != isReal
    ensures Sum(l, user, isReal) == Sum(l[..k], user, isReal)
  {
    if k < |l| {
      NothingAfter(l[..|l| - 1], k, user, isReal);
      assert l[..|l| - 1][..k] == l[..k];
    } else {
      assert l[..k] == l;
    }
  }

  /** No refusal is an artefact of the interleaving: the transaction run alone, at the moment it was refused, would
      have met the same error. */
  lemma RefusedAlone(c: Config, s0: State, ls: seq<Label>, l: Label)
    requires ValidConfig(c) && Initial(s0) && Run(c, s0, ls).Some? && Next(c, Run(c, s0, ls).value, l).Some?
    requires l.Forward? && l.tid in Run(c, s0, ls).value.txs
    requires var s := Run(c, s0, ls).value;
             Exec(c, s.txs[l.tid], s.db, s.seqs, l.word, l.entropy).Fails?
    ensures var s := Run(c, s0, ls).value;
            var tx := s.txs[l.tid];
            Atomic(c, s.db, tx.op, tx.pc != Draw || l.entropy, Seen(tx, l.word)) ==
            Err(Exec(c, tx, s.db, s.seqs, l.word, l.entropy).error)
  {
    RunKeepsInv(c, s0, ls);
    var s := Run(c, s0, ls).value;
    assert TxInv(c, s.txs[l.tid], s.db) && OwnersExist(s.db);
    hide *;
    RefusalIsAtomic(c, s.txs[l.tid], s.db, s.seqs, l.word, l.entropy);
  }

  /** Whatever happened so far, every open transaction can be run to its end. */
  lemma EveryRunCanFinish(c: Config, s0: State, ls: seq<Label>) returns (more: seq<Label>)
    requires ValidConfig(c) && Initial(s0) && Run(c, s0, ls).Some?
    ensures var s := Run(c, s0, ls).value;
            AllForward(more) && |more| <= Work(s.txs) && Run(c, s, more).Some? && Run(c, s, more).value.txs == map[]
  {
    hide *;
    RunKeepsInv(c, s0, ls);
    more := EverybodyFinishes(c, Run(c, s0, ls).value);
  }
}

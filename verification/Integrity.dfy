/** The integrity queries of internal/wallet/invariant.go as predicates on the tables, and the proof that every
    atomic transaction keeps them. */
module Integrity {
  import opened Basics
  import opened Schema
  import opened Movements
  import opened Spin
  import opened Transactions

  /******* I1: every balance is derivable from the ledger *******/

  /** What the rows of one user in one realm add up to. */
  function Sum(l: seq<Row>, user: nat, isReal: bool): int {
    if l == [] then 0 else
      var r := l[|l| - 1];
      Sum(l[..|l| - 1], user, isReal) + if r.user == user && r.isReal == isReal then r.amount else 0
  }

  /** Each row's balance_after is the running sum up to and including that row. */
  ghost predicate RunningSums(l: seq<Row>) {
    forall k | 0 <= k < |l| :: l[k].after == Sum(l[..k + 1], l[k].user, l[k].isReal)
  }

  ghost predicate I1(db: DB) {
    && RunningSums(db.ledger)
    && forall u | u in db.wallets ::
         && db.wallets[u].realCents == Sum(db.ledger, u, true)
         && db.wallets[u].demoCents == Sum(db.ledger, u, false)
  }

  /******* I2 is Solvent. I3: demo and real money never mix *******/

  predicate GoodRow(r: Row) {
    r.amount != 0 && r.after >= 0 && RealmKind(r.kind, r.isReal)
  }

  predicate I3(db: DB) {
    && (forall r | r in db.ledger :: GoodRow(r))
    && forall s | s in db.spins :: !db.spins[s].isReal ==> db.spins[s].rake == 0
  }

  /******* I6: spins are arithmetically exact and fully recorded *******/

  /** The ledger rows of a kind that refer to `ref`. */
  function Legs(l: seq<Row>, kind: Kind, ref: nat): seq<Row> {
    if l == [] then [] else
      var r := l[|l| - 1];
      Legs(l[..|l| - 1], kind, ref) + if r.kind == kind && r.ref == Some(ref) then [r] else []
  }

  /** One debit of the stake, and one credit of the payout exactly when there is one. */
  predicate FullyRecorded(l: seq<Row>, sid: nat, s: SpinRow) {
    var bets, wins := Legs(l, Bet, sid), Legs(l, Win, sid);
    && SpinChecks(s)
    && |bets| == 1 && bets[0].user == s.user && bets[0].isReal == s.isReal && bets[0].amount == -s.stake
    && |wins| == (if s.payout > 0 then 1 else 0)
    && (s.payout > 0 ==> wins[0].user == s.user && wins[0].isReal == s.isReal && wins[0].amount == s.payout)
  }

  predicate I6(db: DB) {
    forall s | s in db.spins :: FullyRecorded(db.ledger, s, db.spins[s])
  }

  /******* I7: commissions are bounded, non-reflexive and paid at most once *******/

  predicate FairCommission(db: DB, sid: nat)
    requires sid in db.spins
  {
    var refs, s := Legs(db.ledger, Referral, sid), db.spins[sid];
    && |refs| <= 1
    && (|refs| == 1 ==>
          && s.isReal && refs[0].user != s.user && s.user in db.users && db.users[s.user].referredBy == Some(refs[0].user)
          && 0 < refs[0].amount <= s.stake)
  }

  predicate I7(db: DB) {
    forall s | s in db.spins :: FairCommission(db, s)
  }

  /******* Keys and references *******/

  predicate SpinLeg(r: Row) {
    r.kind in {Bet, Win, Referral}
  }

  /** No leg without its spin ... */
  predicate RefsExist(db: DB) {
    forall r | r in db.ledger && SpinLeg(r) :: r.ref.Some? && r.ref.value in db.spins
  }

  /** ... and no row without its wallet. */
  predicate OwnersExist(db: DB) {
    && db.wallets.Keys == db.users.Keys
    && (forall r | r in db.ledger :: r.user in db.wallets)
    && forall u | u in db.users && db.users[u].referredBy.Some? :: db.users[u].referredBy.value in db.users
  }

  /** A user's rows carry ascending ids in the order they were committed. */
  ghost predicate IdsAscend(l: seq<Row>) {
    forall i, j | 0 <= i < j < |l| && l[i].user == l[j].user :: l[i].id < l[j].id
  }

  /** The unique indexes. */
  predicate UniqueKeys(db: DB) {
    && (forall s, t | s in db.spins && t in db.spins && s != t ::
          db.spins[s].user != db.spins[t].user || db.spins[s].clientRef != db.spins[t].clientRef)
    && (forall u, v | u in db.users && v in db.users && u != v ::
          db.users[u].phone != db.users[v].phone && db.users[u].code != db.users[v].code)
  }

  /** The money is right. */
  ghost predicate GoodDB(db: DB) {
    && I1(db) && Solvent(db) && I3(db) && I6(db) && I7(db)
    && RefsExist(db) && OwnersExist(db) && IdsAscend(db.ledger) && UniqueKeys(db)
  }

  /******* One movement *******/

  lemma SumAppend(l: seq<Row>, r: Row, user: nat, isReal: bool)
    ensures Sum(l + [r], user, isReal) ==
            Sum(l, user, isReal) + if r.user == user && r.isReal == isReal then r.amount else 0
  {
    assert (l + [r])[..|l|] == l;
  }

  lemma RunningSumsAppend(l: seq<Row>, r: Row)
    requires RunningSums(l) && r.after == Sum(l, r.user, r.isReal) + r.amount
    ensures RunningSums(l + [r])
  {
    var m := l + [r];
    forall k | 0 <= k < |m| ensures m[k].after == Sum(m[..k + 1], m[k].user, m[k].isReal) {
      if k < |l| {
        assert m[..k + 1] == l[..k + 1];
      } else {
        assert m[..k + 1] == m;
        SumAppend(l, r, r.user, r.isReal);
      }
    }
  }

  lemma MoveKeepsI1(db: DB, m: Move, id: nat)
    requires I1(db) && m.user in db.wallets
    ensures I1(Moved(db, m, id))
  {
    var after := Moved(db, m, id);
    var r := after.ledger[|db.ledger|];
    assert db.wallets[m.user].Spendable(m.isReal) == Sum(db.ledger, m.user, m.isReal);
    RunningSumsAppend(db.ledger, r);
    forall u | u in after.wallets
      ensures after.wallets[u].realCents == Sum(after.ledger, u, true)
      ensures after.wallets[u].demoCents == Sum(after.ledger, u, false)
    {
      SumAppend(db.ledger, r, u, true);
      SumAppend(db.ledger, r, u, false);
    }
  }

  lemma SpinKeepsI1(db: DB, req: Request, p: Plan, ch: Choices)
    requires I1(db) && RowsPresent(db, req, p)
    ensures I1(AfterRef(db, req, p, ch))
  {
    var ins := AfterInsert(db, req, p, ch);
    assert I1(ins);
    var bet := AfterBet(db, req, p, ch);
    assert I1(bet) by { MoveKeepsI1(ins, BetMove(req, ch), ch.betId); }
    var win := AfterWin(db, req, p, ch);
    assert I1(win) by {
      if p.payout > 0 {
        MoveKeepsI1(bet, WinMove(req, p, ch), ch.winId);
      }
    }
    var house := AfterHouse(db, req, p, ch);
    assert I1(house);
    if p.commission > 0 {
      MoveKeepsI1(house, RefMove(p, ch), ch.refId);
    }
  }

  /******* Appending rows *******/

  predicate NewRows(db: DB, rows: seq<Row>) {
    && (forall r | r in rows :: GoodRow(r) && r.user in db.wallets)
    && (forall i, j | 0 <= i < j < |rows| && rows[i].user == rows[j].user :: rows[i].id < rows[j].id)
    && (forall r | r in rows :: RowIdsBelow(db, r.user, r.id))
  }

  lemma IdsStillAscend(db: DB, rows: seq<Row>)
    requires IdsAscend(db.ledger) && NewRows(db, rows)
    ensures IdsAscend(db.ledger + rows)
  {
    var l := db.ledger + rows;
    forall i, j | 0 <= i < j < |l| && l[i].user == l[j].user ensures l[i].id < l[j].id {
      if i < |db.ledger| <= j {
        assert l[i] in db.ledger && l[j] in rows;
        assert RowIdsBelow(db, l[j].user, l[j].id);
      }
    }
  }

  lemma LegsAppend(l: seq<Row>, m: seq<Row>, kind: Kind, ref: nat)
    ensures Legs(l + m, kind, ref) == Legs(l, kind, ref) + Legs(m, kind, ref)
  {
    if m == [] {
      assert l + m == l;
    } else {
      assert (l + m)[..|l + m| - 1] == l + m[..|m| - 1];
      LegsAppend(l, m[..|m| - 1], kind, ref);
    }
  }

  lemma NoLegs(l: seq<Row>, kind: Kind, ref: nat)
    requires forall r | r in l :: r.kind != kind || r.ref != Some(ref)
    ensures Legs(l, kind, ref) == []
  {
    if l != [] {
      assert l[|l| - 1] in l;
    }
  }

  lemma OneLeg(r: Row, kind: Kind, ref: nat)
    ensures Legs([r], kind, ref) == if r.kind == kind && r.ref == Some(ref) then [r] else []
  {
    assert [r][..0] == [];
    assert Legs([r], kind, ref) == Legs([r][..0], kind, ref) + if r.kind == kind && r.ref == Some(ref) then [r] else [];
  }

  lemma AtMostOneLeg(l: seq<Row>, kind: Kind, ref: nat)
    requires |l| <= 1
    ensures Legs(l, kind, ref) == if l != [] && l[0].kind == kind && l[0].ref == Some(ref) then l else []
  {
    if l != [] {
      assert l == [l[0]];
      OneLeg(l[0], kind, ref);
    }
  }

  /******* A spin *******/

  lemma LegsOfSpin(db: DB, req: Request, p: Plan, ch: Choices, kind: Kind, sid: nat)
    requires RowsPresent(db, req, p) && kind in {Bet, Win, Referral}
    ensures Legs(SpinRows(db, req, p, ch), kind, sid) ==
            if sid != ch.spinId then []
            else if kind == Bet then [BetRow(db, req, ch)]
            else if kind == Win then WinRows(db, req, p, ch) else RefRows(db, p, ch)
  {
    var bet, win, ref := [BetRow(db, req, ch)], WinRows(db, req, p, ch), RefRows(db, p, ch);
    KindsOfRows(db, req, p, ch);
    assert SpinRows(db, req, p, ch) == bet + win + ref;
    hide *;
    LegsAppend(bet + win, ref, kind, sid);
    LegsAppend(bet, win, kind, sid);
    LegsOfOne(bet, Bet, ch.spinId, kind, sid);
    LegsOfOne(win, Win, ch.spinId, kind, sid);
    LegsOfOne(ref, Referral, ch.spinId, kind, sid);
  }

  lemma KindsOfRows(db: DB, req: Request, p: Plan, ch: Choices)
    requires RowsPresent(db, req, p)
    ensures forall r | r in [BetRow(db, req, ch)] :: r.kind == Bet && r.ref == Some(ch.spinId)
    ensures forall r | r in WinRows(db, req, p, ch) :: r.kind == Win && r.ref == Some(ch.spinId)
    ensures forall r | r in RefRows(db, p, ch) :: r.kind == Referral && r.ref == Some(ch.spinId)
    ensures |WinRows(db, req, p, ch)| <= 1 && |RefRows(db, p, ch)| <= 1
  {
  }

  lemma LegsOfOne(rows: seq<Row>, of: Kind, at: nat, kind: Kind, sid: nat)
    requires |rows| <= 1 && forall r | r in rows :: r.kind == of && r.ref == Some(at)
    ensures Legs(rows, kind, sid) == if kind == of && sid == at then rows else []
  {
    hide Legs;
    AtMostOneLeg(rows, kind, sid);
    assert rows != [] ==> rows[0] in rows;
  }

  lemma SpinRowsAreNew(db: DB, req: Request, p: Plan, ch: Choices)
    requires Solvent(db) && Admitted(db, req, p)
    requires (p.payout > 0 ==> ch.betId < ch.winId) && RowIdsBelow(db, req.user, ch.betId)
    requires p.commission > 0 ==> RowIdsBelow(db, p.payee.value, ch.refId)
    ensures NewRows(db, SpinRows(db, req, p, ch))
  {
    var bet, wins, refs := BetRow(db, req, ch), WinRows(db, req, p, ch), RefRows(db, p, ch);
    RowsAreGood(db, req, p, ch);
    assert p.payout > 0 ==> RowIdsBelow(db, req.user, ch.winId);
    hide GoodRow, RowIdsBelow, Solvent;
    assert forall r | r in SpinRows(db, req, p, ch) :: r == bet || r in wins || r in refs;
  }

  lemma RowsAreGood(db: DB, req: Request, p: Plan, ch: Choices)
    requires Solvent(db) && Admitted(db, req, p)
    ensures GoodRow(BetRow(db, req, ch))
    ensures forall r | r in WinRows(db, req, p, ch) :: GoodRow(r)
    ensures forall r | r in RefRows(db, p, ch) :: GoodRow(r)
  {
  }

  /** A ledger extended by the rows of a new spin records every spin, old and new. */
  lemma SpinStaysRecorded(db: DB, after: DB, req: Request, p: Plan, ch: Choices)
    requires I6(db) && RefsExist(db) && Admitted(db, req, p) && SpinChecks(RecordOf(req, p))
    requires ch.spinId !in db.spins && after.spins == db.spins[ch.spinId := RecordOf(req, p)]
    requires after.ledger == db.ledger + SpinRows(db, req, p, ch)
    ensures I6(after)
  {
    forall sid | sid in after.spins ensures FullyRecorded(after.ledger, sid, after.spins[sid]) {
      LegsNow(db, after, req, p, ch, Bet, sid);
      LegsNow(db, after, req, p, ch, Win, sid);
      if sid != ch.spinId {
        assert FullyRecorded(db.ledger, sid, db.spins[sid]);
      }
    }
  }

  lemma LegsNow(db: DB, after: DB, req: Request, p: Plan, ch: Choices, kind: Kind, sid: nat)
    requires RefsExist(db) && RowsPresent(db, req, p) && kind in {Bet, Win, Referral} && ch.spinId !in db.spins
    requires after.ledger == db.ledger + SpinRows(db, req, p, ch)
    ensures Legs(after.ledger, kind, sid) ==
            if sid != ch.spinId then Legs(db.ledger, kind, sid)
            else if kind == Bet then [BetRow(db, req, ch)]
            else if kind == Win then WinRows(db, req, p, ch) else RefRows(db, p, ch)
  {
    LegsAppend(db.ledger, SpinRows(db, req, p, ch), kind, sid);
    LegsOfSpin(db, req, p, ch, kind, sid);
    if sid == ch.spinId {
      NoLegs(db.ledger, kind, sid);
    }
  }

  lemma CommissionStaysFair(db: DB, after: DB, req: Request, p: Plan, ch: Choices)
    requires I7(db) && RefsExist(db) && Admitted(db, req, p) && after.users == db.users
    requires req.user in db.users && (p.payee.Some? ==> db.users[req.user].referredBy == p.payee)
    requires ch.spinId !in db.spins && after.spins == db.spins[ch.spinId := RecordOf(req, p)]
    requires after.ledger == db.ledger + SpinRows(db, req, p, ch)
    ensures I7(after)
  {
    forall sid | sid in after.spins ensures FairCommission(after, sid) {
      LegsNow(db, after, req, p, ch, Referral, sid);
      if sid != ch.spinId {
        assert FairCommission(db, sid);
      }
    }
  }

  lemma SpinKeepsRefs(db: DB, after: DB, req: Request, p: Plan, ch: Choices)
    requires RefsExist(db) && RowsPresent(db, req, p)
    requires after.spins == db.spins[ch.spinId := RecordOf(req, p)]
    requires after.ledger == db.ledger + SpinRows(db, req, p, ch)
    ensures RefsExist(after)
  {
    var rows := SpinRows(db, req, p, ch);
    forall r | r in after.ledger && SpinLeg(r) ensures r.ref.Some? && r.ref.value in after.spins {
      if r !in db.ledger {
        assert r in rows;
      }
    }
  }

  lemma SpinKeepsI3(db: DB, after: DB, req: Request, p: Plan, ch: Choices)
    requires I3(db) && Admitted(db, req, p) && NewRows(db, SpinRows(db, req, p, ch))
    requires after.spins == db.spins[ch.spinId := RecordOf(req, p)]
    requires after.ledger == db.ledger + SpinRows(db, req, p, ch)
    ensures I3(after)
  {
  }

  lemma SpinKeepsOwners(db: DB, after: DB, req: Request, p: Plan, ch: Choices)
    requires OwnersExist(db) && RowsPresent(db, req, p) && NewRows(db, SpinRows(db, req, p, ch))
    requires after.users == db.users && after.wallets.Keys == db.wallets.Keys
    requires after.ledger == db.ledger + SpinRows(db, req, p, ch)
    ensures OwnersExist(after)
  {
  }

  lemma SpinKeepsKeys(db: DB, after: DB, req: Request, p: Plan, ch: Choices)
    requires UniqueKeys(db) && !Taken(db.spins, req.user, req.clientRef)
    requires after.users == db.users && after.spins == db.spins[ch.spinId := RecordOf(req, p)]
    ensures UniqueKeys(after)
  {
  }

  lemma PlanKeepsGood(db: DB, after: DB, req: Request, p: Plan, ch: Choices)
    requires I1(db) && Solvent(db) && I3(db) && I6(db) && I7(db)
    requires RefsExist(db) && OwnersExist(db) && IdsAscend(db.ledger) && UniqueKeys(db)
    requires Admitted(db, req, p) && RowsPresent(db, req, p) && SpinChecks(RecordOf(req, p))
    requires after == AfterRef(db, req, p, ch)
    requires after.users == db.users && after.wallets.Keys == db.wallets.Keys
    requires after.spins == db.spins[ch.spinId := RecordOf(req, p)]
    requires after.ledger == db.ledger + SpinRows(db, req, p, ch)
    requires ch.spinId !in db.spins && (p.payout > 0 ==> ch.betId < ch.winId) && RowIdsBelow(db, req.user, ch.betId)
    requires p.commission > 0 ==> RowIdsBelow(db, p.payee.value, ch.refId)
    requires req.user in db.users && (p.payee.Some? ==> db.users[req.user].referredBy == p.payee)
    requires !Taken(db.spins, req.user, req.clientRef)
    ensures I1(after) && I3(after) && I6(after) && I7(after)
    ensures RefsExist(after) && OwnersExist(after) && IdsAscend(after.ledger) && UniqueKeys(after)
  {
    hide *;
    SpinKeepsI1(db, req, p, ch);
    SpinRowsAreNew(db, req, p, ch);
    IdsStillAscend(db, SpinRows(db, req, p, ch));
    SpinKeepsRefs(db, after, req, p, ch);
    SpinStaysRecorded(db, after, req, p, ch);
    CommissionStaysFair(db, after, req, p, ch);
    SpinKeepsI3(db, after, req, p, ch);
    SpinKeepsOwners(db, after, req, p, ch);
    SpinKeepsKeys(db, after, req, p, ch);
  }

  lemma SpinKeepsGood(c: Config, db: DB, req: Request, ch: Choices)
    requires ValidConfig(c) && GoodDB(db) && FreshFor(c, db, SpinOp(req), ch)
    requires AtomicSpin(c, db, req, true, ch).Ok?
    ensures GoodDB(AtomicSpin(c, db, req, true, ch).value.0)
  {
    SpinEffect(c, db, req, ch);
    var p := MakePlan(c, req, Payee(c, db.users, req), ch.word);
    assert Admitted(db, req, p) && SpinChecks(RecordOf(req, p));
    PlanKeepsGood(db, AtomicSpin(c, db, req, true, ch).value.0, req, p, ch);
  }

  /******* Every other transaction *******/

  lemma MoveKeepsRows(db: DB, m: Move, id: nat)
    requires Solvent(db) && I3(db) && OwnersExist(db) && MoveError(db, m) == None
    ensures var after := Moved(db, m, id);
            Solvent(after) && I3(after) && OwnersExist(after)
  {
    var after := Moved(db, m, id);
    assert after.wallets.Keys == db.wallets.Keys;
    forall r | r in after.ledger ensures GoodRow(r) && r.user in after.wallets {
      if r !in db.ledger {
        assert r == after.ledger[|db.ledger|];
      }
    }
  }

  lemma MoveKeepsIds(db: DB, m: Move, id: nat)
    requires Solvent(db) && IdsAscend(db.ledger) && MoveError(db, m) == None && RowIdsBelow(db, m.user, id)
    ensures IdsAscend(Moved(db, m, id).ledger)
  {
    var l := Moved(db, m, id).ledger;
    forall i, j | 0 <= i < j < |l| && l[i].user == l[j].user ensures l[i].id < l[j].id {
      if j == |db.ledger| {
        assert l[i] in db.ledger;
      }
    }
  }

  /** A row that is not a leg of a spin leaves every spin's record as it was. */
  lemma MoveKeepsRecords(db: DB, m: Move, id: nat)
    requires I6(db) && I7(db) && RefsExist(db) && m.user in db.wallets && m.kind !in {Bet, Win, Referral}
    ensures var after := Moved(db, m, id);
            I6(after) && I7(after) && RefsExist(after)
  {
    var after := Moved(db, m, id);
    var r := after.ledger[|db.ledger|];
    forall sid, kind | kind in {Bet, Win, Referral} ensures Legs(after.ledger, kind, sid) == Legs(db.ledger, kind, sid) {
      LegsAppend(db.ledger, [r], kind, sid);
      OneLeg(r, kind, sid);
    }
    forall sid | sid in after.spins ensures FullyRecorded(after.ledger, sid, after.spins[sid]) && FairCommission(after, sid) {
      assert FullyRecorded(db.ledger, sid, db.spins[sid]) && FairCommission(db, sid);
    }
  }

  lemma MoveKeepsGood(db: DB, m: Move, id: nat)
    requires I1(db) && Solvent(db) && I3(db) && I6(db) && I7(db)
    requires RefsExist(db) && OwnersExist(db) && IdsAscend(db.ledger) && UniqueKeys(db)
    requires MoveError(db, m) == None && m.user in db.wallets && m.kind !in {Bet, Win, Referral}
    requires RowIdsBelow(db, m.user, id)
    requires Moved(db, m, id).users == db.users && Moved(db, m, id).spins == db.spins
    ensures GoodDB(Moved(db, m, id))
  {
    assert UniqueKeys(Moved(db, m, id));
    MoveParts(db, m, id);
  }

  lemma MoveParts(db: DB, m: Move, id: nat)
    requires I1(db) && Solvent(db) && I3(db) && I6(db) && I7(db)
    requires RefsExist(db) && OwnersExist(db) && IdsAscend(db.ledger)
    requires MoveError(db, m) == None && m.user in db.wallets && m.kind !in {Bet, Win, Referral}
    requires RowIdsBelow(db, m.user, id)
    ensures var after := Moved(db, m, id);
            && I1(after) && Solvent(after) && I3(after) && I6(after) && I7(after)
            && RefsExist(after) && OwnersExist(after) && IdsAscend(after.ledger)
  {
    hide *;
    MoveKeepsI1(db, m, id);
    MoveKeepsRows(db, m, id);
    MoveKeepsIds(db, m, id);
    MoveKeepsRecords(db, m, id);
  }

  /** Adding users leaves the ledger and the spins as they were. */
  lemma RecordsUntouched(db: DB, after: DB)
    requires I3(db) && I6(db) && I7(db) && RefsExist(db) && IdsAscend(db.ledger)
    requires after.ledger == db.ledger && after.spins == db.spins
    requires forall u | u in db.users :: u in after.users && after.users[u] == db.users[u]
    ensures I3(after) && I6(after) && I7(after) && RefsExist(after) && IdsAscend(after.ledger)
  {
    forall sid | sid in after.spins ensures FullyRecorded(after.ledger, sid, after.spins[sid]) && FairCommission(after, sid) {
      assert FullyRecorded(db.ledger, sid, db.spins[sid]) && FairCommission(db, sid);
    }
  }

  lemma HeldKeepsGood(db: DB, user: nat, delta: int)
    requires GoodDB(db) && user in db.wallets
    requires 0 <= db.wallets[user].heldCents + delta && IsInt64(db.wallets[user].heldCents + delta)
    ensures GoodDB(HeldChanged(db, user, delta))
  {
    BalancesStand(db, HeldChanged(db, user, delta));
    HeldParts(db, user, delta);
    RecordsUntouched(db, HeldChanged(db, user, delta));
  }

  /** Balances that stand, and empty wallets for users the ledger does not mention, keep I1. */
  lemma BalancesStand(db: DB, after: DB)
    requires I1(db) && after.ledger == db.ledger
    requires forall u | u in after.wallets && u in db.wallets ::
               after.wallets[u].realCents == db.wallets[u].realCents && after.wallets[u].demoCents == db.wallets[u].demoCents
    requires forall u | u in after.wallets && u !in db.wallets ::
               after.wallets[u] == Wallet(0, 0, 0) && forall r | r in db.ledger :: r.user != u
    ensures I1(after)
  {
    forall u | u in after.wallets
      ensures after.wallets[u].realCents == Sum(after.ledger, u, true)
      ensures after.wallets[u].demoCents == Sum(after.ledger, u, false)
    {
      if u !in db.wallets {
        SumOfNobody(db.ledger, u, true);
        SumOfNobody(db.ledger, u, false);
      }
    }
  }

  lemma HeldParts(db: DB, user: nat, delta: int)
    requires Solvent(db) && OwnersExist(db) && UniqueKeys(db) && user in db.wallets
    requires 0 <= db.wallets[user].heldCents + delta && IsInt64(db.wallets[user].heldCents + delta)
    ensures var after := HeldChanged(db, user, delta);
            Solvent(after) && OwnersExist(after) && UniqueKeys(after)
  {
    assert HeldChanged(db, user, delta).wallets.Keys == db.wallets.Keys;
  }

  lemma TopUpKeepsGood(db: DB, user: nat, now: int, cooldown: int, target: int, id: nat)
    requires GoodDB(db) && RowIdsBelow(db, user, id) && AtomicTopUp(db, user, now, cooldown, target, id).Ok?
    ensures GoodDB(AtomicTopUp(db, user, now, cooldown, target, id).value)
  {
    var claimed := Claimed(db, user, now);
    assert GoodDB(claimed) by {
      assert I7(claimed) by {
        forall sid | sid in claimed.spins ensures FairCommission(claimed, sid) {
          assert FairCommission(db, sid);
        }
      }
    }
    if TopUpDelta(claimed, user, target) > 0 {
      MoveKeepsGood(claimed, GrantMove(user, TopUpDelta(claimed, user, target)), id);
    }
  }

  lemma HoldKeepsGood(db: DB, user: nat, amount: int, withdrawal: Option<nat>, id: nat)
    requires GoodDB(db) && RowIdsBelow(db, user, id) && AtomicHold(db, user, amount, withdrawal, id).Ok?
    ensures GoodDB(AtomicHold(db, user, amount, withdrawal, id).value)
  {
    var m := HoldMove(user, amount, withdrawal);
    MoveKeepsGood(db, m, id);
    HeldKeepsGood(Moved(db, m, id), user, amount);
  }

  lemma ReleaseKeepsGood(db: DB, user: nat, amount: int)
    requires GoodDB(db) && AtomicRelease(db, user, amount).Ok?
    ensures GoodDB(AtomicRelease(db, user, amount).value)
  {
    HeldKeepsGood(db, user, -amount);
  }

  lemma ReverseKeepsGood(db: DB, user: nat, amount: int, withdrawal: Option<nat>, id: nat)
    requires GoodDB(db) && RowIdsBelow(db, user, id) && AtomicReverse(db, user, amount, withdrawal, id).Ok?
    ensures GoodDB(AtomicReverse(db, user, amount, withdrawal, id).value)
  {
    HeldKeepsGood(db, user, -amount);
    MoveKeepsGood(Released(db, user, amount), ReverseMove(user, amount, withdrawal), id);
  }

  lemma SumOfNobody(l: seq<Row>, user: nat, isReal: bool)
    requires forall r | r in l :: r.user != user
    ensures Sum(l, user, isReal) == 0
  {
    if l != [] {
      assert l[|l| - 1] in l;
    }
  }

  lemma AccountKeepsGood(db: DB, uid: nat, user: User)
    requires I1(db) && Solvent(db) && I3(db) && I6(db) && I7(db)
    requires RefsExist(db) && OwnersExist(db) && IdsAscend(db.ledger) && UniqueKeys(db)
    requires uid !in db.users && uid !in db.wallets && forall r | r in db.ledger :: r.user != uid
    requires !HasPhone(db.users, user.phone) && !HasCode(db.users, user.code)
    requires user.referredBy.Some? ==> user.referredBy.value in db.users
    ensures var after := WalletAdded(UserAdded(db, uid, user), uid);
            && I1(after) && Solvent(after) && I3(after) && I6(after) && I7(after)
            && RefsExist(after) && OwnersExist(after) && IdsAscend(after.ledger) && UniqueKeys(after)
  {
    var after := WalletAdded(UserAdded(db, uid, user), uid);
    assert after == db.(users := db.users[uid := user], wallets := db.wallets[uid := Wallet(0, 0, 0)]);
    hide *;
    BalancesStand(db, after);
    AccountParts(db, uid, user);
    RecordsUntouched(db, after);
  }

  lemma AccountParts(db: DB, uid: nat, user: User)
    requires Solvent(db) && OwnersExist(db) && UniqueKeys(db) && uid !in db.users && uid !in db.wallets
    requires !HasPhone(db.users, user.phone) && !HasCode(db.users, user.code)
    requires user.referredBy.Some? ==> user.referredBy.value in db.users
    ensures var after := WalletAdded(UserAdded(db, uid, user), uid);
            Solvent(after) && OwnersExist(after) && UniqueKeys(after)
  {
  }

  lemma RegisterKeepsGood(
    db: DB, phone: string, code: string, invite: Option<Invite>, grant: int, uid: nat, id: nat)
    requires GoodDB(db) && uid !in db.users && uid !in db.wallets && RowIdsBelow(db, uid, id)
    requires AtomicRegister(db, phone, code, invite, grant, uid, id).Ok?
    ensures GoodDB(AtomicRegister(db, phone, code, invite, grant, uid, id).value)
  {
    var user := User(phone, code, Referrer(db.users, invite));
    assert forall r | r in db.ledger :: r.user != uid;
    AccountKeepsGood(db, uid, user);
    if grant > 0 {
      MoveKeepsGood(WalletAdded(UserAdded(db, uid, user), uid), GrantMove(uid, grant), id);
    }
  }

  /** Every transaction that goes through leaves the money right. */
  lemma AtomicKeepsGood(c: Config, db: DB, op: Op, entropy: bool, ch: Choices)
    requires ValidConfig(c) && GoodDB(db) && FreshFor(c, db, op, ch) && Atomic(c, db, op, entropy, ch).Ok?
    ensures GoodDB(Atomic(c, db, op, entropy, ch).value)
  {
    match op
    case SpinOp(req) => SpinKeepsGood(c, db, req, ch);
    case TopUpOp(user, now, cooldown, target) => TopUpKeepsGood(db, user, now, cooldown, target, ch.betId);
    case HoldOp(user, amount, withdrawal) => HoldKeepsGood(db, user, amount, withdrawal, ch.betId);
    case ReleaseOp(user, amount) => ReleaseKeepsGood(db, user, amount);
    case ReverseOp(user, amount, withdrawal) => ReverseKeepsGood(db, user, amount, withdrawal, ch.betId);
    case RegisterOp(phone, code, invite, grant) =>
      RegisterKeepsGood(db, phone, code, invite, grant, ch.uid, ch.betId);
  }
}

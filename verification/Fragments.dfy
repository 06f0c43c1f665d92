/** How a transaction's own row versions relate to the committed tables: running a statement on the fragment and
    merging is running it on the tables, and a commit disturbs nobody who holds other locks. */
module Fragments {
  import opened Schema
  import opened Movements
  import opened Spin
  import opened Transactions
  import opened Machine

  /** The fragment of an open transaction stays inside its locks, under ids nobody else was given. */
  ghost predicate Contained(tx: Tx) {
    && (forall u | u in tx.frag.wallets :: WalletRow(u) in tx.locks)
    && (forall u | u in tx.frag.topups :: UserRow(u) in tx.locks)
    && (forall r | r in tx.frag.ledger :: WalletRow(r.user) in tx.locks)
    && (forall s | s in tx.frag.spins :: WalletRow(tx.frag.spins[s].user) in tx.locks)
    && (forall u | u in tx.frag.users ::
          PhoneKey(tx.frag.users[u].phone) in tx.locks && CodeKey(tx.frag.users[u].code) in tx.locks)
  }

  /** Two open transactions that share no lock and no id. */
  ghost predicate Apart(t: Tx, u: Tx) {
    && t.locks !! u.locks
    && t.frag.spins.Keys !! u.frag.spins.Keys
    && t.frag.users.Keys !! u.frag.users.Keys
  }

  /** All that a transaction holding `locks` and owning the ids of `frag` can notice between two tables. */
  ghost predicate Unnoticed(db: DB, db': DB, tx: Tx) {
    && Restrict(db', tx.locks) == Restrict(db, tx.locks)
    && (forall u | u in db.users :: u in db'.users && db'.users[u] == db.users[u])
    && (forall u | WalletRow(u) in tx.locks :: u in db'.wallets <==> u in db.wallets)
    && (forall u, id: nat | WalletRow(u) in tx.locks && RowIdsBelow(db, u, id) :: RowIdsBelow(db', u, id))
    && (forall u, ref | WalletRow(u) in tx.locks && Taken(db'.spins, u, ref) :: Taken(db.spins, u, ref))
    && (forall u, id: nat | WalletRow(u) in tx.locks && SpinIdsBelow(db, u, id) :: SpinIdsBelow(db', u, id))
    && (forall s | s in tx.frag.spins && s !in db.spins :: s !in db'.spins)
    && (forall u | u in tx.frag.users && u !in db.users :: u !in db'.users)
    && (forall p | PhoneKey(p) in tx.locks && HasPhone(db'.users, p) :: HasPhone(db.users, p))
    && (forall k | CodeKey(k) in tx.locks && HasCode(db'.users, k) :: HasCode(db.users, k))
  }

  lemma MergedUsers(db: DB, other: Tx, tx: Tx)
    requires Contained(other) && Apart(other, tx) && other.frag.users.Keys !! db.users.Keys
    ensures var db' := Merge(db, other.frag, other.locks);
            && (forall u | u in db.users :: u in db'.users && db'.users[u] == db.users[u])
            && (forall u | u in tx.frag.users && u !in db.users :: u !in db'.users)
            && (forall p | PhoneKey(p) in tx.locks && HasPhone(db'.users, p) :: HasPhone(db.users, p))
            && (forall k | CodeKey(k) in tx.locks && HasCode(db'.users, k) :: HasCode(db.users, k))
  {
    var db' := Merge(db, other.frag, other.locks);
    forall p | PhoneKey(p) in tx.locks && HasPhone(db'.users, p) ensures HasPhone(db.users, p) {
      var u :| u in db'.users && db'.users[u].phone == p;
      if u in other.frag.users {
        assert false;
      }
    }
    forall k | CodeKey(k) in tx.locks && HasCode(db'.users, k) ensures HasCode(db.users, k) {
      var u :| u in db'.users && db'.users[u].code == k;
      if u in other.frag.users {
        assert false;
      }
    }
  }

  lemma MergedRows(db: DB, other: Tx, tx: Tx)
    requires Contained(other) && Apart(other, tx)
    ensures var db' := Merge(db, other.frag, other.locks);
            && Restrict(db', tx.locks) == Restrict(db, tx.locks)
            && (forall u | WalletRow(u) in tx.locks :: u in db'.wallets <==> u in db.wallets)
            && (forall u, id: nat | WalletRow(u) in tx.locks && RowIdsBelow(db, u, id) :: RowIdsBelow(db', u, id))
  {
    var db' := Merge(db, other.frag, other.locks);
    forall u | WalletRow(u) in tx.locks ensures u !in other.frag.wallets {
    }
    forall u | UserRow(u) in tx.locks ensures u !in other.frag.topups {
    }
    assert Restrict(db', tx.locks).wallets == Restrict(db, tx.locks).wallets;
    assert Restrict(db', tx.locks).topups == Restrict(db, tx.locks).topups;
  }

  lemma MergedSpins(db: DB, other: Tx, tx: Tx)
    requires Contained(other) && Apart(other, tx)
    ensures var db' := Merge(db, other.frag, other.locks);
            && (forall u, ref | WalletRow(u) in tx.locks && Taken(db'.spins, u, ref) :: Taken(db.spins, u, ref))
            && (forall u, id: nat | WalletRow(u) in tx.locks && SpinIdsBelow(db, u, id) :: SpinIdsBelow(db', u, id))
            && (forall s | s in tx.frag.spins && s !in db.spins :: s !in db'.spins)
  {
    var db' := Merge(db, other.frag, other.locks);
    forall u, ref | WalletRow(u) in tx.locks && Taken(db'.spins, u, ref) ensures Taken(db.spins, u, ref) {
      var k :| k in db'.spins && db'.spins[k].user == u && db'.spins[k].clientRef == ref;
      if k in other.frag.spins {
        assert false;
      }
    }
  }

  /** A commit goes unnoticed by everybody else. */
  lemma CommitUnnoticed(db: DB, other: Tx, tx: Tx)
    requires Contained(other) && Apart(other, tx) && other.frag.users.Keys !! db.users.Keys
    ensures Unnoticed(db, Merge(db, other.frag, other.locks), tx)
  {
    MergedUsers(db, other, tx);
    MergedRows(db, other, tx);
    MergedSpins(db, other, tx);
  }

  /******* Statements commute with merging *******/

  lemma MergeRestrict(db: DB, locks: set<Resource>)
    ensures Merge(db, Restrict(db, locks), locks) == db
  {
    var m := Merge(db, Restrict(db, locks), locks);
    assert m.wallets == db.wallets && m.topups == db.topups && m.users == db.users && m.spins == db.spins;
    assert m.ledger == db.ledger;
  }

  lemma MergeMoved(db: DB, frag: DB, locks: set<Resource>, m: Move, id: nat)
    requires m.user in frag.wallets
    ensures Merge(db, Moved(frag, m, id), locks) == Moved(Merge(db, frag, locks), m, id)
  {
    var a, b := Merge(db, Moved(frag, m, id), locks), Moved(Merge(db, frag, locks), m, id);
    assert a.wallets == b.wallets;
    assert a.ledger == b.ledger;
  }

  lemma MergeInsert(db: DB, frag: DB, locks: set<Resource>, req: Request, p: Plan, ch: Choices)
    ensures Merge(db, AfterInsert(frag, req, p, ch), locks) == AfterInsert(Merge(db, frag, locks), req, p, ch)
  {
    var a, b := Merge(db, AfterInsert(frag, req, p, ch), locks), AfterInsert(Merge(db, frag, locks), req, p, ch);
    assert a.spins == b.spins;
  }

  lemma MergeHeld(db: DB, frag: DB, locks: set<Resource>, user: nat, delta: int)
    requires user in frag.wallets
    ensures Merge(db, HeldChanged(frag, user, delta), locks) == HeldChanged(Merge(db, frag, locks), user, delta)
  {
    var a, b := Merge(db, HeldChanged(frag, user, delta), locks), HeldChanged(Merge(db, frag, locks), user, delta);
    assert a.wallets == b.wallets;
  }

  lemma MergeClaimed(db: DB, frag: DB, locks: set<Resource>, user: nat, now: int)
    ensures Merge(db, Claimed(frag, user, now), locks) == Claimed(Merge(db, frag, locks), user, now)
  {
    var a, b := Merge(db, Claimed(frag, user, now), locks), Claimed(Merge(db, frag, locks), user, now);
    assert a.topups == b.topups;
  }

  lemma MergeAccount(db: DB, frag: DB, locks: set<Resource>, uid: nat, user: User)
    ensures Merge(db, WalletAdded(UserAdded(frag, uid, user), uid), locks) ==
            WalletAdded(UserAdded(Merge(db, frag, locks), uid, user), uid)
  {
    var a := Merge(db, WalletAdded(UserAdded(frag, uid, user), uid), locks);
    var b := WalletAdded(UserAdded(Merge(db, frag, locks), uid, user), uid);
    assert a.users == b.users && a.wallets == b.wallets;
  }

  lemma MergeHouse(db: DB, frag: DB, locks: set<Resource>, bankrollDelta: int, rakeDelta: int)
    requires HouseRow in locks
    ensures Merge(db, HouseMoved(frag, bankrollDelta, rakeDelta), locks) ==
            HouseMoved(Merge(db, frag, locks), bankrollDelta, rakeDelta)
  {
  }

  lemma MergeBet(db: DB, locks: set<Resource>, req: Request, p: Plan, ch: Choices)
    requires RowsPresent(Restrict(db, locks), req, p)
    ensures RowsPresent(db, req, p)
    ensures Merge(db, AfterBet(Restrict(db, locks), req, p, ch), locks) == AfterBet(db, req, p, ch)
  {
    MergeRestrict(db, locks);
    MergeInsert(db, Restrict(db, locks), locks, req, p, ch);
    MergeMoved(db, AfterInsert(Restrict(db, locks), req, p, ch), locks, BetMove(req, ch), ch.betId);
  }

  /** The statements of a spin find the wallets they update. */
  lemma RowsStay(r: DB, req: Request, p: Plan, ch: Choices)
    requires RowsPresent(r, req, p)
    ensures req.user in AfterBet(r, req, p, ch).wallets
    ensures p.commission > 0 ==> p.payee.Some? && p.payee.value in AfterHouse(r, req, p, ch).wallets
  {
  }

  lemma MergeWin(db: DB, locks: set<Resource>, req: Request, p: Plan, ch: Choices)
    requires RowsPresent(Restrict(db, locks), req, p) && RowsPresent(db, req, p)
    requires Merge(db, AfterBet(Restrict(db, locks), req, p, ch), locks) == AfterBet(db, req, p, ch)
    ensures Merge(db, AfterWin(Restrict(db, locks), req, p, ch), locks) == AfterWin(db, req, p, ch)
  {
    RowsStay(Restrict(db, locks), req, p, ch);
    hide Merge, Restrict, AfterBet, Moved, RowsPresent;
    if p.payout > 0 {
      MergeMoved(db, AfterBet(Restrict(db, locks), req, p, ch), locks, WinMove(req, p, ch), ch.winId);
    }
  }

  lemma MergeBank(db: DB, locks: set<Resource>, req: Request, p: Plan, ch: Choices)
    requires RowsPresent(Restrict(db, locks), req, p) && RowsPresent(db, req, p) && (req.isReal ==> HouseRow in locks)
    requires Merge(db, AfterWin(Restrict(db, locks), req, p, ch), locks) == AfterWin(db, req, p, ch)
    ensures Merge(db, AfterHouse(Restrict(db, locks), req, p, ch), locks) == AfterHouse(db, req, p, ch)
  {
    if req.isReal {
      MergeHouse(db, AfterWin(Restrict(db, locks), req, p, ch), locks, HouseDelta(req, p), p.rake);
    }
  }

  lemma MergeRef(db: DB, locks: set<Resource>, req: Request, p: Plan, ch: Choices)
    requires RowsPresent(Restrict(db, locks), req, p) && RowsPresent(db, req, p)
    requires Merge(db, AfterHouse(Restrict(db, locks), req, p, ch), locks) == AfterHouse(db, req, p, ch)
    ensures Merge(db, AfterRef(Restrict(db, locks), req, p, ch), locks) == AfterRef(db, req, p, ch)
  {
    RowsStay(Restrict(db, locks), req, p, ch);
    hide Merge, Restrict, AfterHouse, Moved, RowsPresent;
    if p.commission > 0 {
      MergeMoved(db, AfterHouse(Restrict(db, locks), req, p, ch), locks, RefMove(p, ch), ch.refId);
    }
  }

  /** The whole of a spin commutes. */
  lemma MergeSpin(db: DB, locks: set<Resource>, req: Request, p: Plan, ch: Choices)
    requires RowsPresent(Restrict(db, locks), req, p) && (req.isReal ==> HouseRow in locks)
    ensures RowsPresent(db, req, p)
    ensures Merge(db, AfterRef(Restrict(db, locks), req, p, ch), locks) == AfterRef(db, req, p, ch)
  {
    hide *;
    MergeBet(db, locks, req, p, ch);
    MergeWin(db, locks, req, p, ch);
    MergeBank(db, locks, req, p, ch);
    MergeRef(db, locks, req, p, ch);
  }

  /** So do its refusals: they depend on locked rows only. */
  lemma SameMoneyErrors(db: DB, locks: set<Resource>, req: Request, p: Plan, ch: Choices)
    requires RowsPresent(Restrict(db, locks), req, p) && (req.isReal ==> HouseRow in locks)
    ensures RowsPresent(db, req, p)
    ensures var r := Restrict(db, locks);
            && BetError(r, req, p, ch) == BetError(db, req, p, ch)
            && WinError(r, req, p, ch) == WinError(db, req, p, ch)
            && BankError(r, req, p, ch) == BankError(db, req, p, ch)
            && RefError(r, req, p, ch) == RefError(db, req, p, ch)
  {
    SameStakeErrors(db, locks, req, p, ch);
    SameBankErrors(db, locks, req, p, ch);
    hide Restrict, BetError, WinError, BankError, RefError;
  }

  lemma SameStakeErrors(db: DB, locks: set<Resource>, req: Request, p: Plan, ch: Choices)
    requires RowsPresent(Restrict(db, locks), req, p) && RowsPresent(db, req, p)
    ensures BetError(Restrict(db, locks), req, p, ch) == BetError(db, req, p, ch)
    ensures WinError(Restrict(db, locks), req, p, ch) == WinError(db, req, p, ch)
  {
    var r := Restrict(db, locks);
    SameMove(AfterInsert(r, req, p, ch), AfterInsert(db, req, p, ch), BetMove(req, ch));
    SameMove(AfterBet(r, req, p, ch), AfterBet(db, req, p, ch), WinMove(req, p, ch));
    hide MoveError;
  }

  lemma SameBankErrors(db: DB, locks: set<Resource>, req: Request, p: Plan, ch: Choices)
    requires RowsPresent(Restrict(db, locks), req, p) && RowsPresent(db, req, p) && (req.isReal ==> HouseRow in locks)
    ensures BankError(Restrict(db, locks), req, p, ch) == BankError(db, req, p, ch)
    ensures RefError(Restrict(db, locks), req, p, ch) == RefError(db, req, p, ch)
  {
    var r := Restrict(db, locks);
    if p.commission > 0 {
      SameMove(AfterHouse(r, req, p, ch), AfterHouse(db, req, p, ch), RefMove(p, ch));
    }
    hide MoveError;
  }

  lemma SameMove(a: DB, b: DB, m: Move)
    requires m.user in a.wallets && m.user in b.wallets && a.wallets[m.user] == b.wallets[m.user]
    ensures MoveError(a, m) == MoveError(b, m)
  {
  }
}

/** The same knowledge for the interleaved top-ups, holds (internal/wallet/wallet.go) and registrations
    (internal/users/users.go). */
module AccountRuns {
  import opened Basics
  import opened Schema
  import opened Movements
  import opened Spin
  import opened Transactions
  import opened Integrity
  import opened Machine
  import opened Fragments
  import opened SpinRuns

  /******* TopUpDemo: its user row, then its wallet *******/

  ghost predicate TopUpLocal(tx: Tx, r: DB)
    requires tx.op.TopUpOp?
  {
    var user, now, target := tx.op.user, tx.op.now, tx.op.target;
    var eligible := user in r.topups ==> r.topups[user] < now - tx.op.cooldown;
    match tx.pc
    case Claim => tx.locks == {} && tx.frag == r
    case LockOne => tx.locks == {UserRow(user)} && eligible && tx.frag == Claimed(r, user, now)
    case Body =>
      tx.locks == {UserRow(user), WalletRow(user)} && eligible && user in r.wallets && tx.frag == Claimed(r, user, now)
    case Commit =>
      tx.locks == {UserRow(user), WalletRow(user)} && eligible && user in r.wallets
      && TopUpError(Claimed(r, user, now), user, target) == None
      && tx.frag == ToppedUp(Claimed(r, user, now), user, target, tx.ch.betId)
    case _ => false
  }

  ghost predicate TopUpInv(tx: Tx, db: DB) {
    && tx.op.TopUpOp? && TopUpLocal(tx, Restrict(db, tx.locks))
    && (tx.pc != Claim ==> tx.op.user in db.users)
    && (tx.pc == Commit ==> RowIdsBelow(db, tx.op.user, tx.ch.betId))
  }

  lemma RestrictUser(db: DB, u: nat)
    ensures Restrict(db, {UserRow(u), WalletRow(u)}) == Restrict(db, {UserRow(u)} + {WalletRow(u)})
  {
    assert {UserRow(u), WalletRow(u)} == {UserRow(u)} + {WalletRow(u)};
  }

  lemma TopUpStep(tx: Tx, db: DB, seqs: Seqs)
    requires TopUpInv(tx, db) && SeqsAbove(db, seqs) && ExecTopUp(tx, db, seqs).Goes?
    ensures TopUpInv(ExecTopUp(tx, db, seqs).tx, db)
  {
    var user := tx.op.user;
    if tx.pc == Claim {
      assert tx.locks + {UserRow(user)} == {UserRow(user)};
    } else if tx.pc == LockOne {
      RestrictUser(db, user);
      RestrictWallet(db, tx.locks, user);
    }
  }

  lemma TopUpUndisturbed(tx: Tx, db: DB, db': DB)
    requires TopUpInv(tx, db) && Unnoticed(db, db', tx)
    ensures TopUpInv(tx, db')
  {
  }

  lemma TopUpContained(tx: Tx, db: DB)
    requires TopUpInv(tx, db)
    ensures Contained(tx) && tx.frag.users == map[] && tx.frag.spins == map[]
  {
  }

  lemma TopUpCommit(tx: Tx, db: DB)
    requires TopUpInv(tx, db) && tx.pc == Commit
    ensures AtomicTopUp(db, tx.op.user, tx.op.now, tx.op.cooldown, tx.op.target, tx.ch.betId) ==
            Ok(Merge(db, tx.frag, tx.locks))
    ensures RowIdsBelow(db, tx.op.user, tx.ch.betId)
  {
    var user, now, target := tx.op.user, tx.op.now, tx.op.target;
    var r := Restrict(db, tx.locks);
    MergeRestrict(db, tx.locks);
    MergeClaimed(db, r, tx.locks, user, now);
    var delta := TopUpDelta(Claimed(r, user, now), user, target);
    if delta > 0 {
      MergeMoved(db, Claimed(r, user, now), tx.locks, GrantMove(user, delta), tx.ch.betId);
    }
  }

  lemma TopUpRefusal(tx: Tx, db: DB, seqs: Seqs)
    requires TopUpInv(tx, db) && ExecTopUp(tx, db, seqs).Fails?
    ensures AtomicTopUp(db, tx.op.user, tx.op.now, tx.op.cooldown, tx.op.target, tx.ch.betId) ==
            Err(ExecTopUp(tx, db, seqs).error)
  {
  }

  /******* Holds: one wallet *******/

  predicate IsHold(op: Op) {
    op.HoldOp? || op.ReleaseOp? || op.ReverseOp?
  }

  function HoldsError(db: DB, op: Op): Option<Error>
    requires IsHold(op)
  {
    match op
    case HoldOp(user, amount, withdrawal) => HoldError(db, user, amount, withdrawal)
    case ReleaseOp(user, amount) => ReleaseError(db, user, amount)
    case ReverseOp(user, amount, withdrawal) => ReverseError(db, user, amount, withdrawal)
  }

  function HoldsDone(db: DB, op: Op, id: nat): DB
    requires IsHold(op) && op.user in db.wallets
  {
    match op
    case HoldOp(user, amount, withdrawal) => Held(db, user, amount, withdrawal, id)
    case ReleaseOp(user, amount) => Released(db, user, amount)
    case ReverseOp(user, amount, withdrawal) => Reversed(db, user, amount, withdrawal, id)
  }

  ghost predicate HoldsLocal(tx: Tx, r: DB)
    requires IsHold(tx.op)
  {
    var user := tx.op.user;
    match tx.pc
    case LockOne => tx.locks == {} && tx.frag == r
    case Body => tx.locks == {WalletRow(user)} && user in r.wallets && tx.frag == r
    case Commit =>
      tx.locks == {WalletRow(user)} && user in r.wallets && HoldsError(r, tx.op) == None
      && tx.frag == HoldsDone(r, tx.op, tx.ch.betId)
    case _ => false
  }

  ghost predicate HoldsInv(tx: Tx, db: DB) {
    && IsHold(tx.op) && HoldsLocal(tx, Restrict(db, tx.locks))
    && (tx.pc == Commit ==> RowIdsBelow(db, tx.op.user, tx.ch.betId))
  }

  lemma HoldsStep(tx: Tx, db: DB, seqs: Seqs)
    requires HoldsInv(tx, db) && SeqsAbove(db, seqs) && ExecHolds(tx, db, seqs).Goes?
    ensures HoldsInv(ExecHolds(tx, db, seqs).tx, db)
  {
    var user := tx.op.user;
    if tx.pc == LockOne {
      assert tx.locks + {WalletRow(user)} == {WalletRow(user)};
      RestrictWallet(db, tx.locks, user);
    }
  }

  lemma HoldsUndisturbed(tx: Tx, db: DB, db': DB)
    requires HoldsInv(tx, db) && Unnoticed(db, db', tx)
    ensures HoldsInv(tx, db')
  {
  }

  lemma HoldsContained(tx: Tx, db: DB)
    requires HoldsInv(tx, db)
    ensures Contained(tx) && tx.frag.users == map[] && tx.frag.spins == map[]
  {
  }

  lemma MergeHolds(db: DB, locks: set<Resource>, op: Op, id: nat)
    requires IsHold(op) && op.user in Restrict(db, locks).wallets
    ensures Merge(db, HoldsDone(Restrict(db, locks), op, id), locks) == HoldsDone(db, op, id)
    ensures HoldsError(Restrict(db, locks), op) == HoldsError(db, op)
  {
    var user, r := op.user, Restrict(db, locks);
    MergeRestrict(db, locks);
    hide Merge;
    match op
    case HoldOp(_, amount, withdrawal) => MergeHold(db, r, locks, user, amount, withdrawal, id);
    case ReleaseOp(_, amount) => MergeHeld(db, r, locks, user, -amount);
    case ReverseOp(_, amount, withdrawal) => MergeReverse(db, r, locks, user, amount, withdrawal, id);
  }

  lemma MergeHold(db: DB, r: DB, locks: set<Resource>, user: nat, amount: int, withdrawal: Option<nat>, id: nat)
    requires user in r.wallets && Merge(db, r, locks) == db
    ensures user in db.wallets && Merge(db, Held(r, user, amount, withdrawal, id), locks) == Held(db, user, amount, withdrawal, id)
  {
    MergeMoved(db, r, locks, HoldMove(user, amount, withdrawal), id);
    MergeHeld(db, Moved(r, HoldMove(user, amount, withdrawal), id), locks, user, amount);
  }

  lemma MergeReverse(db: DB, r: DB, locks: set<Resource>, user: nat, amount: int, withdrawal: Option<nat>, id: nat)
    requires user in r.wallets && Merge(db, r, locks) == db
    ensures user in db.wallets
    ensures Merge(db, Reversed(r, user, amount, withdrawal, id), locks) == Reversed(db, user, amount, withdrawal, id)
  {
    MergeHeld(db, r, locks, user, -amount);
    MergeMoved(db, Released(r, user, amount), locks, ReverseMove(user, amount, withdrawal), id);
  }

  lemma HoldsCommit(c: Config, tx: Tx, db: DB)
    requires HoldsInv(tx, db) && tx.pc == Commit
    ensures Atomic(c, db, tx.op, true, tx.ch) == Ok(Merge(db, tx.frag, tx.locks))
    ensures FreshFor(c, db, tx.op, tx.ch)
  {
    MergeHolds(db, tx.locks, tx.op, tx.ch.betId);
    assert Atomic(c, db, tx.op, true, tx.ch) == Ok(HoldsDone(db, tx.op, tx.ch.betId));
  }

  lemma HoldsRefusal(c: Config, tx: Tx, db: DB, seqs: Seqs)
    requires HoldsInv(tx, db) && ExecHolds(tx, db, seqs).Fails?
    ensures Atomic(c, db, tx.op, true, tx.ch) == Err(ExecHolds(tx, db, seqs).error)
  {
  }

  /******* createOnce: two unique keys, then rows nobody else can name *******/

  ghost predicate RegisterLocal(tx: Tx, r: DB)
    requires tx.op.RegisterOp?
  {
    var phone, code, uid := PhoneKey(tx.op.phone), CodeKey(tx.op.code), tx.ch.uid;
    var user := User(tx.op.phone, tx.op.code, tx.payee);
    match tx.pc
    case Resolve => tx.locks == {} && tx.frag == r
    case Phone => tx.locks == {} && tx.frag == r
    case Code => tx.locks == {phone} && tx.frag == r
    case OpenWallet => tx.locks == {phone, code} && tx.frag == UserAdded(r, uid, user)
    case Grant => tx.locks == {phone, code, WalletRow(uid)} && tx.frag == WalletAdded(UserAdded(r, uid, user), uid)
    case Commit =>
      tx.locks == {phone, code, WalletRow(uid)}
      && GrantError(WalletAdded(UserAdded(r, uid, user), uid), uid, tx.op.grant) == None
      && tx.frag == Granted(WalletAdded(UserAdded(r, uid, user), uid), uid, tx.op.grant, tx.ch.betId)
    case _ => false
  }

  ghost predicate RegisterShared(tx: Tx, db: DB)
    requires tx.op.RegisterOp?
  {
    var invite := tx.op.invite;
    && (tx.pc != Resolve ==>
          && tx.payee == Referrer(db.users, invite)
          && Recognised(db.users, invite))
    && (tx.pc in {Code, OpenWallet, Grant, Commit} ==> !HasPhone(db.users, tx.op.phone))
    && (tx.pc in {OpenWallet, Grant, Commit} ==>
          !HasCode(db.users, tx.op.code) && tx.ch.uid in tx.frag.users && tx.ch.uid !in db.users)
  }

  /** The wallet of the new user: nobody else's row, so nothing committed refers to it. */
  ghost predicate RegisterInv(tx: Tx, db: DB) {
    && tx.op.RegisterOp? && RegisterLocal(tx, Restrict(db, tx.locks)) && RegisterShared(tx, db)
  }

  lemma RegisterStep(tx: Tx, db: DB, seqs: Seqs)
    requires RegisterInv(tx, db) && SeqsAbove(db, seqs) && OwnersExist(db) && ExecRegister(tx, db, seqs).Goes?
    ensures RegisterInv(ExecRegister(tx, db, seqs).tx, db)
  {
    if tx.pc == Resolve || tx.pc == Phone || tx.pc == Code {
      RegisterKeys(tx, db, seqs);
    } else {
      RegisterRows(tx, db, seqs);
    }
  }

  lemma RegisterKeys(tx: Tx, db: DB, seqs: Seqs)
    requires RegisterInv(tx, db) && SeqsAbove(db, seqs) && ExecRegister(tx, db, seqs).Goes?
    requires tx.pc == Resolve || tx.pc == Phone || tx.pc == Code
    ensures RegisterInv(ExecRegister(tx, db, seqs).tx, db)
  {
    var phone, code := PhoneKey(tx.op.phone), CodeKey(tx.op.code);
    RestrictKey(db, tx.locks, phone);
    RestrictKey(db, tx.locks, code);
    assert tx.pc == Phone ==> tx.locks + {phone} == {phone};
    assert tx.pc == Code ==> tx.locks + {code} == {phone, code};
    hide Restrict, HasPhone, HasCode, Referrer, Recognised, GrantError, Granted, WalletAdded;
  }

  lemma RegisterRows(tx: Tx, db: DB, seqs: Seqs)
    requires RegisterInv(tx, db) && OwnersExist(db) && ExecRegister(tx, db, seqs).Goes?
    requires tx.pc == OpenWallet || tx.pc == Grant
    ensures RegisterInv(ExecRegister(tx, db, seqs).tx, db)
  {
    var phone, code := PhoneKey(tx.op.phone), CodeKey(tx.op.code);
    if tx.pc == OpenWallet {
      assert tx.ch.uid !in db.wallets;
      RestrictNobody(db, tx.locks, tx.ch.uid);
      assert tx.locks + {WalletRow(tx.ch.uid)} == {phone, code, WalletRow(tx.ch.uid)};
    }
    hide Restrict, HasPhone, HasCode, Referrer, Recognised, OwnersExist, MoveError, Moved;
  }

  /** A lock on a row that is not committed yet brings nothing into the fragment. */
  lemma RestrictNobody(db: DB, locks: set<Resource>, uid: nat)
    requires uid !in db.wallets
    ensures Restrict(db, locks + {WalletRow(uid)}) == Restrict(db, locks)
  {
    var a, b := Restrict(db, locks + {WalletRow(uid)}), Restrict(db, locks);
    assert a.wallets == b.wallets && a.topups == b.topups;
  }

  /** A code resolves to the same user for ever. */
  lemma SameReferrer(db: DB, db': DB, invite: Option<Invite>)
    requires UniqueKeys(db') && forall u | u in db.users :: u in db'.users && db'.users[u] == db.users[u]
    requires Recognised(db.users, invite)
    ensures Referrer(db'.users, invite) == Referrer(db.users, invite)
    ensures Recognised(db'.users, invite)
  {
    if invite.Some? {
      var u := ByCode(db.users, invite.value.code);
      assert u in db'.users && db'.users[u].code == invite.value.code;
    }
  }

  lemma RegisterUndisturbed(tx: Tx, db: DB, db': DB)
    requires RegisterInv(tx, db) && Unnoticed(db, db', tx) && UniqueKeys(db')
    ensures RegisterInv(tx, db')
  {
    if tx.pc != Resolve {
      SameReferrer(db, db', tx.op.invite);
    }
  }

  lemma RegisterContained(tx: Tx, db: DB)
    requires RegisterInv(tx, db)
    ensures Contained(tx) && tx.frag.spins == map[]
    ensures tx.frag.users.Keys == if tx.pc in {OpenWallet, Grant, Commit} then {tx.ch.uid} else {}
  {
  }

  lemma RegisterCommit(tx: Tx, db: DB)
    requires RegisterInv(tx, db) && tx.pc == Commit && OwnersExist(db)
    ensures var op := tx.op;
            AtomicRegister(db, op.phone, op.code, op.invite, op.grant, tx.ch.uid, tx.ch.betId) ==
            Ok(Merge(db, tx.frag, tx.locks))
    ensures tx.ch.uid !in db.users && tx.ch.uid !in db.wallets && RowIdsBelow(db, tx.ch.uid, tx.ch.betId)
  {
    var r, uid, user := Restrict(db, tx.locks), tx.ch.uid, User(tx.op.phone, tx.op.code, tx.payee);
    MergeRestrict(db, tx.locks);
    MergeAccount(db, r, tx.locks, uid, user);
    if tx.op.grant > 0 {
      MergeMoved(db, WalletAdded(UserAdded(r, uid, user), uid), tx.locks, GrantMove(uid, tx.op.grant), tx.ch.betId);
    }
  }

  lemma RegisterRefusal(tx: Tx, db: DB, seqs: Seqs)
    requires RegisterInv(tx, db) && ExecRegister(tx, db, seqs).Fails?
    ensures var op := tx.op;
            AtomicRegister(db, op.phone, op.code, op.invite, op.grant, tx.ch.uid, tx.ch.betId) ==
            Err(ExecRegister(tx, db, seqs).error)
  {
  }
}

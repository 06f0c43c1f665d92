/** What each statement of internal/wallet/wallet.go does to the rows it is given. */
module Movements {
  import opened Basics
  import opened Schema

  datatype Move = Move(user: nat, kind: Kind, isReal: bool, delta: int, ref: Option<nat>)

  /** Why Move refuses, in the order Go and Postgres find out. */
  function MoveError(db: DB, m: Move): Option<Error> {
    if m.delta == 0 then Some(ZeroDelta)
    else if m.kind == Unset then Some(KindMissing)
    else if m.user !in db.wallets then Some(NoWallet(m.user))
    else
      var after := db.wallets[m.user].Spendable(m.isReal) + m.delta;
      if !IsInt64(after) then Some(OutOfRange)
      else if after < 0 then Some(WalletInsufficient)
      else if !RealmKind(m.kind, m.isReal) then Some(RecordRejected)
      else None
  }

  /** The relative UPDATE and the ledger row that records it. */
  function Moved(db: DB, m: Move, id: nat): DB
    requires m.user in db.wallets
  {
    var w := db.wallets[m.user].Credited(m.isReal, m.delta);
    db.(wallets := db.wallets[m.user := w],
        ledger := db.ledger + [Row(id, m.user, m.kind, m.isReal, m.delta, w.Spendable(m.isReal), m.ref)])
  }

  function HouseError(h: House, bankrollDelta: int, rakeDelta: int): Option<Error> {
    if !IsInt64(h.bankroll + bankrollDelta) || !IsInt64(h.rake + rakeDelta) then Some(OutOfRange)
    else if h.bankroll + bankrollDelta < 0 || h.rake + rakeDelta < 0 then Some(BankrollExhausted)
    else None
  }

  function HouseMoved(db: DB, bankrollDelta: int, rakeDelta: int): DB {
    db.(house := House(db.house.bankroll + bankrollDelta, db.house.rake + rakeDelta))
  }

  /** Changing held_cents of a row that may not exist: an UPDATE of no rows succeeds. */
  function HeldChanged(db: DB, user: nat, delta: int): DB {
    if user !in db.wallets then db else
      var w := db.wallets[user];
      db.(wallets := db.wallets[user := w.(heldCents := w.heldCents + delta)])
  }

  function HoldMove(user: nat, amount: int, withdrawal: Option<nat>): Move {
    Move(user, Withdraw, true, -amount, withdrawal)
  }

  function ReverseMove(user: nat, amount: int, withdrawal: Option<nat>): Move {
    Move(user, WithdrawReversed, true, amount, withdrawal)
  }

  function HoldError(db: DB, user: nat, amount: int, withdrawal: Option<nat>): Option<Error> {
    if amount <= 0 then Some(BadAmount)
    else if MoveError(db, HoldMove(user, amount, withdrawal)).Some? then
      MoveError(db, HoldMove(user, amount, withdrawal))
    else if !IsInt64(db.wallets[user].heldCents + amount) then Some(OutOfRange)
    else None
  }

  function Held(db: DB, user: nat, amount: int, withdrawal: Option<nat>, id: nat): DB
    requires user in db.wallets
  {
    HeldChanged(Moved(db, HoldMove(user, amount, withdrawal), id), user, amount)
  }

  function ReleaseError(db: DB, user: nat, amount: int): Option<Error> {
    if amount <= 0 then Some(BadAmount)
    else if user in db.wallets && !IsInt64(db.wallets[user].heldCents - amount) then Some(OutOfRange)
    else if user in db.wallets && db.wallets[user].heldCents - amount < 0 then Some(HoldCorrupt)
    else None
  }

  function Released(db: DB, user: nat, amount: int): DB {
    HeldChanged(db, user, -amount)
  }

  function ReverseError(db: DB, user: nat, amount: int, withdrawal: Option<nat>): Option<Error> {
    if ReleaseError(db, user, amount).Some? then ReleaseError(db, user, amount)
    else MoveError(Released(db, user, amount), ReverseMove(user, amount, withdrawal))
  }

  function Reversed(db: DB, user: nat, amount: int, withdrawal: Option<nat>, id: nat): DB
    requires user in db.wallets
  {
    Moved(Released(db, user, amount), ReverseMove(user, amount, withdrawal), id)
  }

  /** A hold reversed at once restores every balance, and leaves both halves on record. */
  lemma HoldThenReverse(db: DB, user: nat, amount: int, withdrawal: Option<nat>, id: nat, id': nat)
    requires HoldError(db, user, amount, withdrawal) == None
    requires user in db.wallets ==> db.wallets[user].heldCents >= 0 && IsInt64(db.wallets[user].realCents)
    ensures var held := Held(db, user, amount, withdrawal, id);
            && ReverseError(held, user, amount, withdrawal) == None
            && var back := Reversed(held, user, amount, withdrawal, id');
               && back.wallets == db.wallets
               && |back.ledger| == |db.ledger| + 2 && db.ledger <= back.ledger
               && back.ledger[|db.ledger|].amount == -amount
               && back.ledger[|db.ledger| + 1].amount == amount
  {
    var held := Held(db, user, amount, withdrawal, id);
    var back := Reversed(held, user, amount, withdrawal, id');
    assert back.wallets[user] == db.wallets[user];
  }
}

/** The money transactions, each as one atomic step on the tables. Spins are in module Spin; here are the
    withdrawal holds (internal/wallet/wallet.go) and the account transactions (internal/users/users.go). */
module Transactions {
  import opened Basics
  import opened Schema
  import opened Movements
  import opened Spin

  /** The referral code a registration arrived with, and whether its owner was active when it was looked up: is_active
      is read without a lock, so the answer is an input. */
  datatype Invite = Invite(code: string, active: bool)

  datatype Op =
    | SpinOp(req: Request)
    | TopUpOp(user: nat, now: int, cooldown: int, target: int)
    | HoldOp(user: nat, amount: int, withdrawal: Option<nat>)
    | ReleaseOp(user: nat, amount: int)
    | ReverseOp(user: nat, amount: int, withdrawal: Option<nat>)
    | RegisterOp(phone: string, code: string, invite: Option<Invite>, grant: int)

  /******* TopUpDemo *******/

  predicate Eligible(db: DB, user: nat, now: int, cooldown: int) {
    user in db.users && (user in db.topups ==> db.topups[user] < now - cooldown)
  }

  function Claimed(db: DB, user: nat, now: int): DB {
    db.(topups := db.topups[user := now])
  }

  function GrantMove(user: nat, delta: int): Move {
    Move(user, DemoGrant, false, delta, None)
  }

  function TopUpDelta(db: DB, user: nat, target: int): int
    requires user in db.wallets
  {
    target - db.wallets[user].demoCents
  }

  /** Topping up TO the target; a balance already there is left alone but the claim stands. */
  function ToppedUp(db: DB, user: nat, target: int, id: nat): DB
    requires user in db.wallets
  {
    var delta := TopUpDelta(db, user, target);
    if delta <= 0 then db else Moved(db, GrantMove(user, delta), id)
  }

  function TopUpError(db: DB, user: nat, target: int): Option<Error>
    requires user in db.wallets
  {
    var delta := TopUpDelta(db, user, target);
    if delta <= 0 then None else MoveError(db, GrantMove(user, delta))
  }

  function AtomicTopUp(db: DB, user: nat, now: int, cooldown: int, target: int, id: nat): Result<DB, Error> {
    if !Eligible(db, user, now, cooldown) then Err(NotEligible)
    else if user !in db.wallets then Err(NoWallet(user))
    else if TopUpError(Claimed(db, user, now), user, target).Some? then
      Err(TopUpError(Claimed(db, user, now), user, target).value)
    else Ok(ToppedUp(Claimed(db, user, now), user, target, id))
  }

  /** A top-up fills the demo balance to the target and never lowers it; it records a grant of exactly the difference,
      or none, and starts the cooldown either way. */
  lemma TopUpEffect(db: DB, user: nat, now: int, cooldown: int, target: int, id: nat)
    requires AtomicTopUp(db, user, now, cooldown, target, id).Ok?
    ensures user in db.users && user in db.wallets
    ensures var after, before := AtomicTopUp(db, user, now, cooldown, target, id).value, db.wallets[user];
            && after.wallets == db.wallets[user := before.(demoCents := if before.demoCents < target then target else before.demoCents)]
            && after.ledger == db.ledger
               + (if before.demoCents < target
                  then [Row(id, user, DemoGrant, false, target - before.demoCents, target, None)] else [])
            && after.topups == db.topups[user := now] && after.house == db.house && after.spins == db.spins
            && !Eligible(after, user, now, if cooldown < 0 then 0 else cooldown)
  {
    var before := db.wallets[user];
    assert db.wallets == db.wallets[user := before.(demoCents := before.demoCents)];
    assert db.ledger == db.ledger + [];
  }

  /******* Holds, each under a wallet lock its caller takes *******/

  function AtomicHold(db: DB, user: nat, amount: int, withdrawal: Option<nat>, id: nat): Result<DB, Error> {
    if user !in db.wallets then Err(NoWallet(user))
    else match HoldError(db, user, amount, withdrawal)
      case Some(e) => Err(e)
      case None => Ok(Held(db, user, amount, withdrawal, id))
  }

  function AtomicRelease(db: DB, user: nat, amount: int): Result<DB, Error> {
    if user !in db.wallets then Err(NoWallet(user))
    else match ReleaseError(db, user, amount)
      case Some(e) => Err(e)
      case None => Ok(Released(db, user, amount))
  }

  function AtomicReverse(db: DB, user: nat, amount: int, withdrawal: Option<nat>, id: nat): Result<DB, Error> {
    if user !in db.wallets then Err(NoWallet(user))
    else match ReverseError(db, user, amount, withdrawal)
      case Some(e) => Err(e)
      case None => Ok(Reversed(db, user, amount, withdrawal, id))
  }

  /******* createOnce *******/

  predicate HasCode(users: map<nat, User>, code: string) {
    exists u | u in users :: users[u].code == code
  }

  predicate HasPhone(users: map<nat, User>, phone: string) {
    exists u | u in users :: users[u].phone == phone
  }

  /** The user a referral code belongs to; codes are unique. */
  ghost function ByCode(users: map<nat, User>, code: string): (u: nat)
    requires HasCode(users, code)
    ensures u in users && users[u].code == code
  {
    var u :| u in users && users[u].code == code;
    u
  }

  predicate Recognised(users: map<nat, User>, invite: Option<Invite>) {
    invite.Some? ==> invite.value.active && HasCode(users, invite.value.code)
  }

  ghost function Referrer(users: map<nat, User>, invite: Option<Invite>): Option<nat> {
    if invite.Some? && Recognised(users, invite) then Some(ByCode(users, invite.value.code)) else None
  }

  function UserAdded(db: DB, uid: nat, user: User): DB {
    db.(users := db.users[uid := user])
  }

  function WalletAdded(db: DB, uid: nat): DB {
    db.(wallets := db.wallets[uid := Wallet(0, 0, 0)])
  }

  function Granted(db: DB, uid: nat, grant: int, id: nat): DB
    requires uid in db.wallets
  {
    if grant > 0 then Moved(db, GrantMove(uid, grant), id) else db
  }

  function GrantError(db: DB, uid: nat, grant: int): Option<Error> {
    if grant > 0 then MoveError(db, GrantMove(uid, grant)) else None
  }

  ghost function AtomicRegister(
    db: DB, phone: string, code: string, invite: Option<Invite>, grant: int, uid: nat, id: nat
  ): Result<DB, Error>
  {
    if !Recognised(db.users, invite) then Err(ReferrerUnknown)
    else if HasPhone(db.users, phone) then Err(PhoneTaken)
    else if HasCode(db.users, code) then Err(CodeCollision)
    else
      var account := WalletAdded(UserAdded(db, uid, User(phone, code, Referrer(db.users, invite))), uid);
      if GrantError(account, uid, grant).Some? then Err(GrantError(account, uid, grant).value)
      else Ok(Granted(account, uid, grant, id))
  }

  /** A registration adds one user with one wallet that holds the grant and nothing else, on record as a grant, and
      bound to the owner of the referral code if one was given. */
  lemma RegisterEffect(db: DB, phone: string, code: string, invite: Option<Invite>, grant: int, uid: nat, id: nat)
    requires AtomicRegister(db, phone, code, invite, grant, uid, id).Ok?
    ensures var after, funds := AtomicRegister(db, phone, code, invite, grant, uid, id).value, if grant > 0 then grant else 0;
            && after.users.Keys == db.users.Keys + {uid} && after.wallets == db.wallets[uid := Wallet(0, funds, 0)]
            && after.users[uid].phone == phone && after.users[uid].code == code
            && (invite == None ==> after.users[uid].referredBy == None)
            && (invite.Some? ==>
                  after.users[uid].referredBy.Some?
                  && var u := after.users[uid].referredBy.value; u in db.users && db.users[u].code == invite.value.code)
            && after.ledger == db.ledger + (if grant > 0 then [Row(id, uid, DemoGrant, false, grant, grant, None)] else [])
            && after.house == db.house && after.spins == db.spins && after.topups == db.topups
  {
    var account := WalletAdded(UserAdded(db, uid, User(phone, code, Referrer(db.users, invite))), uid);
    assert db.ledger == db.ledger + [];
    assert account.wallets[uid] == Wallet(0, 0, 0);
  }

  /** A hold moves money from spendable to held and nowhere else; a release takes it out of held alone. */
  lemma HoldEffect(db: DB, user: nat, amount: int, withdrawal: Option<nat>, id: nat)
    requires AtomicHold(db, user, amount, withdrawal, id).Ok?
    ensures var after, before := AtomicHold(db, user, amount, withdrawal, id).value, db.wallets[user];
            && 0 < amount <= before.realCents
            && after.wallets == db.wallets[user := Wallet(before.realCents - amount, before.demoCents, before.heldCents + amount)]
            && after.ledger == db.ledger + [Row(id, user, Withdraw, true, -amount, before.realCents - amount, withdrawal)]
            && after.house == db.house && after.spins == db.spins && after.users == db.users
  {
  }

  /** A reversal undoes a hold of that amount, whatever happened to the wallet in between. */
  lemma ReverseEffect(db: DB, user: nat, amount: int, withdrawal: Option<nat>, id: nat)
    requires AtomicReverse(db, user, amount, withdrawal, id).Ok?
    ensures var after, before := AtomicReverse(db, user, amount, withdrawal, id).value, db.wallets[user];
            && 0 < amount <= before.heldCents
            && after.wallets == db.wallets[user := Wallet(before.realCents + amount, before.demoCents, before.heldCents - amount)]
            && after.ledger ==
               db.ledger + [Row(id, user, WithdrawReversed, true, amount, before.realCents + amount, withdrawal)]
            && after.house == db.house && after.spins == db.spins && after.users == db.users
  {
  }

  /** A release takes the amount out of held, and out of the system. */
  lemma ReleaseEffect(db: DB, user: nat, amount: int)
    requires AtomicRelease(db, user, amount).Ok?
    ensures var before := db.wallets[user];
            && 0 < amount <= before.heldCents
            && AtomicRelease(db, user, amount).value ==
               db.(wallets := db.wallets[user := before.(heldCents := before.heldCents - amount)])
  {
  }

  /******* All of them *******/

  ghost function Atomic(c: Config, db: DB, op: Op, entropy: bool, ch: Choices): Result<DB, Error> {
    match op
    case SpinOp(req) =>
      (match AtomicSpin(c, db, req, entropy, ch) case Ok(r) => Ok(r.0) case Err(e) => Err(e))
    case TopUpOp(user, now, cooldown, target) => AtomicTopUp(db, user, now, cooldown, target, ch.betId)
    case HoldOp(user, amount, withdrawal) => AtomicHold(db, user, amount, withdrawal, ch.betId)
    case ReleaseOp(user, amount) => AtomicRelease(db, user, amount)
    case ReverseOp(user, amount, withdrawal) => AtomicReverse(db, user, amount, withdrawal, ch.betId)
    case RegisterOp(phone, code, invite, grant) =>
      AtomicRegister(db, phone, code, invite, grant, ch.uid, ch.betId)
  }

  predicate RowIdsBelow(db: DB, user: nat, id: nat) {
    forall r | r in db.ledger && r.user == user :: r.id < id
  }

  predicate SpinIdsBelow(db: DB, user: nat, id: nat) {
    forall s | s in db.spins && db.spins[s].user == user :: s < id
  }

  /** What the sequences guarantee about the ids an operation was given. */
  predicate FreshFor(c: Config, db: DB, op: Op, ch: Choices) {
    match op
    case SpinOp(req) =>
      && ch.spinId !in db.spins && SpinIdsBelow(db, req.user, ch.spinId) && RowIdsBelow(db, req.user, ch.betId)
      && (req.user in db.users ==>
            var p := MakePlan(c, req, Payee(c, db.users, req), ch.word);
            && (p.payout > 0 ==> ch.betId < ch.winId)
            && (p.commission > 0 ==> p.payee.Some? && RowIdsBelow(db, p.payee.value, ch.refId)))
    case RegisterOp(_, _, _, _) => ch.uid !in db.users && ch.uid !in db.wallets && RowIdsBelow(db, ch.uid, ch.betId)
    case _ => RowIdsBelow(db, op.user, ch.betId)
  }
}

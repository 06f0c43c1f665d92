/** Any number of the money transactions, interleaved statement by statement (internal/game/spin.go,
    internal/wallet/wallet.go, internal/users/users.go) over row locks and READ COMMITTED visibility.

    An open transaction works on its own versions of the rows it has locked (`frag`); nobody else sees them
    until it commits. A statement that locks a row waits while another transaction holds it, and then reads
    the committed version. */
module Machine {
  import opened Basics
  import opened Wheel
  import opened StakeCap
  import opened Schema
  import opened Movements
  import opened Spin
  import opened Transactions

  /** What a statement can wait for: a key being inserted into a unique index, or a row. */
  datatype Resource =
    | PhoneKey(phone: string) | CodeKey(code: string)
    | UserRow(id: nat) | WalletRow(id: nat) | HouseRow | SpinKey(user: nat, clientRef: string)

  /** The place of a statement in its transaction. */
  datatype Pc =
    | Load | LockNext(k: nat) | Funds | Bank | Draw | Insert | BetStep | WinStep | BankStep | RefStep   // Spin
    | Claim | LockOne | Body                                                                         // TopUpDemo, holds
    | Resolve | Phone | Code | OpenWallet | Grant                                                    // createOnce
    | Commit

  datatype Tx = Tx(op: Op, pc: Pc, locks: set<Resource>, frag: DB, payee: Option<nat>, ch: Choices)

  /** The three sequences; nextval is never rolled back. */
  datatype Seqs = Seqs(user: nat, spin: nat, row: nat)

  datatype Entry = Entry(op: Op, ch: Choices)

  datatype State = State(db: DB, seqs: Seqs, txs: map<nat, Tx>, log: seq<Entry>)

  datatype Label =
    | Begin(tid: nat, op: Op)
    | Forward(tid: nat, word: nat, entropy: bool)
    | Rollback(tid: nat)      // a crash, a cancelled context or a failed commit, at any point

  datatype Outcome = Goes(tx: Tx) | Fails(error: Error) | Commits

  /******* Rows, fragments and what a transaction sees *******/

  const EMPTY: DB := DB(map[], map[], map[], House(0, 0), [], map[])

  /** The committed versions of the locked rows. */
  function Restrict(db: DB, locks: set<Resource>): DB {
    EMPTY.(
      topups := map u | u in db.topups && UserRow(u) in locks :: db.topups[u],
      wallets := map u | u in db.wallets && WalletRow(u) in locks :: db.wallets[u],
      house := if HouseRow in locks then db.house else House(0, 0))
  }

  /** What a commit makes of the tables. */
  function Merge(db: DB, frag: DB, locks: set<Resource>): DB {
    DB(db.users + frag.users, db.topups + frag.topups, db.wallets + frag.wallets,
       if HouseRow in locks then frag.house else db.house,
       db.ledger + frag.ledger, db.spins + frag.spins)
  }

  /** wallet.Lock's row order: ascending user_id, each row once. */
  function LockIds(user: nat, payee: Option<nat>): seq<nat> {
    if payee == None || payee.value == user then [user]
    else if user < payee.value then [user, payee.value]
    else [payee.value, user]
  }

  /******* Statements *******/

  function Start(op: Op): Tx {
    Tx(op,
       match op
       case SpinOp(_) => Load
       case TopUpOp(_, _, _, _) => Claim
       case RegisterOp(_, _, _, _) => Resolve
       case _ => LockOne,
       {}, EMPTY, None, Choices(0, 0, 0, 0, 0, 0))
  }

  function PlanOf(c: Config, tx: Tx): Plan
    requires tx.op.SpinOp?
  {
    MakePlan(c, tx.op.req, tx.payee, tx.ch.word)
  }

  /** The lock the next statement takes. */
  function Wants(c: Config, tx: Tx, db: DB): Option<Resource> {
    match tx.op
    case SpinOp(req) => (
      match tx.pc
      case LockNext(k) =>
        var ids := LockIds(req.user, tx.payee);
        if k < |ids| && ids[k] in db.wallets then Some(WalletRow(ids[k])) else None
      case Bank => Some(HouseRow)
      case Insert => Some(SpinKey(req.user, req.clientRef))
      case BetStep => Some(WalletRow(req.user))
      case WinStep => if PlanOf(c, tx).payout > 0 then Some(WalletRow(req.user)) else None
      case BankStep => Some(HouseRow)
      case RefStep => if tx.payee.Some? then Some(WalletRow(tx.payee.value)) else None
      case _ => None)
    case TopUpOp(user, now, cooldown, _) => (
      match tx.pc
      case Claim => if Eligible(db, user, now, cooldown) then Some(UserRow(user)) else None
      case LockOne => if user in db.wallets then Some(WalletRow(user)) else None
      case Body => Some(WalletRow(user))
      case _ => None)
    case RegisterOp(phone, code, _, _) => (
      match tx.pc
      case Phone => Some(PhoneKey(phone))
      case Code => Some(CodeKey(code))
      case Grant => Some(WalletRow(tx.ch.uid))
      case _ => None)
    case _ => (
      match tx.pc
      case LockOne => if tx.op.user in db.wallets then Some(WalletRow(tx.op.user)) else None
      case Body => Some(WalletRow(tx.op.user))
      case _ => None)
  }

  /** Copying a locked wallet row into the fragment. */
  function LockWallet(tx: Tx, db: DB, user: nat): Tx
    requires user in db.wallets
  {
    tx.(locks := tx.locks + {WalletRow(user)},
        frag := tx.frag.(wallets := tx.frag.wallets[user := db.wallets[user]]))
  }

  function ExecSpin(c: Config, tx: Tx, db: DB, seqs: Seqs, word: nat, entropy: bool): Outcome
    requires tx.op.SpinOp?
  {
    var req, p := tx.op.req, PlanOf(c, tx);
    match tx.pc
    case Load =>
      if req.stake < c.minStake then Fails(StakeTooSmall(c.minStake))
      else if req.stake > c.maxStake then Fails(StakeTooLarge(c.maxStake))
      else if req.user !in db.users || !req.active then Fails(UserNotFound)
      else Goes(tx.(payee := Payee(c, db.users, req), pc := LockNext(0)))
    case LockNext(k) =>
      var ids := LockIds(req.user, tx.payee);
      if k < |ids| then
        if ids[k] in db.wallets then Goes(LockWallet(tx, db, ids[k]).(pc := LockNext(k + 1)))
        else Goes(tx.(pc := LockNext(k + 1)))
      else if req.user !in tx.frag.wallets then Fails(NoWallet(req.user))
      else if tx.payee.Some? && tx.payee.value !in tx.frag.wallets then Fails(NoWallet(tx.payee.value))
      else Goes(tx.(pc := Funds))
    case Funds =>
      if req.user !in tx.frag.wallets then Fails(NoWallet(req.user)) else
      var funds := tx.frag.wallets[req.user].Spendable(req.isReal);
      if funds < req.stake then Fails(InsufficientFunds(funds))
      else Goes(tx.(pc := if req.isReal then Bank else Draw))
    case Bank =>
      if db.house.bankroll < MaxExposure(MaxMult(c.wheel), req.stake) then
        Fails(StakeExceedsBank(MaxAffordableStake(MaxMult(c.wheel), db.house.bankroll)))
      else Goes(tx.(locks := tx.locks + {HouseRow}, frag := tx.frag.(house := db.house), pc := Draw))
    case Draw =>
      if !entropy then Fails(EntropyUnavailable)
      else if Select(TableFor(c, req.isReal), word % WEIGHT_TOTAL) == None then Fails(FellThrough)
      else Goes(tx.(ch := tx.ch.(word := word), pc := Insert))
    case Insert =>
      if !SpinChecks(RecordOf(req, p)) then Fails(RecordRejected)
      else if Taken(db.spins, req.user, req.clientRef) then Fails(DuplicateSpin)
      else
        var ch := tx.ch.(spinId := seqs.spin);
        Goes(tx.(locks := tx.locks + {SpinKey(req.user, req.clientRef)}, ch := ch,
                 frag := AfterInsert(tx.frag, req, p, ch), pc := BetStep))
    case BetStep => (
      match MoveError(tx.frag, BetMove(req, tx.ch))
      case Some(WalletInsufficient) => Fails(InsufficientFunds(tx.frag.wallets[req.user].Spendable(req.isReal)))
      case Some(e) => Fails(e)
      case None =>
        Goes(tx.(ch := tx.ch.(betId := seqs.row), frag := Moved(tx.frag, BetMove(req, tx.ch), seqs.row), pc := WinStep)))
    case WinStep =>
      var next := if req.isReal then BankStep else Commit;
      if p.payout <= 0 then Goes(tx.(pc := next)) else (
        match MoveError(tx.frag, WinMove(req, p, tx.ch))
        case Some(e) => Fails(e)
        case None =>
          Goes(tx.(ch := tx.ch.(winId := seqs.row), frag := Moved(tx.frag, WinMove(req, p, tx.ch), seqs.row), pc := next)))
    case BankStep => (
      match HouseError(tx.frag.house, HouseDelta(req, p), p.rake)
      case Some(e) => Fails(e)
      case None =>
        Goes(tx.(frag := HouseMoved(tx.frag, HouseDelta(req, p), p.rake),
                 pc := if p.commission > 0 then RefStep else Commit)))
    case RefStep =>
      if p.payee == None then Goes(tx.(pc := Commit)) else (
        match MoveError(tx.frag, RefMove(p, tx.ch))
        case Some(e) => Fails(e)
        case None =>
          Goes(tx.(ch := tx.ch.(refId := seqs.row), frag := Moved(tx.frag, RefMove(p, tx.ch), seqs.row), pc := Commit)))
    case _ => Commits
  }

  function ExecTopUp(tx: Tx, db: DB, seqs: Seqs): Outcome
    requires tx.op.TopUpOp?
  {
    var user := tx.op.user;
    match tx.pc
    case Claim =>
      if !Eligible(db, user, tx.op.now, tx.op.cooldown) then Fails(NotEligible)
      else Goes(tx.(locks := tx.locks + {UserRow(user)}, frag := Claimed(Restrict(db, {UserRow(user)}), user, tx.op.now),
                    pc := LockOne))
    case LockOne =>
      if user !in db.wallets then Fails(NoWallet(user)) else Goes(LockWallet(tx, db, user).(pc := Body))
    case Body =>
      if user !in tx.frag.wallets then Fails(NoWallet(user)) else (
        match TopUpError(tx.frag, user, tx.op.target)
        case Some(e) => Fails(e)
        case None =>
          Goes(tx.(ch := tx.ch.(betId := seqs.row), frag := ToppedUp(tx.frag, user, tx.op.target, seqs.row), pc := Commit)))
    case _ => Commits
  }

  function ExecHolds(tx: Tx, db: DB, seqs: Seqs): Outcome
    requires tx.op.HoldOp? || tx.op.ReleaseOp? || tx.op.ReverseOp?
  {
    var user := tx.op.user;
    match tx.pc
    case LockOne =>
      if user !in db.wallets then Fails(NoWallet(user)) else Goes(LockWallet(tx, db, user).(pc := Body))
    case Body =>
      if user !in tx.frag.wallets then Fails(NoWallet(user)) else
      var error :=
        match tx.op
        case HoldOp(_, amount, withdrawal) => HoldError(tx.frag, user, amount, withdrawal)
        case ReleaseOp(_, amount) => ReleaseError(tx.frag, user, amount)
        case ReverseOp(_, amount, withdrawal) => ReverseError(tx.frag, user, amount, withdrawal);
      if error.Some? then Fails(error.value) else
      var frag :=
        match tx.op
        case HoldOp(_, amount, withdrawal) => Held(tx.frag, user, amount, withdrawal, seqs.row)
        case ReleaseOp(_, amount) => Released(tx.frag, user, amount)
        case ReverseOp(_, amount, withdrawal) => Reversed(tx.frag, user, amount, withdrawal, seqs.row);
      Goes(tx.(ch := tx.ch.(betId := seqs.row), frag := frag, pc := Commit))
    case _ => Commits
  }

  ghost function ExecRegister(tx: Tx, db: DB, seqs: Seqs): Outcome
    requires tx.op.RegisterOp?
  {
    var RegisterOp(phone, code, invite, grant) := tx.op;
    match tx.pc
    case Resolve =>
      if !Recognised(db.users, invite) then Fails(ReferrerUnknown)
      else Goes(tx.(payee := Referrer(db.users, invite), pc := Phone))
    case Phone =>
      if HasPhone(db.users, phone) then Fails(PhoneTaken)
      else Goes(tx.(locks := tx.locks + {PhoneKey(phone)}, pc := Code))
    case Code =>
      if HasCode(db.users, code) then Fails(CodeCollision)
      else Goes(tx.(locks := tx.locks + {CodeKey(code)}, ch := tx.ch.(uid := seqs.user),
                    frag := UserAdded(tx.frag, seqs.user, User(phone, code, tx.payee)), pc := OpenWallet))
    case OpenWallet =>
      Goes(tx.(locks := tx.locks + {WalletRow(tx.ch.uid)}, frag := WalletAdded(tx.frag, tx.ch.uid), pc := Grant))
    case Grant =>
      if tx.ch.uid !in tx.frag.wallets then Fails(NoWallet(tx.ch.uid)) else (
        match GrantError(tx.frag, tx.ch.uid, grant)
        case Some(e) => Fails(e)
        case None =>
          Goes(tx.(ch := tx.ch.(betId := seqs.row), frag := Granted(tx.frag, tx.ch.uid, grant, seqs.row), pc := Commit)))
    case _ => Commits
  }

  ghost function Exec(c: Config, tx: Tx, db: DB, seqs: Seqs, word: nat, entropy: bool): Outcome {
    match tx.op
    case SpinOp(_) => ExecSpin(c, tx, db, seqs, word, entropy)
    case TopUpOp(_, _, _, _) => ExecTopUp(tx, db, seqs)
    case RegisterOp(_, _, _, _) => ExecRegister(tx, db, seqs)
    case _ => ExecHolds(tx, db, seqs)
  }

  function Bump(seqs: Seqs, pc: Pc): Seqs {
    match pc
    case Insert => seqs.(spin := seqs.spin + 1)
    case Code => seqs.(user := seqs.user + 1)
    case _ => seqs.(row := seqs.row + 1)
  }

  /******* The machine *******/

  predicate HeldByOther(s: State, tid: nat, r: Resource) {
    exists t | t in s.txs :: t != tid && r in s.txs[t].locks
  }

  predicate Blocked(c: Config, s: State, tid: nat)
    requires tid in s.txs
  {
    var r := Wants(c, s.txs[tid], s.db);
    r.Some? && HeldByOther(s, tid, r.value)
  }

  ghost function Next(c: Config, s: State, l: Label): Option<State> {
    match l
    case Begin(tid, op) => if tid in s.txs then None else Some(s.(txs := s.txs[tid := Start(op)]))
    case Rollback(tid) => if tid !in s.txs then None else Some(s.(txs := s.txs - {tid}))
    case Forward(tid, word, entropy) =>
      if tid !in s.txs || Blocked(c, s, tid) then None else
      var tx := s.txs[tid];
      var seqs := Bump(s.seqs, tx.pc);
      match Exec(c, tx, s.db, s.seqs, word, entropy)
      case Goes(tx') => Some(s.(txs := s.txs[tid := tx'], seqs := seqs))
      case Fails(_) => Some(s.(txs := s.txs - {tid}, seqs := seqs))
      case Commits =>
        Some(State(Merge(s.db, tx.frag, tx.locks), s.seqs, s.txs - {tid}, s.log + [Entry(tx.op, tx.ch)]))
  }

  /** Where a sequence of labels leads, when each is possible in turn. */
  ghost function Run(c: Config, s: State, ls: seq<Label>): Option<State> {
    if ls == [] then Some(s) else
    match Run(c, s, ls[..|ls| - 1])
    case None => None
    case Some(t) => Next(c, t, ls[|ls| - 1])
  }
}

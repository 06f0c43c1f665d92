/** The tables a money transaction touches, with their CHECKs (internal/db/migrations/0001_init.sql). */
module Schema {
  import opened Basics

  datatype Wallet = Wallet(realCents: int, demoCents: int, heldCents: int) {
    /** The column a movement in the given realm applies to. */
    function Spendable(isReal: bool): int {
      if isReal then realCents else demoCents
    }

    function Credited(isReal: bool, delta: int): Wallet {
      if isReal then this.(realCents := realCents + delta) else this.(demoCents := demoCents + delta)
    }
  }

  datatype House = House(bankroll: int, rake: int)

  /** transactions.kind; Unset is Go's empty string, which Move refuses. */
  datatype Kind =
    | Unset | DemoGrant | Bet | Win | Deposit | Withdraw | WithdrawReversed | Referral | Adjustment

  /** One row of the ledger. */
  datatype Row = Row(id: nat, user: nat, kind: Kind, isReal: bool, amount: int, after: int, ref: Option<nat>)

  datatype SpinRow = SpinRow(
    user: nat, isReal: bool, stake: int, segment: nat, mult: int, payout: int, rake: int, clientRef: string)

  /** The immutable columns of a user; the top-up timestamp is kept apart. */
  datatype User = User(phone: string, code: string, referredBy: Option<nat>)

  /** The ledger is listed in the order its rows were committed. */
  datatype DB = DB(
    users: map<nat, User>,
    topups: map<nat, int>,        // users.demo_topup_at; absent while NULL
    wallets: map<nat, Wallet>,
    house: House,
    ledger: seq<Row>,
    spins: map<nat, SpinRow>)

  /** CONSTRAINT tx_realm_kinds, with the kind column's own list. */
  predicate RealmKind(kind: Kind, isReal: bool) {
    && kind != Unset
    && if isReal then kind != DemoGrant else kind in {DemoGrant, Bet, Win, Adjustment}
  }

  /** The CHECKs on a row of spins. */
  predicate SpinChecks(s: SpinRow) {
    && s.stake > 0 && 1 <= s.segment <= 12 && 0 <= s.mult <= MAX_INT32 && s.payout >= 0 && s.rake >= 0
    && s.payout == s.stake * s.mult / 10000
    && (s.isReal || s.rake == 0)
  }

  /** The unique index spins_client_ref would refuse another spin under this reference. */
  predicate Taken(spins: map<nat, SpinRow>, user: nat, clientRef: string) {
    exists k | k in spins :: spins[k].user == user && spins[k].clientRef == clientRef
  }

  datatype Error =
    | ZeroDelta | KindMissing | NoWallet(user: nat) | WalletInsufficient | OutOfRange | RecordRejected
    | BankrollExhausted | BadAmount | HoldCorrupt
    | StakeTooSmall(limit: int) | StakeTooLarge(limit: int) | UserNotFound | InsufficientFunds(limit: int)
    | StakeExceedsBank(limit: int) | EntropyUnavailable | FellThrough | DuplicateSpin
    | NotEligible | ReferrerUnknown | PhoneTaken | CodeCollision | CodesExhausted
}

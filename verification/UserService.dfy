/** The account transactions statement by statement (internal/users/users.go), and proof that they are the
    atomic ones. */
module UserService {
  import opened Basics
  import opened Schema
  import opened Movements
  import opened Transactions
  import opened Integrity
  import opened Machine
  import opened WalletStore

  const ATTEMPTS: nat := 5

  class Users {
    const pool: Database
    const demoGrant: int

    constructor (pool: Database, demoGrant: int)
      ensures this.pool == pool && this.demoGrant == demoGrant
    {
      this.pool, this.demoGrant := pool, demoGrant;
    }

    /** Claims the top-up in the UPDATE's WHERE clause, then tops up to the target. */
    method TopUpDemo(user: nat, now: int, cooldown: int, target: int) returns (r: Result<int, Error>)
      modifies pool
      ensures match AtomicTopUp(old(pool.committed), user, now, cooldown, target, old(pool.seqs.row))
              case Ok(after) => pool.committed == after && r == Ok(after.wallets[user].demoCents)
              case Err(e) => pool.committed == old(pool.committed) && r == Err(e)
    {
      var tx := new Transaction.Begin(pool);
      if user !in tx.users || (user in tx.topups && tx.topups[user] >= now - cooldown) {
        return Err(NotEligible);
      }
      tx.topups := tx.topups[user := now];
      assert tx.View() == Claimed(pool.committed, user, now);
      var balances := tx.Lock([user]);
      OnlyOne(user, tx.wallets);
      if balances.Err? {
        return Err(balances.error);
      }
      var delta := target - balances.value[user].demoCents;
      if delta <= 0 {
        tx.Commit();
        return Ok(balances.value[user].demoCents);
      }
      r := tx.Move(Move(user, DemoGrant, false, delta, None));
      if r.Ok? {
        tx.Commit();
      }
    }

    /** One registration attempt under a freshly drawn code. */
    method CreateOnce(phone: string, code: string, invite: Option<Invite>) returns (r: Result<nat, Error>)
      requires UniqueKeys(pool.committed)
      modifies pool
      ensures match Registered(old(pool.committed), old(pool.seqs), phone, code, invite, demoGrant)
              case Ok(after) => pool.committed == after && r == Ok(old(pool.seqs.user))
              case Err(e) => pool.committed == old(pool.committed) && r == Err(e)
      ensures r == Err(CodeCollision) ==> pool.seqs == old(pool.seqs).(user := old(pool.seqs.user) + 1)
    {
      var tx := new Transaction.Begin(pool);
      var referrer: Option<nat> := None;
      if invite.Some? {
        if !invite.value.active || !HasCode(tx.users, invite.value.code) {
          return Err(ReferrerUnknown);
        }
        var u :| u in tx.users && tx.users[u].code == invite.value.code;
        referrer := Some(u);
      }
      assert referrer == Referrer(tx.users, invite);
      hide Recognised, UniqueKeys, Referrer, HasPhone, HasCode;
      var uid := pool.seqs.user;
      pool.seqs := pool.seqs.(user := uid + 1);
      if HasPhone(tx.users, phone) {
        return Err(PhoneTaken);
      }
      if HasCode(tx.users, code) {
        return Err(CodeCollision);
      }
      tx.users := tx.users[uid := User(phone, code, referrer)];
      tx.wallets := tx.wallets[uid := Wallet(0, 0, 0)];
      assert tx.View() == WalletAdded(UserAdded(pool.committed, uid, User(phone, code, referrer)), uid);
      var refused := Grant(tx, uid);
      if refused.Some? {
        return Err(refused.value);
      }
      tx.Commit();
      return Ok(uid);
    }

    /** The welcome bonus, through Move like every other movement. */
    method Grant(tx: Transaction, uid: nat) returns (refused: Option<Error>)
      requires uid in tx.wallets
      modifies tx`wallets, tx`ledger, tx.pool`seqs
      ensures refused == GrantError(old(tx.View()), uid, demoGrant)
      ensures refused == None ==> tx.View() == Granted(old(tx.View()), uid, demoGrant, old(tx.pool.seqs.row))
      ensures tx.pool.seqs.user == old(tx.pool.seqs.user)
      ensures refused.Some? ==> refused != Some(CodeCollision)
    {
      if demoGrant <= 0 {
        return None;
      }
      var granted := tx.Move(Move(uid, DemoGrant, false, demoGrant, None));
      if granted.Err? {
        return Some(granted.error);
      }
      return None;
    }

    /** Registration with a retry for each collision of the referral code. */
    method Create(phone: string, codes: seq<string>, invite: Option<Invite>) returns (r: Result<nat, Error>, tries: nat)
      requires UniqueKeys(pool.committed) && |codes| == ATTEMPTS
      modifies pool
      ensures tries <= ATTEMPTS && forall i | 0 <= i < tries :: Collides(old(pool.committed), phone, codes[i], invite)
      ensures tries == ATTEMPTS ==> r == Err(CodesExhausted) && pool.committed == old(pool.committed)
      ensures tries < ATTEMPTS ==>
                && !Collides(old(pool.committed), phone, codes[tries], invite)
                && var seqs := old(pool.seqs).(user := old(pool.seqs.user) + tries);
                   match Registered(old(pool.committed), seqs, phone, codes[tries], invite, demoGrant)
                   case Ok(after) => pool.committed == after && r == Ok(seqs.user)
                   case Err(e) => pool.committed == old(pool.committed) && r == Err(e)
    {
      hide Registered, Collides;
      tries := 0;
      while tries < ATTEMPTS
        invariant tries <= ATTEMPTS && pool.committed == old(pool.committed)
        invariant pool.seqs == old(pool.seqs).(user := old(pool.seqs.user) + tries)
        invariant forall i | 0 <= i < tries :: Collides(old(pool.committed), phone, codes[i], invite)
      {
        CollidesExactly(pool.committed, pool.seqs, phone, codes[tries], invite, demoGrant);
        r := CreateOnce(phone, codes[tries], invite);
        if r != Err(CodeCollision) {
          return;
        }
        tries := tries + 1;
      }
      r := Err(CodesExhausted);
    }
  }

  /** The atomic registration with the ids the sequences give it. */
  ghost function Registered(
    db: DB, seqs: Seqs, phone: string, code: string, invite: Option<Invite>, grant: int): Result<DB, Error>
  {
    AtomicRegister(db, phone, code, invite, grant, seqs.user, seqs.row)
  }

  /** The attempt under this code is the one kind that is retried. */
  predicate Collides(db: DB, phone: string, code: string, invite: Option<Invite>) {
    && Recognised(db.users, invite)
    && !HasPhone(db.users, phone) && HasCode(db.users, code)
  }

  lemma CollidesExactly(
    db: DB, seqs: Seqs, phone: string, code: string, invite: Option<Invite>, grant: int)
    ensures Registered(db, seqs, phone, code, invite, grant) == Err(CodeCollision) <==>
            Collides(db, phone, code, invite)
  {
  }

  lemma OnlyOne(user: nat, wallets: map<nat, Wallet>)
    ensures FirstMissing([user], wallets) == if user in wallets then None else Some(user)
  {
    assert [user][1..] == [];
    assert FirstMissing([], wallets) == None;
  }
}

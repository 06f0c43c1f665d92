/** One open transaction and the statements of internal/wallet/wallet.go that run inside it. */
module WalletStore {
  import opened Basics
  import opened Schema
  import opened Movements
  import opened Machine

  /** The committed tables and the sequences, which a rollback does not rewind. */
  class Database {
    var committed: DB
    var seqs: Seqs

    constructor (db: DB, seqs: Seqs)
      ensures committed == db && this.seqs == seqs
    {
      committed, this.seqs := db, seqs;
    }
  }

  /******* SELECT ... WHERE user_id = ANY(ids) ORDER BY user_id *******/

  predicate StrictlyAscending(s: seq<nat>) {
    forall i, j | 0 <= i < j < |s| :: s[i] < s[j]
  }

  function Inserted(s: seq<nat>, x: nat): (r: seq<nat>)
    requires StrictlyAscending(s)
    ensures StrictlyAscending(r)
    ensures forall y :: y in r <==> y in s || y == x
  {
    if s == [] || x < s[0] then [x] + s
    else if x == s[0] then s
    else
      var rest := Inserted(s[1..], x);
      assert forall y | y in s[1..] :: s[0] < y;
      Prepend(s[0], rest);
      [s[0]] + rest
  }

  lemma Prepend(x: nat, rest: seq<nat>)
    requires StrictlyAscending(rest) && forall y | y in rest :: x < y
    ensures StrictlyAscending([x] + rest)
  {
    var s := [x] + rest;
    forall i, j | 0 <= i < j < |s| ensures s[i] < s[j] {
      assert s[j] == rest[j - 1] && rest[j - 1] in rest;
      if i > 0 {
        assert s[i] == rest[i - 1];
      }
    }
  }

  /** The rows the query returns: those of the ids that exist, each once, in ascending order. */
  function InOrder(ids: seq<nat>, wallets: map<nat, Wallet>): (r: seq<nat>)
    ensures StrictlyAscending(r)
    ensures forall x :: x in r <==> x in ids && x in wallets
  {
    if ids == [] then [] else
      var last := ids[|ids| - 1];
      var rest := InOrder(ids[..|ids| - 1], wallets);
      if last in wallets then Inserted(rest, last) else rest
  }

  function WalletRows(ids: seq<nat>): seq<Resource> {
    seq(|ids|, i requires 0 <= i < |ids| => WalletRow(ids[i]))
  }

  /** What Lock answers: the balances, or the first name without a wallet. */
  function Locked(ids: seq<nat>, wallets: map<nat, Wallet>): (r: Result<map<nat, Wallet>, Error>)
    ensures r.Ok? <==> forall id | id in ids :: id in wallets
    ensures r.Ok? ==> (forall id :: id in r.value <==> id in ids) && forall id | id in ids :: r.value[id] == wallets[id]
    ensures r.Err? ==> r.error.NoWallet? && FirstWithout(ids, wallets, r.error.user)
  {
    var missing := FirstMissing(ids, wallets);
    if missing.Some? then Err(NoWallet(missing.value))
    else Ok(Picked(ids, wallets))
  }

  function Picked(ids: seq<nat>, wallets: map<nat, Wallet>): map<nat, Wallet> {
    map id | id in ids && id in wallets :: wallets[id]
  }

  /** It is named, has no wallet, and everybody named before it has one. */
  predicate FirstWithout(ids: seq<nat>, wallets: map<nat, Wallet>, id: nat) {
    exists i | 0 <= i < |ids| :: ids[i] == id && id !in wallets && forall j | 0 <= j < i :: ids[j] in wallets
  }

  function FirstMissing(ids: seq<nat>, wallets: map<nat, Wallet>): (m: Option<nat>)
    ensures m == None <==> forall id | id in ids :: id in wallets
    ensures m.Some? ==> FirstWithout(ids, wallets, m.value)
  {
    FirstLater(ids, wallets);
    if ids == [] then None
    else if ids[0] !in wallets then Some(ids[0])
    else FirstMissing(ids[1..], wallets)
  }

  lemma FirstLater(ids: seq<nat>, wallets: map<nat, Wallet>)
    ensures forall id | ids != [] && ids[0] in wallets && FirstWithout(ids[1..], wallets, id) ::
              FirstWithout(ids, wallets, id)
  {
    forall id | ids != [] && ids[0] in wallets && FirstWithout(ids[1..], wallets, id) ensures FirstWithout(ids, wallets, id) {
      var rest := ids[1..];
      var i :| 0 <= i < |rest| && rest[i] == id && id !in wallets && forall j | 0 <= j < i :: rest[j] in wallets;
      assert forall j | 0 < j < i + 1 :: ids[j] == rest[j - 1];
      assert ids[i + 1] == id;
    }
  }

  lemma PickOne(ids: seq<nat>, id: nat, wallets: map<nat, Wallet>)
    requires id in wallets
    ensures Picked(ids + [id], wallets) == Picked(ids, wallets)[id := wallets[id]]
  {
  }

  /** For a player and a payee the ascending order is the one the concurrent machine locks in. */
  lemma LocksInMachineOrder(user: nat, payee: Option<nat>, wallets: map<nat, Wallet>)
    requires user in wallets && (payee.Some? ==> payee.value in wallets && payee.value != user)
    ensures InOrder([user] + (if payee.Some? then [payee.value] else []), wallets) == LockIds(user, payee)
  {
    var ids := [user] + if payee.Some? then [payee.value] else [];
    assert ids[..|ids| - 1] == if payee.Some? then [user] else [];
    assert [user][..0] == [];
    assert InOrder([user], wallets) == Inserted([], user) by { assert InOrder([user][..0], wallets) == []; }
    assert Inserted([], user) == [user];
    if payee.Some? {
      assert [user][1..] == [];
      assert Inserted([], payee.value) == [payee.value];
    }
  }

  /** An open transaction: its own version of the tables, and the row locks in the order it took them. */
  class Transaction {
    const pool: Database
    var users: map<nat, User>
    var topups: map<nat, int>
    var wallets: map<nat, Wallet>
    var house: House
    var ledger: seq<Row>
    var spins: map<nat, SpinRow>
    var locks: seq<Resource>

    function View(): DB
      reads this
    {
      DB(users, topups, wallets, house, ledger, spins)
    }

    constructor Begin(pool: Database)
      ensures this.pool == pool && View() == pool.committed && locks == []
    {
      this.pool := pool;
      users, topups, wallets := pool.committed.users, pool.committed.topups, pool.committed.wallets;
      house, ledger, spins := pool.committed.house, pool.committed.ledger, pool.committed.spins;
      locks := [];
    }

    method Commit()
      modifies pool`committed
      ensures pool.committed == View()
    {
      pool.committed := View();
    }

    method NextRowId() returns (id: nat)
      modifies pool`seqs
      ensures id == old(pool.seqs.row) && pool.seqs == old(pool.seqs).(row := id + 1)
    {
      id := pool.seqs.row;
      pool.seqs := pool.seqs.(row := id + 1);
    }

    /** UPDATE wallets SET column = column + delta, then the ledger row with the balance it returned. */
    method Move(m: Move) returns (r: Result<int, Error>)
      modifies this`wallets, this`ledger, pool`seqs
      ensures MoveError(old(View()), m) == match r { case Ok(_) => None case Err(e) => Some(e) }
      ensures r.Ok? ==>
                && m.user in old(wallets)
                && View() == Moved(old(View()), m, old(pool.seqs.row))
                && r.value == wallets[m.user].Spendable(m.isReal)
                && pool.seqs == old(pool.seqs).(row := old(pool.seqs.row) + 1)
      ensures old(pool.seqs.row) <= pool.seqs.row && pool.seqs.spin == old(pool.seqs.spin) && pool.seqs.user == old(pool.seqs.user)
    {
      if m.delta == 0 {
        return Err(ZeroDelta);
      }
      if m.kind == Unset {
        return Err(KindMissing);
      }
      if m.user !in wallets {
        return Err(NoWallet(m.user));
      }
      var w := wallets[m.user].Credited(m.isReal, m.delta);
      var after := w.Spendable(m.isReal);
      if !IsInt64(after) {
        return Err(OutOfRange);
      }
      if after < 0 {
        return Err(WalletInsufficient);
      }
      wallets := wallets[m.user := w];
      var id := NextRowId();
      if !RealmKind(m.kind, m.isReal) {
        return Err(RecordRejected);
      }
      ledger := ledger + [Row(id, m.user, m.kind, m.isReal, m.delta, after, m.ref)];
      return Ok(after);
    }

    /** SELECT ... ORDER BY user_id FOR UPDATE, scanned row by row into a map; then every name is looked up. */
    method Lock(ids: seq<nat>) returns (r: Result<map<nat, Wallet>, Error>)
      modifies this`locks
      ensures r == Locked(ids, wallets)
      ensures locks == old(locks) + WalletRows(InOrder(ids, wallets))
    {
      if |ids| == 0 {
        assert WalletRows([]) == [];
        return Ok(map[]);
      }
      var rows := InOrder(ids, wallets);
      var out: map<nat, Wallet> := map[];
      for i := 0 to |rows|
        invariant out == Picked(rows[..i], wallets)
        invariant locks == old(locks) + WalletRows(rows[..i])
      {
        assert rows[..i + 1] == rows[..i] + [rows[i]];
        assert WalletRows(rows[..i + 1]) == WalletRows(rows[..i]) + [WalletRow(rows[i])];
        locks := locks + [WalletRow(rows[i])];
        PickOne(rows[..i], rows[i], wallets);
        out := out[rows[i] := wallets[rows[i]]];
      }
      assert rows[..|rows|] == rows;
      assert out == Picked(ids, wallets);
      r := Check(ids, out);
    }

    /** The last loop of Lock: every name must have come back. */
    method Check(ids: seq<nat>, out: map<nat, Wallet>) returns (r: Result<map<nat, Wallet>, Error>)
      requires out == Picked(ids, wallets)
      ensures r == Locked(ids, wallets)
    {
      for i := 0 to |ids|
        invariant FirstMissing(ids, wallets) == FirstMissing(ids[i..], wallets)
      {
        if ids[i] !in out {
          return Err(NoWallet(ids[i]));
        }
      }
      return Ok(out);
    }

    method HouseLock() returns (h: House)
      modifies this`locks
      ensures h == house && locks == old(locks) + [HouseRow]
    {
      locks := locks + [HouseRow];
      return house;
    }

    method MoveHouse(bankrollDelta: int, rakeDelta: int) returns (r: Result<House, Error>)
      modifies this`house
      ensures HouseError(old(house), bankrollDelta, rakeDelta) == match r { case Ok(_) => None case Err(e) => Some(e) }
      ensures r.Ok? <==>
                && 0 <= old(house).bankroll + bankrollDelta <= MAX_INT64 && 0 <= old(house).rake + rakeDelta <= MAX_INT64
      ensures r.Ok? ==> house == House(old(house).bankroll + bankrollDelta, old(house).rake + rakeDelta)
      ensures r.Ok? ==> r.value == house && View() == HouseMoved(old(View()), bankrollDelta, rakeDelta)
      ensures r.Err? ==> View() == old(View())
    {
      var next := House(house.bankroll + bankrollDelta, house.rake + rakeDelta);
      if !IsInt64(next.bankroll) || !IsInt64(next.rake) {
        return Err(OutOfRange);
      }
      if next.bankroll < 0 || next.rake < 0 {
        return Err(BankrollExhausted);
      }
      house := next;
      return Ok(house);
    }

    /** UPDATE wallets SET held_cents = held_cents + delta; no row is no error. */
    method ChangeHeld(user: nat, delta: int) returns (error: Option<Error>)
      modifies this`wallets
      ensures error == if user !in old(wallets) then None
                       else if !IsInt64(old(wallets)[user].heldCents + delta) then Some(OutOfRange)
                       else if old(wallets)[user].heldCents + delta < 0 then Some(HoldCorrupt) else None
      ensures View() == if error == None then HeldChanged(old(View()), user, delta) else old(View())
    {
      if user !in wallets {
        return None;
      }
      var held := wallets[user].heldCents + delta;
      if !IsInt64(held) {
        return Some(OutOfRange);
      }
      if held < 0 {
        return Some(HoldCorrupt);
      }
      wallets := wallets[user := wallets[user].(heldCents := held)];
      return None;
    }

    method Hold(user: nat, amount: int, withdrawal: Option<nat>) returns (r: Result<int, Error>)
      requires user in wallets ==> wallets[user].heldCents >= 0
      modifies this`wallets, this`ledger, pool`seqs
      ensures HoldError(old(View()), user, amount, withdrawal) == match r { case Ok(_) => None case Err(e) => Some(e) }
      ensures r.Ok? ==>
                && user in old(wallets)
                && View() == Held(old(View()), user, amount, withdrawal, old(pool.seqs.row))
                && r.value == wallets[user].realCents
    {
      if amount <= 0 {
        return Err(BadAmount);
      }
      r := Move(HoldMove(user, amount, withdrawal));
      if r.Err? {
        return;
      }
      var error := ChangeHeld(user, amount);
      if error.Some? {
        return Err(error.value);
      }
    }

    method ReleaseHold(user: nat, amount: int) returns (error: Option<Error>)
      modifies this`wallets
      ensures error == ReleaseError(old(View()), user, amount)
      ensures View() == if error == None then Released(old(View()), user, amount) else old(View())
    {
      if amount <= 0 {
        return Some(BadAmount);
      }
      error := ChangeHeld(user, -amount);
    }

    method ReverseHold(user: nat, amount: int, withdrawal: Option<nat>) returns (r: Result<int, Error>)
      modifies this`wallets, this`ledger, pool`seqs
      ensures ReverseError(old(View()), user, amount, withdrawal) == match r { case Ok(_) => None case Err(e) => Some(e) }
      ensures r.Ok? ==>
                && user in old(wallets)
                && View() == Reversed(old(View()), user, amount, withdrawal, old(pool.seqs.row))
                && r.value == wallets[user].realCents
    {
      var error := ReleaseHold(user, amount);
      if error.Some? {
        return Err(error.value);
      }
      r := Move(ReverseMove(user, amount, withdrawal));
    }
  }
}

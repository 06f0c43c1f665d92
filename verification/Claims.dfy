/** What a player has claimed or put on hold, over whole runs: demo top-ups are spaced by their cooldown, and the
    held money is exactly what was held and not yet released or reversed. */
module Claims {
  import opened Basics
  import opened Schema
  import opened Movements
  import opened Spin
  import opened Transactions
  import opened Integrity
  import opened Machine
  import opened Engine
  import opened MapSums
  import opened Books

  /******* TopUpDemo's cooldown *******/

  predicate ToppedUpBy(e: Entry, user: nat) {
    e.op.TopUpOp? && e.op.user == user
  }

  predicate CooldownsPositive(log: seq<Entry>) {
    forall e | e in log && e.op.TopUpOp? :: e.op.cooldown >= 0
  }

  lemma TopUpsAfter(c: Config, db: DB, op: Op, ch: Choices)
    requires Atomic(c, db, op, true, ch).Ok?
    ensures op.TopUpOp? ==> Eligible(db, op.user, op.now, op.cooldown)
    ensures Atomic(c, db, op, true, ch).value.topups == if op.TopUpOp? then db.topups[op.user := op.now] else db.topups
  {
    if op.SpinOp? {
      var p := MakePlan(c, op.req, Payee(c, db.users, op.req), ch.word);
      assert AfterRef(db, op.req, p, ch).topups == db.topups;
    }
  }

  /** The player has claimed a top-up at that time or later. */
  predicate Remembers(db: DB, user: nat, at: int) {
    user in db.topups && at <= db.topups[user]
  }

  lemma ClaimMade(c: Config, db: DB, op: Op, ch: Choices, after: DB)
    requires Atomic(c, db, op, true, ch) == Ok(after) && op.TopUpOp?
    ensures Remembers(after, op.user, op.now)
  {
    hide Atomic;
    TopUpsAfter(c, db, op, ch);
  }

  lemma ClaimKept(c: Config, db: DB, op: Op, ch: Choices, after: DB, user: nat, at: int)
    requires Atomic(c, db, op, true, ch) == Ok(after) && (op.TopUpOp? ==> op.cooldown >= 0) && Remembers(db, user, at)
    ensures Remembers(after, user, at)
  {
    hide Atomic;
    TopUpsAfter(c, db, op, ch);
  }

  lemma EarlierClaims(log: seq<Entry>, i: nat, user: nat)
    requires i < |log| && ToppedUpBy(log[i], user) && CooldownsPositive(log)
    ensures CooldownsPositive(log[..|log| - 1]) && log[i].op.TopUpOp? && log[i].op.user == user
    ensures log[|log| - 1].op.TopUpOp? ==> log[|log| - 1].op.cooldown >= 0
    ensures i < |log| - 1 ==> ToppedUpBy(log[..|log| - 1][i], user) && log[..|log| - 1][i] == log[i]
  {
    assert log[|log| - 1] in log;
  }

  lemma {:induction false} ClaimRemembered(c: Config, db: DB, log: seq<Entry>, i: nat, user: nat, d: DB)
    requires i < |log| && ToppedUpBy(log[i], user) && CooldownsPositive(log) && SerialRun(c, db, log) == Some(d)
    ensures log[i].op.TopUpOp? && Remembers(d, user, log[i].op.now)
  {
    hide *;
    var before, e := log[..|log| - 1], log[|log| - 1];
    EarlierClaims(log, i, user);
    LastStep(c, db, log);
    var b := SerialRun(c, db, before).value;
    if i < |before| {
      ClaimRemembered(c, db, before, i, user, b);
      ClaimKept(c, b, e.op, e.ch, d, user, log[i].op.now);
    } else {
      ClaimMade(c, b, e.op, e.ch, d);
    }
  }

  lemma {:induction false} SerialPrefix(c: Config, db: DB, log: seq<Entry>, i: nat)
    requires i <= |log| && SerialRun(c, db, log).Some?
    ensures SerialRun(c, db, log[..i]).Some?
  {
    if i < |log| {
      SerialPrefix(c, db, log[..|log| - 1], i);
      assert log[..|log| - 1][..i] == log[..i];
    } else {
      assert log[..i] == log;
    }
  }

  /** Over any interleaving, two top-ups of one player are further apart than the later one's cooldown. */
  lemma TopUpsAreSpaced(c: Config, s0: State, ls: seq<Label>, i: nat, j: nat, user: nat)
    requires ValidConfig(c) && Initial(s0) && Run(c, s0, ls).Some?
    requires var log := Run(c, s0, ls).value.log;
             && CooldownsPositive(log) && i < j < |log| && ToppedUpBy(log[i], user) && ToppedUpBy(log[j], user)
    ensures var log := Run(c, s0, ls).value.log;
            log[i].op.TopUpOp? && log[j].op.TopUpOp? && log[i].op.now < log[j].op.now - log[j].op.cooldown
  {
    hide *;
    Serialisable(c, s0, ls);
    SerialTopUps(c, s0.db, Run(c, s0, ls).value.log, i, j, user);
  }

  lemma SerialTopUps(c: Config, db: DB, log: seq<Entry>, i: nat, j: nat, user: nat)
    requires SerialRun(c, db, log).Some? && CooldownsPositive(log) && i < j < |log|
    requires ToppedUpBy(log[i], user) && ToppedUpBy(log[j], user)
    ensures log[i].op.TopUpOp? && log[j].op.TopUpOp? && log[i].op.now < log[j].op.now - log[j].op.cooldown
  {
    var before, upto := log[..j], log[..j + 1];
    assert upto[..j] == before && upto[j] == log[j] && before[i] == log[i];
    assert CooldownsPositive(before);
    hide SerialRun, Atomic, CooldownsPositive;
    SerialPrefix(c, db, log, j + 1);
    LastStep(c, db, upto);
    var d := SerialRun(c, db, before).value;
    ClaimRemembered(c, db, before, i, user, d);
    TopUpsAfter(c, d, log[j].op, log[j].ch);
  }

  lemma LastStep(c: Config, db: DB, log: seq<Entry>)
    requires log != [] && SerialRun(c, db, log).Some?
    ensures var before, e := log[..|log| - 1], log[|log| - 1];
            && SerialRun(c, db, before).Some?
            && Atomic(c, SerialRun(c, db, before).value, e.op, true, e.ch) == Ok(SerialRun(c, db, log).value)
  {
    hide Atomic;
  }

  /******* Held money *******/

  ghost function HeldMoney(w: map<nat, Wallet>): map<nat, int> {
    map u | u in w :: w[u].heldCents
  }

  ghost function TotalHeld(db: DB): int {
    MapSum(HeldMoney(db.wallets))
  }

  /** What an operation adds to the open holds. */
  function OpenedBy(op: Op): int {
    match op
    case HoldOp(_, amount, _) => amount
    case ReleaseOp(_, amount) => -amount
    case ReverseOp(_, amount, _) => -amount
    case _ => 0
  }

  function OpenHolds(log: seq<Entry>): int {
    if log == [] then 0 else OpenHolds(log[..|log| - 1]) + OpenedBy(log[|log| - 1].op)
  }

  lemma HeldOnly(db: DB, user: nat, delta: int)
    requires user in db.wallets
    ensures TotalHeld(HeldChanged(db, user, delta)) == TotalHeld(db) + delta
  {
    var held := db.wallets[user].heldCents + delta;
    MapSumPut(HeldMoney(db.wallets), user, held);
    assert HeldMoney(HeldChanged(db, user, delta).wallets) == HeldMoney(db.wallets)[user := held];
  }

  lemma MoveHoldsStill(db: DB, m: Move, id: nat)
    requires m.user in db.wallets
    ensures TotalHeld(Moved(db, m, id)) == TotalHeld(db)
  {
    assert HeldMoney(Moved(db, m, id).wallets) == HeldMoney(db.wallets);
  }

  lemma SpinHoldsStill(db: DB, after: DB, req: Request, p: Plan, ch: Choices)
    requires RowsPresent(db, req, p) && PlanApplied(db, after, req, p, ch)
    ensures TotalHeld(after) == TotalHeld(db)
  {
    assert HeldMoney(after.wallets) == HeldMoney(db.wallets);
  }

  lemma RegisterHoldsStill(db: DB, uid: nat, user: User)
    requires uid !in db.wallets
    ensures TotalHeld(WalletAdded(UserAdded(db, uid, user), uid)) == TotalHeld(db)
  {
    MapSumPut(HeldMoney(db.wallets), uid, 0);
    assert HeldMoney(WalletAdded(UserAdded(db, uid, user), uid).wallets) == HeldMoney(db.wallets)[uid := 0];
  }

  lemma SpinHeld(c: Config, db: DB, req: Request, ch: Choices)
    requires ValidConfig(c) && Solvent(db) && AtomicSpin(c, db, req, true, ch).Ok?
    ensures TotalHeld(AtomicSpin(c, db, req, true, ch).value.0) == TotalHeld(db)
  {
    assert req.user in db.users;
    hide *;
    SpinEffect(c, db, req, ch);
    var p := MakePlan(c, req, Payee(c, db.users, req), ch.word);
    AdmittedRows(db, req, p);
    SpinHoldsStill(db, AtomicSpin(c, db, req, true, ch).value.0, req, p, ch);
  }

  lemma AdmittedRows(db: DB, req: Request, p: Plan)
    requires Admitted(db, req, p)
    ensures RowsPresent(db, req, p)
  {
  }

  lemma RegisterHeld(db: DB, phone: string, code: string, invite: Option<Invite>, grant: int, uid: nat, id: nat)
    requires uid !in db.wallets && AtomicRegister(db, phone, code, invite, grant, uid, id).Ok?
    ensures TotalHeld(AtomicRegister(db, phone, code, invite, grant, uid, id).value) == TotalHeld(db)
  {
    var user := User(phone, code, Referrer(db.users, invite));
    RegisterHoldsStill(db, uid, user);
    MoveHoldsStill(WalletAdded(UserAdded(db, uid, user), uid), GrantMove(uid, grant), id);
  }

  lemma AtomicHeld(c: Config, db: DB, op: Op, ch: Choices)
    requires ValidConfig(c) && Solvent(db) && FreshFor(c, db, op, ch) && Atomic(c, db, op, true, ch).Ok?
    ensures TotalHeld(Atomic(c, db, op, true, ch).value) == TotalHeld(db) + OpenedBy(op)
  {
    match op
    case SpinOp(req) => SpinHeld(c, db, req, ch);
    case TopUpOp(user, now, _, target) =>
      var claimed := Claimed(db, user, now);
      assert TotalHeld(claimed) == TotalHeld(db);
      MoveHoldsStill(claimed, GrantMove(user, TopUpDelta(claimed, user, target)), ch.betId);
    case HoldOp(user, amount, withdrawal) =>
      MoveHoldsStill(db, HoldMove(user, amount, withdrawal), ch.betId);
      HeldOnly(Moved(db, HoldMove(user, amount, withdrawal), ch.betId), user, amount);
    case ReleaseOp(user, amount) => HeldOnly(db, user, -amount);
    case ReverseOp(user, amount, withdrawal) =>
      HeldOnly(db, user, -amount);
      MoveHoldsStill(Released(db, user, amount), ReverseMove(user, amount, withdrawal), ch.betId);
    case RegisterOp(phone, code, invite, grant) =>
      RegisterHeld(db, phone, code, invite, grant, ch.uid, ch.betId);
  }

  lemma {:induction false} SerialHeld(c: Config, db: DB, log: seq<Entry>)
    requires ValidConfig(c) && GoodDB(db) && SerialRun(c, db, log).Some?
    ensures TotalHeld(SerialRun(c, db, log).value) == TotalHeld(db) + OpenHolds(log)
  {
    if log != [] {
      var before, e := log[..|log| - 1], log[|log| - 1];
      SerialStaysGood(c, db, before);
      SerialHeld(c, db, before);
      AtomicHeld(c, SerialRun(c, db, before).value, e.op, e.ch);
    }
  }

  /** Over any interleaving, the money held is what the committed holds opened and nothing has resolved. */
  lemma HeldMoneyIsOpenHolds(c: Config, s0: State, ls: seq<Label>)
    requires ValidConfig(c) && Initial(s0) && Run(c, s0, ls).Some?
    ensures TotalHeld(Run(c, s0, ls).value.db) == TotalHeld(s0.db) + OpenHolds(Run(c, s0, ls).value.log)
  {
    Serialisable(c, s0, ls);
    SerialHeld(c, s0.db, Run(c, s0, ls).value.log);
  }

  /******* Player by player *******/

  function HeldOf(db: DB, user: nat): int {
    if user in db.wallets then db.wallets[user].heldCents else 0
  }

  /** What an operation adds to one player's open holds. */
  function OpenedFor(op: Op, user: nat): int {
    if (op.HoldOp? || op.ReleaseOp? || op.ReverseOp?) && op.user == user then OpenedBy(op) else 0
  }

  function OpenHoldsOf(log: seq<Entry>, user: nat): int {
    if log == [] then 0 else OpenHoldsOf(log[..|log| - 1], user) + OpenedFor(log[|log| - 1].op, user)
  }

  lemma SpinHeldOf(c: Config, db: DB, req: Request, ch: Choices, user: nat)
    requires ValidConfig(c) && Solvent(db) && AtomicSpin(c, db, req, true, ch).Ok?
    ensures HeldOf(AtomicSpin(c, db, req, true, ch).value.0, user) == HeldOf(db, user)
  {
    SpinEffect(c, db, req, ch);
    hide AtomicSpin, MakePlan, AfterRef, Solvent, ValidConfig, SpinRows;
  }

  lemma AtomicHeldOf(c: Config, db: DB, op: Op, ch: Choices, user: nat)
    requires ValidConfig(c) && Solvent(db) && FreshFor(c, db, op, ch) && Atomic(c, db, op, true, ch).Ok?
    ensures HeldOf(Atomic(c, db, op, true, ch).value, user) == HeldOf(db, user) + OpenedFor(op, user)
    ensures OpenedFor(op, user) != 0 ==> op.amount > 0
  {
    if op.SpinOp? {
      hide ValidConfig, Solvent, AtomicSpin, FreshFor;
      SpinHeldOf(c, db, op.req, ch, user);
    }
  }

  lemma {:induction false} SerialHeldOf(c: Config, db: DB, log: seq<Entry>, user: nat)
    requires ValidConfig(c) && GoodDB(db) && SerialRun(c, db, log).Some?
    ensures HeldOf(SerialRun(c, db, log).value, user) == HeldOf(db, user) + OpenHoldsOf(log, user)
  {
    if log != [] {
      var before, e := log[..|log| - 1], log[|log| - 1];
      LastStep(c, db, log);
      SerialStaysGood(c, db, before);
      SerialHeldOf(c, db, before, user);
      var d := SerialRun(c, db, before).value;
      assert Solvent(d) && FreshFor(c, d, e.op, e.ch);
      hide GoodDB, Solvent, FreshFor, Atomic, ValidConfig, HeldOf;
      AtomicHeldOf(c, d, e.op, e.ch, user);
    }
  }

  /** Over any interleaving, each player's held money is what that player's committed holds opened and nothing has
      resolved. */
  lemma HeldMoneyOfPlayer(c: Config, s0: State, ls: seq<Label>, user: nat)
    requires ValidConfig(c) && Initial(s0) && Run(c, s0, ls).Some?
    ensures HeldOf(Run(c, s0, ls).value.db, user) ==
            HeldOf(s0.db, user) + OpenHoldsOf(Run(c, s0, ls).value.log, user)
  {
    Serialisable(c, s0, ls);
    SerialHeldOf(c, s0.db, Run(c, s0, ls).value.log, user);
  }

  /******* Every hold resolved at most once *******/

  predicate Resolves(op: Op, user: nat) {
    (op.ReleaseOp? || op.ReverseOp?) && op.user == user
  }

  /** The player's holds still open after a log, by their place in it, when the resolution at place i is of the hold at
      place of[i]. */
  function OpenOnes(log: seq<Entry>, of: seq<nat>, user: nat): map<nat, int>
    requires |of| == |log|
  {
    if log == [] then map[] else
      var last := |log| - 1;
      var open := OpenOnes(log[..last], of[..last], user);
      if log[last].op.HoldOp? && log[last].op.user == user then open[last := log[last].op.amount]
      else if Resolves(log[last].op, user) then open - {of[last]}
      else open
  }

  /** Each release or reversal of the player's is of a hold that is open at that moment, for its whole amount: what a
      caller does that moves each withdrawal to one final state. */
  ghost predicate Disciplined(log: seq<Entry>, of: seq<nat>, user: nat)
    requires |of| == |log|
  {
    forall i | 0 <= i < |log| && Resolves(log[i].op, user) :: Matches(log, of, user, i)
  }

  predicate Matches(log: seq<Entry>, of: seq<nat>, user: nat, i: nat)
    requires |of| == |log| && i < |log| && Resolves(log[i].op, user)
  {
    var open := OpenOnes(log[..i], of[..i], user);
    of[i] in open && open[of[i]] == log[i].op.amount
  }

  lemma EarlierDiscipline(log: seq<Entry>, of: seq<nat>, user: nat)
    requires |of| == |log| > 0 && Disciplined(log, of, user)
    ensures Disciplined(log[..|log| - 1], of[..|log| - 1], user)
  {
    var before, of' := log[..|log| - 1], of[..|log| - 1];
    forall i | 0 <= i < |before| && Resolves(before[i].op, user) ensures Matches(before, of', user, i) {
      assert before[..i] == log[..i] && of'[..i] == of[..i];
      assert Matches(log, of, user, i);
    }
  }

  lemma {:induction false} OnlyPlaces(log: seq<Entry>, of: seq<nat>, user: nat)
    requires |of| == |log|
    ensures forall k | k in OpenOnes(log, of, user) :: k < |log|
  {
    if log != [] {
      OnlyPlaces(log[..|log| - 1], of[..|log| - 1], user);
    }
  }

  /** The open ones add up to the open holds. */
  lemma {:induction false} OpenOnesAddUp(log: seq<Entry>, of: seq<nat>, user: nat)
    requires |of| == |log| && Disciplined(log, of, user)
    ensures MapSum(OpenOnes(log, of, user)) == OpenHoldsOf(log, user)
  {
    if log != [] {
      var last := |log| - 1;
      var open := OpenOnes(log[..last], of[..last], user);
      EarlierDiscipline(log, of, user);
      OpenOnesAddUp(log[..last], of[..last], user);
      OnlyPlaces(log[..last], of[..last], user);
      if log[last].op.HoldOp? && log[last].op.user == user {
        MapSumPut(open, last, log[last].op.amount);
      } else if Resolves(log[last].op, user) {
        assert Matches(log, of, user, last);
        MapSumRemove(open, of[last]);
      }
    }
  }

  lemma {:induction false} OpenOnesPositive(c: Config, db: DB, log: seq<Entry>, of: seq<nat>, user: nat)
    requires SerialRun(c, db, log).Some? && |of| == |log|
    ensures forall k | k in OpenOnes(log, of, user) :: OpenOnes(log, of, user)[k] > 0
  {
    if log != [] {
      var before := log[..|log| - 1];
      LastStep(c, db, log);
      OpenOnesPositive(c, db, before, of[..|log| - 1], user);
      HoldsArePositive(c, SerialRun(c, db, before).value, log[|log| - 1].op, log[|log| - 1].ch);
      hide SerialRun, Atomic;
    }
  }

  lemma HoldsArePositive(c: Config, db: DB, op: Op, ch: Choices)
    requires Atomic(c, db, op, true, ch).Ok?
    ensures op.HoldOp? ==> op.amount > 0
  {
  }

  lemma {:induction false} PositiveSum(m: map<nat, int>)
    requires forall k | k in m :: m[k] > 0
    ensures MapSum(m) >= 0
    decreases |m|
  {
    if m != map[] {
      var k :| k in m;
      PositiveSum(m - {k});
      MapSumRemove(m, k);
    }
  }

  /** While every hold is resolved at most once, releasing or reversing an open one is never refused as corrupt: a release
      goes through, and a reversal fails only if the balance leaves its bigint. */
  lemma HoldCorruptUnreachable(c: Config, s0: State, ls: seq<Label>, user: nat, of: seq<nat>, hold: nat, withdrawal: Option<nat>)
    requires ValidConfig(c) && Initial(s0) && Run(c, s0, ls).Some?
    requires var log := Run(c, s0, ls).value.log;
             |of| == |log| && Disciplined(log, of, user) && hold in OpenOnes(log, of, user)
    ensures var db, amount := Run(c, s0, ls).value.db, OpenOnes(Run(c, s0, ls).value.log, of, user)[hold];
            && user in db.wallets
            && ReleaseError(db, user, amount) == None
            && ReverseError(db, user, amount, withdrawal) ==
               if IsInt64(db.wallets[user].realCents + amount) then None else Some(OutOfRange)
  {
    hide *;
    StartsGood(s0);
    Serialisable(c, s0, ls);
    ReleaseAllowed(c, s0.db, Run(c, s0, ls).value.db, Run(c, s0, ls).value.log, user, of, hold, withdrawal);
  }

  lemma ReleaseAllowed(
    c: Config, start: DB, db: DB, log: seq<Entry>, user: nat, of: seq<nat>, hold: nat, withdrawal: Option<nat>)
    requires ValidConfig(c) && GoodDB(start) && SerialRun(c, start, log) == Some(db)
    requires |of| == |log| && Disciplined(log, of, user) && hold in OpenOnes(log, of, user)
    ensures var amount := OpenOnes(log, of, user)[hold];
            && user in db.wallets
            && ReleaseError(db, user, amount) == None
            && ReverseError(db, user, amount, withdrawal) ==
               if IsInt64(db.wallets[user].realCents + amount) then None else Some(OutOfRange)
  {
    hide *;
    SerialStaysGood(c, start, log);
    SerialHeldOf(c, start, log, user);
    HeldEnough(c, start, log, of, user, hold);
    HeldNotNegative(start, user);
    ReleaseOpens(db, user, OpenOnes(log, of, user)[hold], withdrawal);
  }

  lemma HeldNotNegative(db: DB, user: nat)
    requires GoodDB(db)
    ensures HeldOf(db, user) >= 0
  {
    hide I1, I3, I6, I7, RefsExist, OwnersExist, UniqueKeys;
  }

  lemma HeldEnough(c: Config, db: DB, log: seq<Entry>, of: seq<nat>, user: nat, hold: nat)
    requires SerialRun(c, db, log).Some? && |of| == |log| && Disciplined(log, of, user) && hold in OpenOnes(log, of, user)
    ensures 0 < OpenOnes(log, of, user)[hold] <= OpenHoldsOf(log, user)
  {
    hide SerialRun, Disciplined, OpenOnes, OpenHoldsOf;
    var open := OpenOnes(log, of, user);
    OpenOnesAddUp(log, of, user);
    OpenOnesPositive(c, db, log, of, user);
    MapSumRemove(open, hold);
    PositiveSum(open - {hold});
  }

  lemma ReleaseOpens(db: DB, user: nat, amount: int, withdrawal: Option<nat>)
    requires GoodDB(db) && 0 < amount <= HeldOf(db, user)
    ensures user in db.wallets && ReleaseError(db, user, amount) == None
    ensures ReverseError(db, user, amount, withdrawal) ==
            if IsInt64(db.wallets[user].realCents + amount) then None else Some(OutOfRange)
  {
    assert Solvent(db);
    hide GoodDB;
  }

  lemma StartsGood(s: State)
    requires Initial(s)
    ensures GoodDB(s.db)
  {
    hide GoodDB;
  }
}

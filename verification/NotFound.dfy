/** When the lookup by reference finds nothing (internal/api/game.go): when that answer is final, and when it is not. */
module NotFound {
  import opened Basics
  import opened Schema
  import opened Spin
  import opened Transactions
  import opened Integrity
  import opened Machine
  import opened SpinRuns
  import opened Fragments
  import opened Wheel
  import opened Movements
  import opened Engine
  import opened Progress
  import opened Complete
  import opened SpinService
  import opened Idempotency
  import opened Reachable

  predicate SpinUnder(op: Op, k: Key) {
    op.SpinOp? && KeyOf(op.req) == k
  }

  /** A request that has not come to play yet, and may. */
  predicate ToPlay(x: Handler, k: Key) {
    KeyOf(x.req) == k && (x.stage == Claiming || x.stage == Starting)
  }

  /** Somebody still carries the reference: a request about to play, or an open transaction. */
  predicate Carried(a: Api, k: Key) {
    (exists h | h in a.handlers :: ToPlay(a.handlers[h], k)) || exists t | t in a.money.txs :: SpinUnder(a.money.txs[t].op, k)
  }

  predicate Missing(a: Api, k: Key) {
    !Taken(a.money.db.spins, k.user, k.clientRef)
  }

  /** The event brings the reference in anew. */
  predicate Brings(e: Event, k: Key) {
    match e
    case Arrive(_, req) => KeyOf(req) == k
    case Money(Begin(_, op), _) => SpinUnder(op, k)
    case _ => false
  }

  predicate NobodyBrings(es: seq<Event>, k: Key) {
    forall e | e in es :: !Brings(e, k)
  }

  /** The lookup finds nothing exactly when no spin is on record under the reference. */
  lemma MissingIsNotFound(c: Config, a: Api, k: Key)
    requires ApiInv(c, a)
    ensures Answers(a.money.db, k.user, k.clientRef, None) <==> Missing(a, k)
  {
    var db := a.money.db;
    assert I6(db) && OwnersExist(db);
    hide ApiInv, GoodDB, I6, OwnersExist;
    if !Missing(a, k) {
      TakenHasWallet(db, k);
    }
  }

  lemma TakenHasWallet(db: DB, k: Key)
    requires I6(db) && OwnersExist(db) && Taken(db.spins, k.user, k.clientRef)
    ensures k.user in db.wallets
  {
    var s :| s in db.spins && db.spins[s].user == k.user && db.spins[s].clientRef == k.clientRef;
    assert FullyRecorded(db.ledger, s, db.spins[s]);
    hide FullyRecorded, OwnersExist;
    BetHasOwner(db, s);
  }

  /******* Final *******/

  /** A commit takes no reference but its own. */
  lemma CommitTakes(c: Config, tx: Tx, db: DB, user: nat, clientRef: string)
    requires ValidConfig(c) && TxInv(c, tx, db) && tx.pc == Commit && GoodDB(db)
    requires !SpinUnder(tx.op, Key(user, clientRef)) && !Taken(db.spins, user, clientRef)
    ensures !Taken(Merge(db, tx.frag, tx.locks).spins, user, clientRef)
  {
    assert OwnersExist(db);
    hide *;
    CommitIsAtomic(c, tx, db);
    AtomicTakes(c, db, Merge(db, tx.frag, tx.locks), tx.op, tx.ch, user, clientRef);
  }

  lemma AtomicTakes(c: Config, db: DB, db': DB, op: Op, ch: Choices, user: nat, clientRef: string)
    requires Atomic(c, db, op, true, ch) == Ok(db')
    requires !SpinUnder(op, Key(user, clientRef)) && !Taken(db.spins, user, clientRef)
    ensures !Taken(db'.spins, user, clientRef)
  {
    if op.SpinOp? {
      assert AtomicSpin(c, db, op.req, true, ch).Ok?;
      hide AtomicSpin, Taken, MakePlan, Payee, RecordOf;
      SpinRecord(c, db, op.req, ch);
      AnotherReference(db.spins, ch.spinId, db'.spins[ch.spinId], user, clientRef);
    } else {
      assert db'.spins == db.spins;
    }
  }

  lemma AnotherReference(spins: map<nat, SpinRow>, id: nat, row: SpinRow, user: nat, clientRef: string)
    requires !Taken(spins, user, clientRef) && (row.user != user || row.clientRef != clientRef)
    ensures !Taken(spins[id := row], user, clientRef)
  {
  }

  lemma StepTakes(c: Config, s: State, l: Label, k: Key)
    requires ValidConfig(c) && Inv(c, s) && Next(c, s, l).Some? && !Taken(s.db.spins, k.user, k.clientRef)
    requires forall t | t in s.txs :: !SpinUnder(s.txs[t].op, k)
    ensures !Taken(Next(c, s, l).value.db.spins, k.user, k.clientRef)
  {
    if Committing(s, l) {
      assert TxInv(c, s.txs[l.tid], s.db) && GoodDB(s.db);
      hide Inv, Next, TxInv, GoodDB, Merge, ValidConfig;
      CommitStep(c, s, l);
      CommitTakes(c, s.txs[l.tid], s.db, k.user, k.clientRef);
    } else {
      OtherStep(c, s, l);
    }
  }

  /** No step makes an open transaction take up another reference. */
  lemma StepCarries(c: Config, s: State, l: Label, k: Key)
    requires Inv(c, s) && Next(c, s, l).Some? && (l.Begin? ==> !SpinUnder(l.op, k))
    requires forall t | t in s.txs :: !SpinUnder(s.txs[t].op, k)
    ensures var txs := Next(c, s, l).value.txs;
            forall t | t in txs :: !SpinUnder(txs[t].op, k)
  {
    var s', tid := Next(c, s, l).value, TidOf(l);
    assert l.Begin? ==> s'.txs[tid].op == l.op;
    OnlyItself(c, s, l);
    hide Inv, Next;
    forall t | t in s'.txs ensures !SpinUnder(s'.txs[t].op, k) {
      if t != tid {
        assert t in s'.txs - {tid} && (s'.txs - {tid})[t] == s'.txs[t] && (s.txs - {tid})[t] == s.txs[t];
      }
    }
  }

  lemma MoneyEventStays(c: Config, a: Api, l: Label, acknowledged: bool, k: Key)
    requires ValidConfig(c) && ApiInv(c, a) && MoneyStep(c, a, l, acknowledged).Some?
    requires Missing(a, k) && !Carried(a, k) && (l.Begin? ==> !SpinUnder(l.op, k))
    ensures var b := MoneyStep(c, a, l, acknowledged).value;
            Missing(b, k) && !Carried(b, k)
  {
    hide Inv, Next, ValidConfig, MoneyStep;
    RequestsAfter(c, a, l, acknowledged, k);
    StepTakes(c, a.money, l, k);
    StepCarries(c, a.money, l, k);
  }

  lemma RequestsAfter(c: Config, a: Api, l: Label, acknowledged: bool, k: Key)
    requires MoneyStep(c, a, l, acknowledged).Some? && forall h | h in a.handlers :: !ToPlay(a.handlers[h], k)
    requires ApiInv(c, a)
    ensures var b := MoneyStep(c, a, l, acknowledged).value;
            Next(c, a.money, l) == Some(b.money) && forall h | h in b.handlers :: !ToPlay(b.handlers[h], k)
  {
    hide Next, Inv, AnswerOf, OutcomesTold, StoredAreOutcomes, HandlersKnow, RepliesAreOutcomes;
    if Next(c, a.money, l).Some? && Next(c, a.money, l).value.log != a.money.log {
      CommitLabel(c, a.money, l);
    }
  }

  lemma PlayStays(c: Config, a: Api, h: nat, k: Key)
    requires ValidConfig(c) && ApiInv(c, a) && IsAt(a, h, Starting) && Occurs(c, a, Play(h)).Some?
    requires Missing(a, k) && !Carried(a, k)
    ensures var b := Occurs(c, a, Play(h)).value;
            Missing(b, k) && !Carried(b, k)
  {
    var l := Begin(h, SpinOp(a.handlers[h].req));
    NotThatOne(c, a, h, k);
    hide *;
    Played(c, a, h);
    var b := Occurs(c, a, Play(h)).value;
    StepTakes(c, a.money, l, k);
    StepCarries(c, a.money, l, k);
    StillUncarried(a, b, h, k);
  }

  lemma NotThatOne(c: Config, a: Api, h: nat, k: Key)
    requires ApiInv(c, a) && IsAt(a, h, Starting) && Missing(a, k) && !Carried(a, k)
    ensures h in a.handlers && Inv(c, a.money) && !SpinUnder(SpinOp(a.handlers[h].req), k)
    ensures !Taken(a.money.db.spins, k.user, k.clientRef) && forall t | t in a.money.txs :: !SpinUnder(a.money.txs[t].op, k)
  {
    hide Inv, Taken;
    assert !ToPlay(a.handlers[h], k);
  }

  lemma StillUncarried(a: Api, b: Api, h: nat, k: Key)
    requires !Carried(a, k) && h in a.handlers && b.handlers == a.handlers[h := a.handlers[h].(stage := Playing)]
    requires !Taken(b.money.db.spins, k.user, k.clientRef) && forall t | t in b.money.txs :: !SpinUnder(b.money.txs[t].op, k)
    ensures Missing(b, k) && !Carried(b, k)
  {
    hide Taken;
  }

  lemma EventStays(c: Config, a: Api, e: Event, k: Key)
    requires ValidConfig(c) && ApiInv(c, a) && Occurs(c, a, e).Some?
    requires Missing(a, k) && !Carried(a, k) && !Brings(e, k)
    ensures Missing(Occurs(c, a, e).value, k) && !Carried(Occurs(c, a, e).value, k)
  {
    hide Inv, Next, MoneyStep, ValidConfig, ApiInv, IdemKey;
    match e
    case Money(l, acknowledged) => MoneyEventStays(c, a, l, acknowledged, k);
    case Play(h) => PlayStays(c, a, h, k);
    case _ =>
      var b := Occurs(c, a, e).value;
      assert b.money == a.money;
      OthersStay(c, a, e, k);
  }

  lemma OthersStay(c: Config, a: Api, e: Event, k: Key)
    requires Occurs(c, a, e).Some? && !e.Money? && !e.Play? && !Brings(e, k)
    requires forall h | h in a.handlers :: !ToPlay(a.handlers[h], k)
    ensures var b := Occurs(c, a, e).value;
            b.money == a.money && forall h | h in b.handlers :: !ToPlay(b.handlers[h], k)
  {
    hide IdemKey, Next;
  }

  lemma {:induction false} ScheduleStays(c: Config, a: Api, es: seq<Event>, k: Key)
    requires ValidConfig(c) && ApiInv(c, a) && Schedule(c, a, es).Some?
    requires Missing(a, k) && !Carried(a, k) && NobodyBrings(es, k)
    ensures var b := Schedule(c, a, es).value;
            ApiInv(c, b) && Missing(b, k) && !Carried(b, k)
  {
    if es != [] {
      var before, e := es[..|es| - 1], es[|es| - 1];
      assert NobodyBrings(before, k) && e in es;
      ScheduleStays(c, a, before, k);
      var b := Schedule(c, a, before).value;
      assert Schedule(c, a, es) == Occurs(c, b, e);
      hide Schedule, Occurs, ApiInv, Missing, Carried, ValidConfig;
      EventStays(c, b, e, k);
      EventKeepsInv(c, b, e);
    }
  }

  /** If nothing is on record and nobody carries the reference, then as long as nobody brings it in anew, whatever else
      happens, no lookup will ever find a spin under it: it never happened, and the client can safely try again. */
  lemma MissingIsFinal(c: Config, a0: Api, es: seq<Event>, more: seq<Event>, k: Key, r: Option<SpinResult>)
    requires ValidConfig(c) && ApiInitial(a0) && Schedule(c, a0, es).Some?
    requires var a := Schedule(c, a0, es).value;
             && Missing(a, k) && !Carried(a, k) && NobodyBrings(more, k) && Schedule(c, a, more).Some?
             && Answers(Schedule(c, a, more).value.money.db, k.user, k.clientRef, r)
    ensures r == None
  {
    hide Schedule, ValidConfig, ApiInv, Carried, NobodyBrings;
    ScheduleKeepsInv(c, a0, es);
    ScheduleStays(c, Schedule(c, a0, es).value, more, k);
  }

  /******* Not final *******/

  /** Statements as events, each commit acknowledged. */
  function Statements(ls: seq<Label>): (es: seq<Event>)
    ensures |es| == |ls| && forall i | 0 <= i < |ls| :: es[i] == Money(ls[i], true)
  {
    if ls == [] then [] else Statements(ls[..|ls| - 1]) + [Money(ls[|ls| - 1], true)]
  }

  predicate NoBegin(ls: seq<Label>) {
    forall l | l in ls :: !l.Begin?
  }

  lemma {:induction false} StatementsBringNothing(ls: seq<Label>, k: Key)
    requires NoBegin(ls)
    ensures NobodyBrings(Statements(ls), k)
  {
    if ls != [] {
      assert ls[|ls| - 1] in ls;
      assert NoBegin(ls[..|ls| - 1]);
      StatementsBringNothing(ls[..|ls| - 1], k);
    }
  }

  /** What the machine can do, the endpoint around it lets happen. */
  lemma {:induction false} MachineRuns(c: Config, a: Api, ls: seq<Label>)
    requires NoBegin(ls) && Run(c, a.money, ls).Some?
    ensures Schedule(c, a, Statements(ls)).Some?
    ensures Schedule(c, a, Statements(ls)).value.money == Run(c, a.money, ls).value
  {
    if ls != [] {
      var before, l := ls[..|ls| - 1], ls[|ls| - 1];
      assert l in ls && NoBegin(before);
      MachineRuns(c, a, before);
      var b := Schedule(c, a, Statements(before)).value;
      assert Statements(ls)[..|ls| - 1] == Statements(before);
      assert Next(c, b.money, l).Some?;
      StatementOccurs(c, b, l);
    }
  }

  lemma StatementOccurs(c: Config, a: Api, l: Label)
    requires !l.Begin? && Next(c, a.money, l).Some?
    ensures Occurs(c, a, Money(l, true)).Some? && Occurs(c, a, Money(l, true)).value.money == Next(c, a.money, l).value
  {
    assert TidOf(l) in a.money.txs;
    hide Next, AnswerOf;
  }

  lemma {:induction false} ScheduleOn(c: Config, a: Api, es: seq<Event>, more: seq<Event>)
    requires Schedule(c, a, es).Some?
    ensures Schedule(c, a, es + more) == Schedule(c, Schedule(c, a, es).value, more)
  {
    if more == [] {
      assert es + more == es;
    } else {
      assert (es + more)[..|es + more| - 1] == es + more[..|more| - 1];
      ScheduleOn(c, a, es, more[..|more| - 1]);
    }
  }

  lemma RollsBack(c: Config, s: State, tid: nat)
    requires tid in s.txs
    ensures Next(c, s, Rollback(tid)) == Some(s.(txs := s.txs - {tid}))
  {
  }

  function Only(s: State, tid: nat): State
    requires tid in s.txs
  {
    s.(txs := map[tid := s.txs[tid]])
  }

  /** Every other transaction can be rolled back. */
  lemma {:induction false} LeftAlone(c: Config, s: State, tid: nat) returns (ls: seq<Label>)
    requires ValidConfig(c) && Inv(c, s) && tid in s.txs
    ensures NoBegin(ls) && Run(c, s, ls) == Some(Only(s, tid))
    ensures Inv(c, Only(s, tid))
    decreases |s.txs|
  {
    hide *;
    if t :| t in s.txs && t != tid {
      var l := Rollback(t);
      Without(s, t, tid);
      RollsBack(c, s, t);
      NextKeepsInv(c, s, l);
      var s' := s.(txs := s.txs - {t});
      var rest := LeftAlone(c, s', tid);
      RunCons(c, s, l, rest);
      RollbackFirst(l, rest);
      ls := [l] + rest;
    } else {
      ls := [];
      AlreadyAlone(c, s, tid);
    }
  }

  lemma AlreadyAlone(c: Config, s: State, tid: nat)
    requires tid in s.txs && forall t | t in s.txs :: t == tid
    ensures Only(s, tid) == s && NoBegin([]) && Run(c, s, []) == Some(s)
  {
    assert s.txs == map[tid := s.txs[tid]];
  }

  lemma Without(s: State, t: nat, tid: nat)
    requires t in s.txs && tid in s.txs && t != tid
    ensures |s.txs - {t}| < |s.txs| && tid in s.txs - {t}
    ensures var s' := s.(txs := s.txs - {t});
            Only(s', tid) == Only(s, tid)
  {
    assert (s.txs - {t}).Keys == s.txs.Keys - {t};
    assert |s.txs - {t}| == |(s.txs - {t}).Keys| && |s.txs| == |s.txs.Keys|;
  }

  lemma RollbackFirst(l: Label, ls: seq<Label>)
    requires l.Rollback? && NoBegin(ls)
    ensures NoBegin([l] + ls)
  {
  }

  /** The spin an open transaction carries would go through if the others stepped aside: with the word it has drawn, or,
      before the draw, with some word. */
  ghost predicate WouldSucceed(c: Config, db: DB, tx: Tx, ch: Choices) {
    tx.op.SpinOp? && AtomicSpin(c, db, tx.op.req, true, ch).Ok? && (Drawn(tx.pc) ==> tx.ch.word == ch.word)
  }

  lemma CommittedIsTaken(c: Config, s: State, s': State, op: Op, word: nat)
    requires Committed(c, s, s', op, word) && op.SpinOp?
    ensures Taken(s'.db.spins, op.req.user, op.req.clientRef)
  {
    var ch := s'.log[|s.log|].ch;
    assert AtomicSpin(c, s.db, op.req, true, ch).Ok? && AtomicSpin(c, s.db, op.req, true, ch).value.0 == s'.db;
    hide AtomicSpin, Taken, MakePlan, Payee, RecordOf;
    SpinRecord(c, s.db, op.req, ch);
    NowTaken(s.db.spins, ch.spinId, s'.db.spins[ch.spinId]);
  }

  lemma NowTaken(spins: map<nat, SpinRow>, id: nat, row: SpinRow)
    ensures Taken(spins[id := row], row.user, row.clientRef)
  {
    assert id in spins[id := row] && spins[id := row][id] == row;
  }

  /** From the machine alone: the others roll back, and the transaction runs to its commit. */
  lemma RunsToRecord(c: Config, s: State, tid: nat, ch: Choices) returns (ls: seq<Label>)
    requires ValidConfig(c) && Inv(c, s) && tid in s.txs && WouldSucceed(c, s.db, s.txs[tid], ch)
    ensures NoBegin(ls) && Run(c, s, ls).Some?
    ensures Taken(Run(c, s, ls).value.db.spins, s.txs[tid].op.req.user, s.txs[tid].op.req.clientRef)
  {
    var s' := Only(s, tid);
    hide *;
    var first := LeftAlone(c, s, tid);
    IsAlone(c, s, tid, ch);
    var rest := RunsToCommit(c, s', tid, ch.word, ch);
    var s'' := Run(c, s', rest).value;
    CommittedIsTaken(c, s', s'', s.txs[tid].op, ch.word);
    RunOn(c, s, first, rest);
    NoBegins(first, rest);
    ls := first + rest;
    assert Run(c, s, ls) == Some(s'');
  }

  lemma IsAlone(c: Config, s: State, tid: nat, ch: Choices)
    requires tid in s.txs && WouldSucceed(c, s.db, s.txs[tid], ch)
    ensures Alone(c, Only(s, tid), tid, ch.word, ch) && s.txs[tid].op.SpinOp?
    ensures tid in Only(s, tid).txs && Only(s, tid).txs[tid] == s.txs[tid]
  {
    assert Atomic(c, s.db, s.txs[tid].op, true, ch).Ok?;
    hide Atomic, AtomicSpin, Drawn;
  }

  lemma {:induction false} RunOn(c: Config, s: State, ls: seq<Label>, more: seq<Label>)
    requires Run(c, s, ls).Some?
    ensures Run(c, s, ls + more) == Run(c, Run(c, s, ls).value, more)
  {
    if more == [] {
      assert ls + more == ls;
    } else {
      assert (ls + more)[..|ls + more| - 1] == ls + more[..|more| - 1];
      hide Next;
      RunOn(c, s, ls, more[..|more| - 1]);
    }
  }

  lemma NoBegins(ls: seq<Label>, more: seq<Label>)
    requires NoBegin(ls) && AllForward(more)
    ensures NoBegin(ls + more)
  {
  }

  /** While an open transaction carries the reference and would go through alone, a lookup that finds nothing is not
      final: with no new request, the spin can still be recorded. */
  lemma OpenSpinCanStillHappen(c: Config, a: Api, tid: nat, ch: Choices, k: Key) returns (more: seq<Event>)
    requires ValidConfig(c) && ApiInv(c, a) && tid in a.money.txs
    requires SpinUnder(a.money.txs[tid].op, k) && WouldSucceed(c, a.money.db, a.money.txs[tid], ch)
    ensures NobodyBrings(more, k) && Schedule(c, a, more).Some? && !Missing(Schedule(c, a, more).value, k)
  {
    assert Inv(c, a.money);
    hide ValidConfig, ApiInv, Inv, WouldSucceed, Run, Schedule, NoBegin, NobodyBrings, Taken;
    var ls := RunsToRecord(c, a.money, tid, ch);
    MachineRuns(c, a, ls);
    StatementsBringNothing(ls, k);
    more := Statements(ls);
  }

  /** So too while a request has claimed the key and not begun to play ... */
  lemma ClaimedSpinCanStillHappen(c: Config, a: Api, h: nat, ch: Choices) returns (more: seq<Event>)
    requires ValidConfig(c) && ApiInv(c, a) && IsAt(a, h, Starting)
    requires AtomicSpin(c, a.money.db, a.handlers[h].req, true, ch).Ok?
    ensures var k := KeyOf(a.handlers[h].req);
            NobodyBrings(more, k) && Schedule(c, a, more).Some? && !Missing(Schedule(c, a, more).value, k)
  {
    var k, e := KeyOf(a.handlers[h].req), Play(h);
    HandlerIdle(c, a, h);
    hide *;
    BeginsToPlay(c, a, h, ch);
    var b := Occurs(c, a, e).value;
    EventKeepsInv(c, a, e);
    PlayBringsNothing(h, k);
    var rest := OpenSpinCanStillHappen(c, b, h, ch, k);
    OneEvent(c, a, e, rest, k);
    more := [e] + rest;
  }

  lemma PlayBringsNothing(h: nat, k: Key)
    ensures !Brings(Play(h), k)
  {
  }

  lemma HandlerIdle(c: Config, a: Api, h: nat)
    requires ApiInv(c, a) && IsAt(a, h, Starting)
    ensures h in a.handlers && h !in a.money.txs
  {
    hide Inv;
    assert HandlerKnows(a, h);
  }

  lemma BeginsToPlay(c: Config, a: Api, h: nat, ch: Choices)
    requires IsAt(a, h, Starting) && h !in a.money.txs && AtomicSpin(c, a.money.db, a.handlers[h].req, true, ch).Ok?
    ensures Occurs(c, a, Play(h)).Some?
    ensures var b := Occurs(c, a, Play(h)).value;
            && h in b.money.txs && SpinUnder(b.money.txs[h].op, KeyOf(a.handlers[h].req))
            && WouldSucceed(c, b.money.db, b.money.txs[h], ch)
  {
    hide AtomicSpin;
  }

  lemma OneEvent(c: Config, a: Api, e: Event, rest: seq<Event>, k: Key)
    requires Occurs(c, a, e).Some? && !Brings(e, k) && NobodyBrings(rest, k)
    ensures NobodyBrings([e] + rest, k) && Schedule(c, a, [e] + rest) == Schedule(c, Occurs(c, a, e).value, rest)
  {
    assert [e][..0] == [] && Schedule(c, a, []) == Some(a);
    assert Schedule(c, a, [e]) == Occurs(c, a, e);
    hide Occurs;
    ScheduleOn(c, a, [e], rest);
  }

  /** ... or has only just arrived. */
  lemma ArrivedSpinCanStillHappen(c: Config, a: Api, h: nat, ch: Choices) returns (more: seq<Event>)
    requires ValidConfig(c) && ApiInv(c, a) && IsAt(a, h, Claiming)
    requires AtomicSpin(c, a.money.db, a.handlers[h].req, true, ch).Ok?
    ensures var k := KeyOf(a.handlers[h].req);
            NobodyBrings(more, k) && Schedule(c, a, more).Some? && !Missing(Schedule(c, a, more).value, k)
  {
    var k := KeyOf(a.handlers[h].req);
    hide *;
    var e1, e2 := Expire(IdemKey(k)), Event.Claim(h, Works);
    ClaimsAfresh(c, a, h, k);
    EventKeepsInv(c, a, e1);
    var a1 := Occurs(c, a, e1).value;
    EventKeepsInv(c, a1, e2);
    var rest := ClaimedSpinCanStillHappen(c, Occurs(c, a1, e2).value, h, ch);
    OneEvent(c, a1, e2, rest, k);
    OneEvent(c, a, e1, [e2] + rest, k);
    more := [e1] + ([e2] + rest);
  }

  lemma ClaimsAfresh(c: Config, a: Api, h: nat, k: Key)
    requires IsAt(a, h, Claiming) && k == KeyOf(a.handlers[h].req)
    ensures var e1, e2 := Expire(IdemKey(k)), Event.Claim(h, Works);
            && !Brings(e1, k) && !Brings(e2, k) && Occurs(c, a, e1).Some?
            && var a1 := Occurs(c, a, e1).value;
               && Occurs(c, a1, e2).Some?
               && var a2 := Occurs(c, a1, e2).value;
                  IsAt(a2, h, Starting) && a2.handlers[h].req == a.handlers[h].req && a2.money == a.money
  {
    hide IdemKey;
  }

  /******* Past the draw: exactly when it is final *******/

  /** The outcome of every carried spin is drawn: no request is about to play, and every open transaction that carries the
      reference is past its draw. */
  ghost predicate Settled(a: Api, k: Key) {
    && (forall h | h in a.handlers :: !ToPlay(a.handlers[h], k))
    && forall t | t in a.money.txs && SpinUnder(a.money.txs[t].op, k) :: Drawn(a.money.txs[t].pc)
  }

  /** None of the carried spins would go through with the word it has drawn. */
  ghost predicate AllFail(c: Config, s: State, k: Key) {
    forall t | t in s.txs && SpinUnder(s.txs[t].op, k) :: WouldFail(c, s.db, s.txs[t])
  }

  ghost predicate WouldFail(c: Config, db: DB, tx: Tx) {
    tx.op.SpinOp? && Drawn(tx.pc) && AtomicSpin(c, db, tx.op.req, true, tx.ch).Err?
  }

  lemma DrawnRows(c: Config, tx: Tx, db: DB)
    requires SpinInv(c, tx, db) && Drawn(tx.pc)
    ensures RowsPresent(Restrict(db, tx.locks), tx.op.req, PlanOf(c, tx))
    ensures tx.op.req.isReal ==> HouseRow in tx.locks
  {
    assert tx.locks == DrawLocks(tx.op.req, tx.payee) || tx.locks == AllLocks(tx.op.req, tx.payee);
    hide Restrict, SpinShared, Payee, Veto;
  }

  /** The locked rows settle it: another transaction's commit does not change whether the spin would go through. */
  lemma SameFate(c: Config, tx: Tx, db: DB, db': DB)
    requires ValidConfig(c) && SpinInv(c, tx, db) && SpinInv(c, tx, db') && Drawn(tx.pc)
    requires Restrict(db', tx.locks) == Restrict(db, tx.locks)
    requires !Taken(db.spins, tx.op.req.user, tx.op.req.clientRef) && !Taken(db'.spins, tx.op.req.user, tx.op.req.clientRef)
    ensures AtomicSpin(c, db, tx.op.req, true, tx.ch).Ok? <==> AtomicSpin(c, db', tx.op.req, true, tx.ch).Ok?
  {
    FateUnderLocks(c, tx, db);
    FateUnderLocks(c, tx, db');
  }

  lemma FateUnderLocks(c: Config, tx: Tx, db: DB)
    requires ValidConfig(c) && SpinInv(c, tx, db) && Drawn(tx.pc)
    requires !Taken(db.spins, tx.op.req.user, tx.op.req.clientRef)
    ensures RowsPresent(Restrict(db, tx.locks), tx.op.req, PlanOf(c, tx))
    ensures AtomicSpin(c, db, tx.op.req, true, tx.ch).Ok? <==>
            MoneyError(Restrict(db, tx.locks), tx.op.req, PlanOf(c, tx), tx.ch) == None
  {
    DrawnRows(c, tx, db);
    AdmittedUnderLocks(c, tx, db);
    hide ValidConfig, SpinInv, Veto, AtomicSpin, MakePlan, Restrict, Taken, Payee, BetError, WinError, BankError, RefError;
    AfterVeto(c, db, tx.op.req, tx.ch);
    SameMoneyErrors(db, tx.locks, tx.op.req, PlanOf(c, tx), tx.ch);
  }

  /** A statement of a carried spin that is past its draw leaves it there, with the same word. */
  lemma FailsOn(c: Config, tx: Tx, db: DB, seqs: Seqs, word: nat, entropy: bool)
    requires ValidConfig(c) && Solvent(db) && WouldFail(c, db, tx) && ExecSpin(c, tx, db, seqs, word, entropy).Goes?
    ensures WouldFail(c, db, ExecSpin(c, tx, db, seqs, word, entropy).tx)
  {
    var tx' := ExecSpin(c, tx, db, seqs, word, entropy).tx;
    DrawnOn(c, tx, db, seqs, word, entropy);
    hide ValidConfig, Solvent, ExecSpin, AtomicSpin, Drawn;
    OnlyTheWordMatters(c, db, tx.op.req, tx.ch, tx'.ch);
  }

  lemma DrawnOn(c: Config, tx: Tx, db: DB, seqs: Seqs, word: nat, entropy: bool)
    requires tx.op.SpinOp? && Drawn(tx.pc) && ExecSpin(c, tx, db, seqs, word, entropy).Goes?
    ensures var tx' := ExecSpin(c, tx, db, seqs, word, entropy).tx;
            Drawn(tx'.pc) && tx'.ch.word == tx.ch.word && tx'.op == tx.op
  {
    hide MakePlan, MoveError, HouseError, Taken, SpinChecks, Moved, Payee, Select, MaxMult;
  }

  /** A spin that would fail never reaches its commit. */
  lemma FailsNeverCommit(c: Config, tx: Tx, db: DB)
    requires WouldFail(c, db, tx) && TxInv(c, tx, db) && OwnersExist(db)
    ensures tx.pc != Commit
  {
    if tx.pc == Commit {
      hide TxInv, OwnersExist, AtomicSpin;
      CommitIsAtomic(c, tx, db);
    }
  }

  lemma CommitKeepsFate(c: Config, s: State, l: Label, t: nat, k: Key)
    requires ValidConfig(c) && Inv(c, s) && Next(c, s, l).Some? && Committing(s, l)
    requires t in s.txs && t != l.tid && SpinUnder(s.txs[t].op, k) && WouldFail(c, s.db, s.txs[t])
    requires !Taken(s.db.spins, k.user, k.clientRef) && !Taken(Next(c, s, l).value.db.spins, k.user, k.clientRef)
    ensures WouldFail(c, Next(c, s, l).value.db, s.txs[t])
  {
    hide *;
    var s' := Next(c, s, l).value;
    FailingSpin(c, s.db, s.txs[t], k);
    NextKeepsInv(c, s, l);
    CommitTid(c, s, l);
    CommitStep(c, s, l);
    LockedRowsStay(c, s, l.tid, t);
    Known(c, s, t);
    Known(c, s', t);
    SpinKnown(c, s.txs[t], s.db);
    SpinKnown(c, s.txs[t], s'.db);
    SameFate(c, s.txs[t], s.db, s'.db);
    StillFailing(c, s.db, s'.db, s.txs[t]);
  }

  lemma FailingSpin(c: Config, db: DB, tx: Tx, k: Key)
    requires SpinUnder(tx.op, k) && WouldFail(c, db, tx)
    ensures tx.op.SpinOp? && Drawn(tx.pc) && tx.op.req.user == k.user && tx.op.req.clientRef == k.clientRef
  {
    hide AtomicSpin, Drawn;
  }

  lemma StillFailing(c: Config, db: DB, db': DB, tx: Tx)
    requires WouldFail(c, db, tx) && tx.op.SpinOp?
    requires AtomicSpin(c, db, tx.op.req, true, tx.ch).Ok? <==> AtomicSpin(c, db', tx.op.req, true, tx.ch).Ok?
    ensures WouldFail(c, db', tx)
  {
    hide AtomicSpin, Drawn;
  }

  lemma CommitTid(c: Config, s: State, l: Label)
    requires Committing(s, l)
    ensures l.Forward? && l.tid in s.txs && s.txs[l.tid].pc == Commit
  {
  }

  /** A commit leaves the rows another transaction has locked as they were. */
  lemma LockedRowsStay(c: Config, s: State, tid: nat, t: nat)
    requires Inv(c, s) && tid in s.txs && t in s.txs && t != tid
    ensures var tx, other := s.txs[tid], s.txs[t];
            Restrict(Merge(s.db, tx.frag, tx.locks), other.locks) == Restrict(s.db, other.locks)
  {
    var tx, other := s.txs[tid], s.txs[t];
    Known(c, s, tid);
    assert Apart(tx, other);
    hide Inv, TxInv, AllKnown, AllApart, AllIssued;
    TxOwn(c, tx, s.db);
    CommitUnnoticed(s.db, tx, other);
    hide Restrict, Merge;
  }

  lemma SpinKnown(c: Config, tx: Tx, db: DB)
    requires TxInv(c, tx, db) && tx.op.SpinOp?
    ensures SpinInv(c, tx, db)
  {
    hide SpinInv;
  }

  /** No step lets a carried spin that would fail go through. */
  lemma StepFails(c: Config, s: State, l: Label, k: Key, t: nat)
    requires ValidConfig(c) && Inv(c, s) && Next(c, s, l).Some? && AllFail(c, s, k) && (l.Begin? ==> !SpinUnder(l.op, k))
    requires !Taken(s.db.spins, k.user, k.clientRef) && !Taken(Next(c, s, l).value.db.spins, k.user, k.clientRef)
    requires t in Next(c, s, l).value.txs && SpinUnder(Next(c, s, l).value.txs[t].op, k)
    ensures WouldFail(c, Next(c, s, l).value.db, Next(c, s, l).value.txs[t])
  {
    var s' := Next(c, s, l).value;
    WasThere(c, s, l, k, t);
    assert WouldFail(c, s.db, s.txs[t]);
    hide *;
    if Committing(s, l) {
      CommitTid(c, s, l);
      CommitStep(c, s, l);
      CommitKeepsFate(c, s, l, t, k);
    } else {
      OtherStep(c, s, l);
      if t == TidOf(l) {
        OwnStepFails(c, s, l, t);
      }
    }
  }

  /** Who carries the reference afterwards carried it before; nobody else's transaction has changed. */
  lemma WasThere(c: Config, s: State, l: Label, k: Key, t: nat)
    requires Inv(c, s) && Next(c, s, l).Some? && (l.Begin? ==> !SpinUnder(l.op, k))
    requires t in Next(c, s, l).value.txs && SpinUnder(Next(c, s, l).value.txs[t].op, k)
    ensures t in s.txs && SpinUnder(s.txs[t].op, k) && (t != TidOf(l) ==> Next(c, s, l).value.txs[t] == s.txs[t])
    ensures t == TidOf(l) ==> l.Forward?
  {
    var s', tid := Next(c, s, l).value, TidOf(l);
    assert l.Begin? ==> s'.txs[tid].op == l.op;
    assert l.Rollback? ==> tid !in s'.txs;
    OnlyItself(c, s, l);
    hide Inv, Next;
    if t != tid {
      assert t in s'.txs - {tid} && (s'.txs - {tid})[t] == s'.txs[t] && (s.txs - {tid})[t] == s.txs[t];
    }
  }

  lemma OwnStepFails(c: Config, s: State, l: Label, t: nat)
    requires ValidConfig(c) && Inv(c, s) && Next(c, s, l).Some? && l.Forward? && l.tid == t && !Committing(s, l)
    requires t in s.txs && t in Next(c, s, l).value.txs && WouldFail(c, s.db, s.txs[t])
    ensures WouldFail(c, s.db, Next(c, s, l).value.txs[t])
  {
    var tx := s.txs[t];
    StepsOpenTxs(c, s, l);
    SolventNow(c, s);
    assert tx.op.SpinOp?;
    assert Exec(c, tx, s.db, s.seqs, l.word, l.entropy) == ExecSpin(c, tx, s.db, s.seqs, l.word, l.entropy);
    hide Inv, Next, Exec, ExecSpin, ValidConfig, WouldFail;
    FailsOn(c, tx, s.db, s.seqs, l.word, l.entropy);
  }

  lemma SolventNow(c: Config, s: State)
    requires Inv(c, s)
    ensures Solvent(s.db)
  {
    hide Solvent, SeqsAbove, AllKnown, AllIssued, AllApart;
  }

  /** Of the open transactions only one whose spin would go through commits under the reference. */
  lemma NoneCommits(c: Config, s: State, l: Label, k: Key)
    requires ValidConfig(c) && Inv(c, s) && Next(c, s, l).Some? && AllFail(c, s, k)
    requires !Taken(s.db.spins, k.user, k.clientRef)
    ensures !Taken(Next(c, s, l).value.db.spins, k.user, k.clientRef)
  {
    if Committing(s, l) {
      var tx := s.txs[l.tid];
      Known(c, s, l.tid);
      GoodNow(c, s);
      assert SpinUnder(tx.op, k) ==> WouldFail(c, s.db, tx);
      hide *;
      CommitTid(c, s, l);
      if SpinUnder(tx.op, k) {
        FailsNeverCommit(c, tx, s.db);
        assert false;
      }
      CommitStep(c, s, l);
      CommitTakes(c, tx, s.db, k.user, k.clientRef);
    } else {
      OtherStep(c, s, l);
    }
  }

  lemma GoodNow(c: Config, s: State)
    requires Inv(c, s)
    ensures GoodDB(s.db)
  {
    hide GoodDB, SeqsAbove, AllKnown, AllIssued, AllApart;
  }

  ghost predicate Doomed(c: Config, a: Api, k: Key) {
    && Missing(a, k) && (forall h | h in a.handlers :: !ToPlay(a.handlers[h], k)) && AllFail(c, a.money, k)
  }

  lemma StepDooms(c: Config, s: State, l: Label, k: Key)
    requires ValidConfig(c) && Inv(c, s) && Next(c, s, l).Some? && AllFail(c, s, k) && (l.Begin? ==> !SpinUnder(l.op, k))
    requires !Taken(s.db.spins, k.user, k.clientRef)
    ensures !Taken(Next(c, s, l).value.db.spins, k.user, k.clientRef) && AllFail(c, Next(c, s, l).value, k)
  {
    hide Inv, Next, ValidConfig, Taken, WouldFail;
    NoneCommits(c, s, l, k);
    var s' := Next(c, s, l).value;
    forall t | t in s'.txs && SpinUnder(s'.txs[t].op, k) ensures WouldFail(c, s'.db, s'.txs[t]) {
      StepFails(c, s, l, k, t);
    }
  }

  lemma EventDooms(c: Config, a: Api, e: Event, k: Key)
    requires ValidConfig(c) && ApiInv(c, a) && Occurs(c, a, e).Some? && Doomed(c, a, k) && !Brings(e, k)
    ensures Doomed(c, Occurs(c, a, e).value, k)
  {
    hide *;
    match e
    case Money(l, acknowledged) => MoneyDooms(c, a, l, acknowledged, k);
    case Play(h) => PlayDooms(c, a, h, k);
    case _ => OtherDooms(c, a, e, k);
  }

  lemma MoneyDooms(c: Config, a: Api, l: Label, acknowledged: bool, k: Key)
    requires ValidConfig(c) && ApiInv(c, a) && Doomed(c, a, k) && !Brings(Money(l, acknowledged), k)
    requires Occurs(c, a, Money(l, acknowledged)).Some?
    ensures Doomed(c, Occurs(c, a, Money(l, acknowledged)).value, k)
  {
    assert Occurs(c, a, Money(l, acknowledged)) == MoneyStep(c, a, l, acknowledged);
    hide Inv, Next, ValidConfig, MoneyStep, AllFail, ApiInv, Occurs, Taken;
    MoneyKnown(c, a);
    RequestsAfter(c, a, l, acknowledged, k);
    StepDooms(c, a.money, l, k);
  }

  lemma PlayDooms(c: Config, a: Api, h: nat, k: Key)
    requires ValidConfig(c) && ApiInv(c, a) && Doomed(c, a, k) && Occurs(c, a, Play(h)).Some?
    ensures Doomed(c, Occurs(c, a, Play(h)).value, k)
  {
    hide Inv, Next, ValidConfig, Occurs, AllFail, ApiInv, Taken;
    MoneyKnown(c, a);
    PlaysAnother(c, a, h, k);
    StepDooms(c, a.money, Begin(h, SpinOp(a.handlers[h].req)), k);
  }

  lemma OtherDooms(c: Config, a: Api, e: Event, k: Key)
    requires Doomed(c, a, k) && Occurs(c, a, e).Some? && !e.Money? && !e.Play? && !Brings(e, k)
    ensures Doomed(c, Occurs(c, a, e).value, k)
  {
    hide Occurs, AllFail, Taken;
    OthersStay(c, a, e, k);
  }

  lemma MoneyKnown(c: Config, a: Api)
    requires ApiInv(c, a)
    ensures Inv(c, a.money)
  {
    hide Inv;
  }

  lemma PlaysAnother(c: Config, a: Api, h: nat, k: Key)
    requires Occurs(c, a, Play(h)).Some? && forall x | x in a.handlers :: !ToPlay(a.handlers[x], k)
    ensures h in a.handlers && !SpinUnder(SpinOp(a.handlers[h].req), k)
    ensures var b := Occurs(c, a, Play(h)).value;
            && Next(c, a.money, Begin(h, SpinOp(a.handlers[h].req))) == Some(b.money)
            && forall x | x in b.handlers :: !ToPlay(b.handlers[x], k)
  {
    Played(c, a, h);
    hide Next, Occurs;
  }

  lemma {:induction false} ScheduleDooms(c: Config, a: Api, es: seq<Event>, k: Key)
    requires ValidConfig(c) && ApiInv(c, a) && Schedule(c, a, es).Some? && Doomed(c, a, k) && NobodyBrings(es, k)
    ensures ApiInv(c, Schedule(c, a, es).value) && Doomed(c, Schedule(c, a, es).value, k)
  {
    if es != [] {
      var before, e := es[..|es| - 1], es[|es| - 1];
      assert NobodyBrings(before, k) && e in es;
      ScheduleDooms(c, a, before, k);
      var b := Schedule(c, a, before).value;
      assert Schedule(c, a, es) == Occurs(c, b, e);
      hide Schedule, Occurs, ApiInv, Doomed, ValidConfig;
      EventDooms(c, b, e, k);
      EventKeepsInv(c, b, e);
    }
  }

  ghost predicate AlwaysMissing(c: Config, a: Api, k: Key) {
    forall more | NobodyBrings(more, k) && Schedule(c, a, more).Some? :: Missing(Schedule(c, a, more).value, k)
  }

  /** Once the outcome of every carried spin is drawn, a lookup that finds nothing is final, whatever happens until the
      reference is brought in anew, if and only if none of those spins would go through on the tables as they are. */
  lemma MissingExactly(c: Config, a0: Api, es: seq<Event>, k: Key)
    requires ValidConfig(c) && ApiInitial(a0) && Schedule(c, a0, es).Some?
    requires var a := Schedule(c, a0, es).value; Missing(a, k) && Settled(a, k)
    ensures var a := Schedule(c, a0, es).value;
            AlwaysMissing(c, a, k) <==> AllFail(c, a.money, k)
  {
    ScheduleKeepsInv(c, a0, es);
    var a := Schedule(c, a0, es).value;
    hide ValidConfig, ApiInitial, ApiInv, Schedule, NobodyBrings, AtomicSpin, Drawn;
    if AllFail(c, a.money, k) {
      forall more | NobodyBrings(more, k) && Schedule(c, a, more).Some? ensures Missing(Schedule(c, a, more).value, k) {
        ScheduleDooms(c, a, more, k);
      }
    } else {
      var t :| t in a.money.txs && SpinUnder(a.money.txs[t].op, k) && !WouldFail(c, a.money.db, a.money.txs[t]);
      var more := OpenSpinCanStillHappen(c, a, t, a.money.txs[t].ch, k);
    }
  }

  /******* An instance *******/

  /** A request from the funded player on the shipped configuration, up to the moment its transaction is open. */
  function OpenedRound(clientRef: string): seq<Event> {
    [Arrive(1, Request(1, 500, true, clientRef, true))] + [Event.Claim(1, Works)] + [Play(1)]
  }

  const FUNDED_API: Api := Api(State(FUNDED, Seqs(2, 1, 2), map[], []), map[], map[], map[], [])

  lemma RoundOpens(c: Config, clientRef: string)
    requires 0 < |clientRef| <= 64
    ensures ApiInitial(FUNDED_API) && Schedule(c, FUNDED_API, OpenedRound(clientRef)).Some?
    ensures var a := Schedule(c, FUNDED_API, OpenedRound(clientRef)).value;
            && a.money.db == FUNDED && 1 in a.money.txs
            && a.money.txs[1] == Start(SpinOp(Request(1, 500, true, clientRef, true)))
  {
    FundedDatabase();
    var e1, e2, e3 := Arrive(1, Request(1, 500, true, clientRef, true)), Event.Claim(1, Works), Play(1);
    hide IdemKey, Initial;
    var a1 := Occurs(c, FUNDED_API, e1).value;
    var a2 := Occurs(c, a1, e2).value;
    assert Occurs(c, a2, e3).Some?;
    assert Schedule(c, FUNDED_API, []) == Some(FUNDED_API);
    hide Occurs;
    OneMore(c, FUNDED_API, [], e1, [e1]);
    OneMore(c, FUNDED_API, [e1], e2, [e1] + [e2]);
    OneMore(c, FUNDED_API, [e1] + [e2], e3, OpenedRound(clientRef));
  }

  lemma OneMore(c: Config, a: Api, es: seq<Event>, e: Event, es': seq<Event>)
    requires Schedule(c, a, es).Some? && es' == es + [e]
    ensures Schedule(c, a, es') == Occurs(c, Schedule(c, a, es).value, e)
  {
    assert es'[..|es|] == es;
  }

  /** A lookup that finds nothing, followed by the spin it did not find: the request that was in flight plays on. */
  lemma MissingThenPlayed(clientRef: string) returns (more: seq<Event>)
    requires 0 < |clientRef| <= 64
    ensures ValidConfig(DEFAULTS) && ApiInitial(FUNDED_API)
    ensures Schedule(DEFAULTS, FUNDED_API, OpenedRound(clientRef)).Some?
    ensures var a := Schedule(DEFAULTS, FUNDED_API, OpenedRound(clientRef)).value;
            && Answers(a.money.db, 1, clientRef, None)
            && NobodyBrings(more, Key(1, clientRef)) && Schedule(DEFAULTS, a, more).Some?
            && !Answers(Schedule(DEFAULTS, a, more).value.money.db, 1, clientRef, None)
  {
    var req, ch := Request(1, 500, true, clientRef, true), Choices(0, 0, 0, 0, 0, 0);
    assert KeyOf(req) == Key(1, clientRef);
    FundedSpin(clientRef, ch);
    RoundOpens(DEFAULTS, clientRef);
    var a := Schedule(DEFAULTS, FUNDED_API, OpenedRound(clientRef)).value;
    StartWouldSucceed(DEFAULTS, FUNDED, req, ch, Key(1, clientRef));
    hide *;
    ScheduleKeepsInv(DEFAULTS, FUNDED_API, OpenedRound(clientRef));
    more := OpenSpinCanStillHappen(DEFAULTS, a, 1, ch, Key(1, clientRef));
    ScheduleKeepsInvFrom(DEFAULTS, a, more);
    MissingIsNotFound(DEFAULTS, Schedule(DEFAULTS, a, more).value, Key(1, clientRef));
    NothingFound(clientRef);
  }

  lemma StartWouldSucceed(c: Config, db: DB, req: Request, ch: Choices, k: Key)
    requires AtomicSpin(c, db, req, true, ch).Ok? && k == KeyOf(req)
    ensures WouldSucceed(c, db, Start(SpinOp(req)), ch) && SpinUnder(Start(SpinOp(req)).op, k)
  {
    hide AtomicSpin;
  }

  lemma NothingFound(clientRef: string)
    ensures Answers(FUNDED, 1, clientRef, None)
  {
  }
}

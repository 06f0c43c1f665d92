/** What a client is answered: its own outcome when its spin commits, the stored one when it retries, and the right to try
    again when its spin was refused (internal/api/game.go, internal/rds/rds.go). */
module Replay {
  import opened Basics
  import opened Schema
  import opened Spin
  import opened Transactions
  import opened Integrity
  import opened Machine
  import opened Engine
  import opened Idempotency

  /** The event takes the key away: it expires, or a request under it releases it and the command is carried out. */
  predicate Removes(a: Api, e: Event, k: Key) {
    match e
    case Expire(key) => key == IdemKey(k)
    case Release(h, how) => h in a.handlers && KeyOf(a.handlers[h].req) == k && how != How.Fails
    case _ => false
  }

  /** No event of the schedule takes the key away. */
  ghost predicate Kept(c: Config, a: Api, es: seq<Event>, k: Key) {
    forall i | 0 <= i < |es| && Schedule(c, a, es[..i]).Some? :: !Removes(Schedule(c, a, es[..i]).value, es[i], k)
  }

  ghost predicate Stored(a: Api, k: Key, body: SpinResult) {
    IdemKey(k) in a.kv && a.kv[IdemKey(k)] == Some(body)
  }

  /** Nothing else overwrites a stored response: claims find the key there, and every response stored under it is the same. */
  lemma StoredStays(c: Config, a: Api, e: Event, k: Key, body: SpinResult)
    requires ApiInv(c, a) && Occurs(c, a, e).Some? && Stored(a, k, body) && !Removes(a, e, k)
    ensures Stored(Occurs(c, a, e).value, k, body)
  {
    assert IsOutcome(a, k, body);
    hide Inv, OutcomesTold, StoredAreOutcomes, RepliesAreOutcomes;
    if e.Store? {
      assert HandlerKnows(a, e.h);
      hide ApiInv;
      StoresTheSame(a, e.h, e.how, k, body);
    } else if e.Release? {
      hide ApiInv;
      ReleasesAnother(a, e.h, e.how, k, body);
    } else {
      hide ApiInv;
      KeysUntouched(c, a, e, k, body);
    }
  }

  lemma KeysUntouched(c: Config, a: Api, e: Event, k: Key, body: SpinResult)
    requires Occurs(c, a, e).Some? && Stored(a, k, body) && !Removes(a, e, k) && !e.Store? && !e.Release?
    ensures Stored(Occurs(c, a, e).value, k, body)
  {
    hide IdemKey, Next, AnswerOf;
  }

  lemma ReleasesAnother(a: Api, h: nat, how: How, k: Key, body: SpinResult)
    requires h in a.handlers && Stored(a, k, body) && !Removes(a, Release(h, how), k)
    ensures Stored(ReleaseStep(a, h, how), k, body)
  {
    if IdemKey(KeyOf(a.handlers[h].req)) == IdemKey(k) {
      KeysDiffer(KeyOf(a.handlers[h].req), k);
    }
    hide IdemKey;
  }

  lemma StoresTheSame(a: Api, h: nat, how: How, k: Key, body: SpinResult)
    requires h in a.handlers && a.handlers[h].stage.Storing? && HandlerKnows(a, h) && IsOutcome(a, k, body)
    requires Stored(a, k, body)
    ensures Stored(StoreStep(a, h, how), k, body)
  {
    if IdemKey(KeyOf(a.handlers[h].req)) == IdemKey(k) {
      KeysDiffer(KeyOf(a.handlers[h].req), k);
    }
    hide IdemKey;
  }

  lemma {:induction false} ScheduleStored(c: Config, a: Api, es: seq<Event>, k: Key, body: SpinResult)
    requires ValidConfig(c) && ApiInv(c, a) && Schedule(c, a, es).Some? && Stored(a, k, body) && Kept(c, a, es, k)
    ensures ApiInv(c, Schedule(c, a, es).value) && Stored(Schedule(c, a, es).value, k, body)
  {
    if es != [] {
      var before, e := es[..|es| - 1], es[|es| - 1];
      var b := Schedule(c, a, before).value;
      KeptBefore(c, a, es, k);
      assert Schedule(c, a, es) == Occurs(c, b, e);
      hide Schedule, Occurs, ApiInv, Stored, ValidConfig, Kept;
      ScheduleStored(c, a, before, k, body);
      StoredStays(c, b, e, k, body);
      EventKeepsInv(c, b, e);
    }
  }

  lemma KeptBefore(c: Config, a: Api, es: seq<Event>, k: Key)
    requires es != [] && Schedule(c, a, es).Some? && Kept(c, a, es, k)
    ensures Kept(c, a, es[..|es| - 1], k)
    ensures !Removes(Schedule(c, a, es[..|es| - 1]).value, es[|es| - 1], k)
  {
    var before := es[..|es| - 1];
    hide Removes;
    forall i | 0 <= i < |before| && Schedule(c, a, before[..i]).Some?
      ensures !Removes(Schedule(c, a, before[..i]).value, before[i], k)
    {
      assert before[..i] == es[..i];
    }
  }

  /** A retry is replayed. Once the response of a spin has been stored, and as long as its key is neither released nor
      expires: a request under the same reference that comes to claim loses and goes on to read, so it never plays; and
      when it reads, it is answered with exactly the stored response. */
  lemma RetryIsReplayed(c: Config, a0: Api, before: seq<Event>, first: nat, how: How, after: seq<Event>, h: nat)
    requires ValidConfig(c) && ApiInitial(a0) && Schedule(c, a0, before).Some? && how != How.Fails
    requires var a := Schedule(c, a0, before).value;
             && first in a.handlers && a.handlers[first].stage.Storing? && Occurs(c, a, Store(first, how)).Some?
             && var b, k := Occurs(c, a, Store(first, how)).value, KeyOf(a.handlers[first].req);
                && Schedule(c, b, after).Some? && Kept(c, b, after, k)
                && var d := Schedule(c, b, after).value;
                   h in d.handlers && KeyOf(d.handlers[h].req) == k
    ensures var a := Schedule(c, a0, before).value;
            var d := Schedule(c, Occurs(c, a, Store(first, how)).value, after).value;
            var reply := Reply(KeyOf(d.handlers[h].req), a.handlers[first].stage.body);
            && (IsAt(d, h, Claiming) ==>
                  && Occurs(c, d, Event.Claim(h, Works)).Some?
                  && IsAt(Occurs(c, d, Event.Claim(h, Works)).value, h, Reading))
            && (IsAt(d, h, Reading) ==>
                  && Occurs(c, d, Read(h, true)).Some?
                  && Occurs(c, d, Read(h, true)).value.replies == d.replies + [reply]
                  && h !in Occurs(c, d, Read(h, true)).value.handlers)
  {
    ScheduleKeepsInv(c, a0, before);
    var a := Schedule(c, a0, before).value;
    var b, k, body := Occurs(c, a, Store(first, how)).value, KeyOf(a.handlers[first].req), a.handlers[first].stage.body;
    hide Schedule, ApiInv, ValidConfig, ApiInitial, Kept, Removes;
    StoreIsKept(c, a, first, how);
    EventKeepsInv(c, a, Store(first, how));
    hide Occurs;
    ScheduleStored(c, b, after, k, body);
    AnswersFromStore(c, Schedule(c, b, after).value, h, k, body);
  }

  lemma StoreIsKept(c: Config, a: Api, h: nat, how: How)
    requires h in a.handlers && a.handlers[h].stage.Storing? && Occurs(c, a, Store(h, how)).Some? && how != How.Fails
    ensures Stored(Occurs(c, a, Store(h, how)).value, KeyOf(a.handlers[h].req), a.handlers[h].stage.body)
  {
    hide IdemKey;
  }

  lemma AnswersFromStore(c: Config, d: Api, h: nat, k: Key, body: SpinResult)
    requires h in d.handlers && KeyOf(d.handlers[h].req) == k && Stored(d, k, body)
    ensures IsAt(d, h, Claiming) ==>
              && Occurs(c, d, Event.Claim(h, Works)).Some?
              && IsAt(Occurs(c, d, Event.Claim(h, Works)).value, h, Reading)
    ensures IsAt(d, h, Reading) ==>
              && Occurs(c, d, Read(h, true)).Some?
              && Occurs(c, d, Read(h, true)).value.replies == d.replies + [Reply(k, body)]
              && h !in Occurs(c, d, Read(h, true)).value.handlers
  {
    hide IdemKey;
  }

  /******* Its own outcome *******/

  /** The event is a step of that request. */
  predicate StepOf(e: Event, h: nat) {
    match e
    case Arrive(x, _) => x == h
    case Claim(x, _) => x == h
    case Read(x, _) => x == h
    case Play(x) => x == h
    case Money(l, _) => TidOf(l) == h
    case Store(x, _) => x == h
    case Respond(x) => x == h
    case Release(x, _) => x == h
    case Crash(x) => x == h
    case Expire(_) => false
  }

  predicate NoStepOf(es: seq<Event>, h: nat) {
    forall e | e in es :: !StepOf(e, h)
  }

  lemma LeftAsItIs(c: Config, a: Api, e: Event, h: nat)
    requires Occurs(c, a, e).Some? && !StepOf(e, h) && h in a.handlers
    ensures h in Occurs(c, a, e).value.handlers && Occurs(c, a, e).value.handlers[h] == a.handlers[h]
  {
    hide Next, IdemKey, AnswerOf;
  }

  lemma {:induction false} LeftThroughout(c: Config, a: Api, es: seq<Event>, h: nat)
    requires Schedule(c, a, es).Some? && NoStepOf(es, h) && h in a.handlers
    ensures h in Schedule(c, a, es).value.handlers && Schedule(c, a, es).value.handlers[h] == a.handlers[h]
  {
    if es != [] {
      var before, e := es[..|es| - 1], es[|es| - 1];
      assert NoStepOf(before, h) && e in es;
      LeftThroughout(c, a, before, h);
      hide Occurs;
      LeftAsItIs(c, Schedule(c, a, before).value, e, h);
    }
  }

  /** A request whose spin commits, and is told so, is answered with that spin's own result, as the atomic spin computes it
      on the tables of that moment: whatever the store does to its response, and whatever others do in between. */
  lemma OwnOutcomeIsAnswered(
    c: Config, a0: Api, before: seq<Event>, l: Label, es1: seq<Event>, how: How, es2: seq<Event>)
    requires ValidConfig(c) && ApiInitial(a0) && Schedule(c, a0, before).Some?
    requires var a := Schedule(c, a0, before).value;
             && Committing(a.money, l) && IsAt(a, l.tid, Playing) && Occurs(c, a, Money(l, true)).Some?
             && NoStepOf(es1, l.tid) && NoStepOf(es2, l.tid)
             && var b := Occurs(c, a, Money(l, true)).value;
                && Schedule(c, b, es1).Some?
                && var d := Schedule(c, b, es1).value;
                   && Occurs(c, d, Store(l.tid, how)).Some?
                   && Schedule(c, Occurs(c, d, Store(l.tid, how)).value, es2).Some?
    ensures var a := Schedule(c, a0, before).value;
            var d := Schedule(c, Occurs(c, a, Money(l, true)).value, es1).value;
            var f := Schedule(c, Occurs(c, d, Store(l.tid, how)).value, es2).value;
            var req, ch := a.handlers[l.tid].req, a.money.txs[l.tid].ch;
            && AtomicSpin(c, a.money.db, req, true, ch).Ok?
            && Occurs(c, f, Respond(l.tid)).Some?
            && Occurs(c, f, Respond(l.tid)).value.replies ==
               f.replies + [Reply(KeyOf(req), AtomicSpin(c, a.money.db, req, true, ch).value.1)]
  {
    hide *;
    ScheduleKeepsInv(c, a0, before);
    var a := Schedule(c, a0, before).value;
    CommitTid(a.money, l);
    assert l.tid in a.handlers by { AtHandler(a, l.tid, Playing); }
    var h, req, ch := l.tid, a.handlers[l.tid].req, a.money.txs[l.tid].ch;
    CommitIsTold(c, a, l);
    var b := Occurs(c, a, Money(l, true)).value;
    LeftThroughout(c, b, es1, h);
    var d := Schedule(c, b, es1).value;
    var body := AtomicSpin(c, a.money.db, req, true, ch).value.1;
    StoringThenResponding(c, d, h, how, body);
    var e := Occurs(c, d, Store(h, how)).value;
    LeftThroughout(c, e, es2, h);
    RespondsWith(c, Schedule(c, e, es2).value, h, body);
  }

  lemma CommitTid(s: State, l: Label)
    requires Committing(s, l)
    ensures l.Forward? && l.tid in s.txs && s.txs[l.tid].pc == Commit
  {
  }

  lemma CommitIsTold(c: Config, a: Api, l: Label)
    requires ValidConfig(c) && ApiInv(c, a) && Committing(a.money, l) && IsAt(a, l.tid, Playing)
    requires Occurs(c, a, Money(l, true)).Some?
    ensures l.tid in a.handlers
    ensures var b := Occurs(c, a, Money(l, true)).value;
            var req, ch := a.handlers[l.tid].req, a.money.txs[l.tid].ch;
            && AtomicSpin(c, a.money.db, req, true, ch).Ok? && l.tid in b.handlers
            && b.handlers[l.tid] == Handler(req, Storing(AtomicSpin(c, a.money.db, req, true, ch).value.1))
  {
    hide *;
    AtHandler(a, l.tid, Playing);
    CommitTid(a.money, l);
    PlayingItsOwn(c, a, l.tid);
    var tx := a.money.txs[l.tid];
    Known(c, a.money, l.tid);
    GoodMoney(c, a.money);
    AnswerIsAtomic(c, tx, a.money.db);
    NextOfMoney(c, a, l, true);
    CommitStep(c, a.money, l);
    ToldOnCommit(c, a, l);
  }

  lemma AtHandler(a: Api, h: nat, stage: Stage)
    requires IsAt(a, h, stage)
    ensures h in a.handlers && a.handlers[h].stage == stage
  {
  }

  lemma PlayingItsOwn(c: Config, a: Api, h: nat)
    requires ApiInv(c, a) && h in a.handlers && h in a.money.txs
    ensures Inv(c, a.money) && a.money.txs[h].op == SpinOp(a.handlers[h].req)
  {
    hide Inv;
    assert HandlerKnows(a, h);
  }

  lemma NextOfMoney(c: Config, a: Api, l: Label, acknowledged: bool)
    requires Occurs(c, a, Money(l, acknowledged)).Some?
    ensures Next(c, a.money, l).Some?
  {
    hide Next, AnswerOf;
  }

  lemma ToldOnCommit(c: Config, a: Api, l: Label)
    requires l.Forward? && l.tid in a.money.txs && l.tid in a.handlers && a.handlers[l.tid].stage == Playing
    requires a.money.txs[l.tid].op == SpinOp(a.handlers[l.tid].req)
    requires Next(c, a.money, l).Some? && Next(c, a.money, l).value.log == a.money.log + [Entry(a.money.txs[l.tid].op, a.money.txs[l.tid].ch)]
    requires Occurs(c, a, Money(l, true)).Some?
    ensures var b := Occurs(c, a, Money(l, true)).value;
            && l.tid in b.handlers
            && b.handlers[l.tid] == Handler(a.handlers[l.tid].req, Storing(AnswerOf(c, a.money.txs[l.tid])))
  {
    hide Next, AnswerOf;
  }

  lemma GoodMoney(c: Config, s: State)
    requires Inv(c, s)
    ensures GoodDB(s.db)
  {
    hide GoodDB, AllKnown, AllIssued, AllApart;
  }

  lemma StoringThenResponding(c: Config, a: Api, h: nat, how: How, body: SpinResult)
    requires h in a.handlers && a.handlers[h].stage == Storing(body) && Occurs(c, a, Store(h, how)).Some?
    ensures var b := Occurs(c, a, Store(h, how)).value;
            h in b.handlers && b.handlers[h] == Handler(a.handlers[h].req, Responding(body))
  {
    hide IdemKey;
  }

  lemma RespondsWith(c: Config, a: Api, h: nat, body: SpinResult)
    requires h in a.handlers && a.handlers[h].stage == Responding(body)
    ensures Occurs(c, a, Respond(h)).Some?
    ensures Occurs(c, a, Respond(h)).value.replies == a.replies + [Reply(KeyOf(a.handlers[h].req), body)]
  {
  }

  /******* One at a time, and again after a refusal *******/

  ghost predicate Claimed(a: Api, k: Key) {
    IdemKey(k) in a.kv
  }

  lemma ClaimedStays(c: Config, a: Api, e: Event, k: Key)
    requires Occurs(c, a, e).Some? && Claimed(a, k) && !Removes(a, e, k)
    ensures Claimed(Occurs(c, a, e).value, k)
  {
    if e.Release? {
      if IdemKey(KeyOf(a.handlers[e.h].req)) == IdemKey(k) {
        KeysDiffer(KeyOf(a.handlers[e.h].req), k);
      }
      hide IdemKey;
    } else {
      hide IdemKey, Next, AnswerOf;
    }
  }

  lemma {:induction false} ScheduleClaimed(c: Config, a: Api, es: seq<Event>, k: Key)
    requires Schedule(c, a, es).Some? && Claimed(a, k) && Kept(c, a, es, k)
    ensures Claimed(Schedule(c, a, es).value, k)
  {
    if es != [] {
      var before, e := es[..|es| - 1], es[|es| - 1];
      KeptBefore(c, a, es, k);
      assert Schedule(c, a, es) == Occurs(c, Schedule(c, a, before).value, e);
      hide Schedule, Occurs, Claimed, Kept;
      ScheduleClaimed(c, a, before, k);
      ClaimedStays(c, Schedule(c, a, before).value, e, k);
    }
  }

  /** One request at a time. Of two that come to claim a free key, the first goes on to play; as long as the key is neither
      released nor expires, the second does not: it goes on to read, and is answered only from a stored response. */
  lemma ClaimExcludes(c: Config, a: Api, first: nat, after: seq<Event>, second: nat)
    requires IsAt(a, first, Claiming) && !Claimed(a, KeyOf(a.handlers[first].req))
    requires Occurs(c, a, Event.Claim(first, Works)).Some?
    requires var b, k := Occurs(c, a, Event.Claim(first, Works)).value, KeyOf(a.handlers[first].req);
             && Schedule(c, b, after).Some? && Kept(c, b, after, k)
             && var d := Schedule(c, b, after).value; second in d.handlers && KeyOf(d.handlers[second].req) == k
    ensures var b, k := Occurs(c, a, Event.Claim(first, Works)).value, KeyOf(a.handlers[first].req);
            var d := Schedule(c, b, after).value;
            && IsAt(b, first, Starting) && IdemKey(k) in d.kv
            && (IsAt(d, second, Claiming) ==>
                  && Occurs(c, d, Event.Claim(second, Works)).Some?
                  && IsAt(Occurs(c, d, Event.Claim(second, Works)).value, second, Reading))
            && (IsAt(d, second, Reading) ==>
                  && Occurs(c, d, Read(second, true)).Some?
                  && Occurs(c, d, Read(second, true)).value.replies ==
                     d.replies + match d.kv[IdemKey(k)] case Some(body) => [Reply(k, body)] case None => [])
  {
    var b, k := Occurs(c, a, Event.Claim(first, Works)).value, KeyOf(a.handlers[first].req);
    assert Claimed(b, k) && IsAt(b, first, Starting) by { hide IdemKey; }
    hide Schedule, Occurs, Claimed, Kept;
    ScheduleClaimed(c, b, after, k);
    LosesClaim(c, Schedule(c, b, after).value, second, k);
  }

  lemma LosesClaim(c: Config, d: Api, h: nat, k: Key)
    requires h in d.handlers && KeyOf(d.handlers[h].req) == k && Claimed(d, k)
    ensures IdemKey(k) in d.kv
    ensures IsAt(d, h, Claiming) ==>
              && Occurs(c, d, Event.Claim(h, Works)).Some?
              && IsAt(Occurs(c, d, Event.Claim(h, Works)).value, h, Reading)
    ensures IsAt(d, h, Reading) ==>
              && Occurs(c, d, Read(h, true)).Some?
              && Occurs(c, d, Read(h, true)).value.replies ==
                 d.replies + match d.kv[IdemKey(k)] case Some(body) => [Reply(k, body)] case None => []
  {
    hide IdemKey;
  }

  /** A claim that is reported as failed ends its request without an answer. If it took effect all the same, the key stays
      taken and empty until it expires; if not, nothing has happened. */
  lemma FailedClaims(c: Config, a: Api, h: nat)
    requires IsAt(a, h, Claiming) && !Claimed(a, KeyOf(a.handlers[h].req))
    ensures var key := IdemKey(KeyOf(a.handlers[h].req));
            && Occurs(c, a, Event.Claim(h, Lost)) == Some(a.(handlers := a.handlers - {h}, kv := a.kv[key := None]))
            && Occurs(c, a, Event.Claim(h, How.Fails)) == Some(a.(handlers := a.handlers - {h}))
  {
    hide IdemKey;
  }

  /** A refused spin gives the reference back: the refusal leads to a release, and once that is carried out a request under
      the reference that comes to claim wins and goes on to play. */
  lemma RefusalGivesBack(c: Config, a: Api, l: Label, acknowledged: bool)
    requires l.Forward? && l.tid in a.money.txs && IsAt(a, l.tid, Playing)
    requires Exec(c, a.money.txs[l.tid], a.money.db, a.money.seqs, l.word, l.entropy).Fails?
    requires Occurs(c, a, Money(l, acknowledged)).Some?
    ensures var b := Occurs(c, a, Money(l, acknowledged)).value;
            b.replies == a.replies && IsAt(b, l.tid, Releasing) && b.handlers[l.tid].req == a.handlers[l.tid].req
  {
    assert Next(c, a.money, l).Some? by { hide Next, AnswerOf; }
    StepShape(c, a.money, l);
    hide Next, AnswerOf, Exec;
  }

  lemma RollbackGivesBack(c: Config, a: Api, h: nat, acknowledged: bool)
    requires h in a.money.txs && IsAt(a, h, Playing)
    ensures Occurs(c, a, Money(Rollback(h), acknowledged)).Some?
    ensures var b := Occurs(c, a, Money(Rollback(h), acknowledged)).value;
            && b.replies == a.replies && IsAt(b, h, Releasing) && b.handlers[h].req == a.handlers[h].req
            && b.money.db == a.money.db
  {
    hide AnswerOf;
  }

  lemma ReleasedCanRetry(c: Config, a: Api, h: nat, how: How)
    requires IsAt(a, h, Releasing) && how != How.Fails && Occurs(c, a, Release(h, how)).Some?
    ensures var b, k := Occurs(c, a, Release(h, how)).value, KeyOf(a.handlers[h].req);
            && b.replies == a.replies && h !in b.handlers && !Claimed(b, k)
            && forall x | IsAt(b, x, Claiming) && KeyOf(b.handlers[x].req) == k ::
                 && Occurs(c, b, Event.Claim(x, Works)).Some?
                 && IsAt(Occurs(c, b, Event.Claim(x, Works)).value, x, Starting)
  {
    hide IdemKey;
  }

  /** A commit that takes effect but is reported as failed: the request releases the key and answers nothing, and yet the
      spin is on record, so that no spin under its reference can go through any more. */
  lemma UnheardCommit(c: Config, a0: Api, before: seq<Event>, l: Label)
    requires ValidConfig(c) && ApiInitial(a0) && Schedule(c, a0, before).Some?
    requires var a := Schedule(c, a0, before).value;
             Committing(a.money, l) && IsAt(a, l.tid, Playing) && Occurs(c, a, Money(l, false)).Some?
    ensures var a := Schedule(c, a0, before).value;
            var b, req := Occurs(c, a, Money(l, false)).value, a.handlers[l.tid].req;
            && b.replies == a.replies && l.tid in b.handlers && b.handlers[l.tid] == Handler(req, Releasing)
            && Taken(b.money.db.spins, req.user, req.clientRef)
            && forall req', entropy, ch | KeyOf(req') == KeyOf(req) :: AtomicSpin(c, b.money.db, req', entropy, ch).Err?
  {
    hide *;
    ScheduleKeepsInv(c, a0, before);
    var a := Schedule(c, a0, before).value;
    AtHandler(a, l.tid, Playing);
    CommitTid(a.money, l);
    PlayingItsOwn(c, a, l.tid);
    var req, tx := a.handlers[l.tid].req, a.money.txs[l.tid];
    Known(c, a.money, l.tid);
    GoodMoney(c, a.money);
    AnswerIsAtomic(c, tx, a.money.db);
    NextOfMoney(c, a, l, false);
    CommitStep(c, a.money, l);
    ReleasingOnCommit(c, a, l);
    var b := Occurs(c, a, Money(l, false)).value;
    TellsTaken(b.money.db, KeyOf(req), AnswerOf(c, tx));
    KeyParts(req);
    forall req', entropy, ch | KeyOf(req') == KeyOf(req) ensures AtomicSpin(c, b.money.db, req', entropy, ch).Err? {
      KeyParts(req');
      TakenFails(c, b.money.db, req', entropy, ch);
    }
  }

  lemma KeyParts(req: Request)
    ensures KeyOf(req) == Key(req.user, req.clientRef)
  {
  }

  lemma TellsTaken(db: DB, k: Key, body: SpinResult)
    requires Tells(db, k, body)
    ensures Taken(db.spins, k.user, k.clientRef)
  {
  }

  lemma TakenFails(c: Config, db: DB, req: Request, entropy: bool, ch: Choices)
    requires Taken(db.spins, req.user, req.clientRef)
    ensures AtomicSpin(c, db, req, entropy, ch).Err?
  {
    hide Veto, Taken, MakePlan, MoneyError, AfterRef, SpinChecks, Payee;
  }

  lemma ReleasingOnCommit(c: Config, a: Api, l: Label)
    requires l.Forward? && l.tid in a.money.txs && l.tid in a.handlers && a.handlers[l.tid].stage == Playing
    requires a.money.txs[l.tid].op == SpinOp(a.handlers[l.tid].req)
    requires Next(c, a.money, l).Some? && Next(c, a.money, l).value.log == a.money.log + [Entry(a.money.txs[l.tid].op, a.money.txs[l.tid].ch)]
    requires Occurs(c, a, Money(l, false)).Some?
    ensures var b := Occurs(c, a, Money(l, false)).value;
            && b.replies == a.replies && b.money == Next(c, a.money, l).value && l.tid in b.handlers
            && b.handlers[l.tid] == Handler(a.handlers[l.tid].req, Releasing)
  {
    hide Next, AnswerOf;
  }

  /******* What is accepted at all *******/

  /** A reference of 1 to 64 characters. */
  predicate GoodReference(clientRef: string) {
    1 <= |clientRef| <= 64
  }

  /** Every request with such a reference is taken in, under any number not in use. */
  lemma GoodReferencesArrive(c: Config, a: Api, h: nat, req: Request)
    requires h !in a.handlers && h !in a.money.txs
    ensures Occurs(c, a, Arrive(h, req)).Some? <==> GoodReference(req.clientRef)
  {
  }

  ghost predicate GoodReferences(a: Api) {
    && (forall h | h in a.handlers :: GoodReference(a.handlers[h].req.clientRef))
    && forall r | r in a.replies :: GoodReference(r.key.clientRef)
  }

  lemma EventKeepsReferences(c: Config, a: Api, e: Event)
    requires GoodReferences(a) && Occurs(c, a, e).Some?
    ensures GoodReferences(Occurs(c, a, e).value)
  {
    hide Next, AnswerOf, IdemKey;
  }

  /** And over any schedule no other is ever worked on or answered. */
  lemma {:induction false} OnlyGoodReferences(c: Config, a0: Api, es: seq<Event>)
    requires ApiInitial(a0) && Schedule(c, a0, es).Some?
    ensures GoodReferences(Schedule(c, a0, es).value)
  {
    if es != [] {
      OnlyGoodReferences(c, a0, es[..|es| - 1]);
      hide Occurs, ApiInitial, GoodReferences;
      EventKeepsReferences(c, Schedule(c, a0, es[..|es| - 1]).value, es[|es| - 1]);
    }
  }
}

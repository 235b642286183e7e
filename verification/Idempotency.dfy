/** app/core/idempotency.py: idempotency keys.  A request's transaction holds its effects and its saved
    response; UNIQUE (key, route) makes a second insert wait for the first and then fail. */
module Idempotency {
  type Hash = nat
  type RequestId = nat

  datatype Slot = Slot(key: string, route: string)

  datatype Reply = Reply(status: nat, body: string)

  /** A row of request_idempotency. */
  datatype Saved = Saved(hash: Hash, reply: Reply)

  // One request

  predicate KeyChar(c: char) {
    'A' <= c <= 'Z' || 'a' <= c <= 'z' || '0' <= c <= '9' || c == '_' || c == '-'
  }

  /** The pattern's end anchor also matches before a final newline. */
  function Stem(key: string): string {
    if key != "" && key[|key| - 1] == '\n' then key[..|key| - 1] else key
  }

  predicate StemOk(stem: string) {
    8 <= |stem| <= 128 && forall k | 0 <= k < |stem| :: KeyChar(stem[k])
  }

  predicate KeyOk(key: string) {
    StemOk(Stem(key))
  }

  /** A key has 8 to 128 letters, digits, underscores and dashes; one newline at its end goes unnoticed. */
  lemma KeyShape(key: string)
    requires forall k | 0 <= k < |key| :: key[k] != '\n'
    ensures KeyOk(key) <==>
            8 <= |key| <= 128 &&
            forall k | 0 <= k < |key| ::
              ('a' <= key[k] <= 'z' || 'A' <= key[k] <= 'Z' || '0' <= key[k] <= '9' || key[k] == '_' || key[k] == '-')
    ensures KeyOk(key + "\n") <==> KeyOk(key)
  {
    assert Stem(key + "\n") == key == Stem(key);
  }

  datatype Lookup = KeyMissing | KeyInvalid | Conflict | Proceed | Replay(reply: Reply)

  function LookedUp(rows: map<Slot, Saved>, slot: Slot, hash: Hash): Lookup {
    if slot.key == "" then KeyMissing
    else if !KeyOk(slot.key) then KeyInvalid
    else if slot !in rows then Proceed
    else if rows[slot].hash != hash then Conflict
    else Replay(rows[slot].reply)
  }

  class RequestIdempotency {
    var rows: map<Slot, Saved>

    constructor ()
      ensures rows == map[]
    {
      rows := map[];
    }

    /** Goes ahead only on a well-formed key without a row, replays exactly what was saved for this body, and
        refuses a key that was used with another one. */
    method IdempotencyRequired(slot: Slot, hash: Hash) returns (r: Lookup)
      ensures r == Proceed <==> KeyOk(slot.key) && slot !in rows
      ensures forall reply: Reply :: r == Replay(reply) <==>
              KeyOk(slot.key) && slot in rows && rows[slot] == Saved(hash, reply)
      ensures r == Conflict <==> KeyOk(slot.key) && slot in rows && rows[slot].hash != hash
      ensures r == KeyMissing <==> slot.key == ""
      ensures r == KeyInvalid <==> slot.key != "" && !KeyOk(slot.key)
      ensures r == LookedUp(rows, slot, hash)
    {
      if slot.key == "" {
        return KeyMissing;
      }
      if !KeyOk(slot.key) {
        return KeyInvalid;
      }
      if slot !in rows {
        return Proceed;
      }
      var existing := rows[slot];
      if existing.hash != hash {
        return Conflict;
      }
      return Replay(existing.reply);
    }

    /** result is what execute() would answer; the outcome says whether it ran. */
    method WithIdempotency(slot: Slot, hash: Hash, found: Lookup, result: Reply) returns (reply: Reply, executed: bool)
      requires found == LookedUp(rows, slot, hash) && (found.Proceed? || found.Replay?)
      modifies this
      ensures executed <==> slot !in old(rows)
      ensures rows == if executed then old(rows)[slot := Saved(hash, result)] else old(rows)
      ensures slot in rows && rows[slot] == Saved(hash, reply)
    {
      if found.Replay? {
        return found.reply, false;
      }
      rows := rows[slot := Saved(hash, result)];
      return result, true;
    }
  }

  // Concurrent requests

  /** After the lookup found nothing; after execute; after the insert, holding the unique key. */
  datatype Phase = Executing | Effected(reply: Reply) | Inserted(reply: Reply)

  datatype Request = Request(slot: Slot, hash: Hash, phase: Phase)

  datatype Answer = Fresh(reply: Reply) | Replayed(reply: Reply) | Refused(why: Lookup) | Failed

  datatype Answered = Answered(slot: Slot, hash: Hash, answer: Answer)

  datatype Effect = Effect(slot: Slot, author: RequestId, reply: Reply)

  /** effects logs the committed effects, in commit order. */
  datatype Sys = Sys(rows: map<Slot, Saved>, effects: seq<Effect>, running: map<RequestId, Request>,
                     answers: map<RequestId, Answered>)

  datatype Action =
    | Arrive(id: RequestId, slot: Slot, hash: Hash)
    | Execute(id: RequestId, reply: Reply)
    | Insert(id: RequestId)
    | Commit(id: RequestId)
    | Fail(id: RequestId)

  predicate InsertedBy(s: Sys, id: RequestId, slot: Slot) {
    id in s.running && s.running[id].slot == slot && s.running[id].phase.Inserted?
  }

  predicate Enabled(s: Sys, a: Action) {
    match a
    case Arrive(id, _, _) => id !in s.running && id !in s.answers
    case Execute(id, _) => id in s.running && s.running[id].phase.Executing?
    case Insert(id) =>
      id in s.running && s.running[id].phase.Effected? && forall u <- s.running :: !InsertedBy(s, u, s.running[id].slot)
    case Commit(id) => id in s.running && s.running[id].phase.Inserted?
    case Fail(id) => id in s.running
  }

  function Answers(s: Sys, id: RequestId, slot: Slot, hash: Hash, answer: Answer): Sys {
    s.(running := s.running - {id}, answers := s.answers[id := Answered(slot, hash, answer)])
  }

  function Committed(s: Sys, id: RequestId, q: Request): Sys
    requires q.phase.Inserted?
  {
    Answers(s.(rows := s.rows[q.slot := Saved(q.hash, q.phase.reply)],
               effects := s.effects + [Effect(q.slot, id, q.phase.reply)]),
            id, q.slot, q.hash, Fresh(q.phase.reply))
  }

  function Next(s: Sys, a: Action): Sys
    requires Enabled(s, a)
  {
    match a
    case Arrive(id, slot, hash) =>
      (match LookedUp(s.rows, slot, hash)
       case Proceed => s.(running := s.running[id := Request(slot, hash, Executing)])
       case Replay(reply) => Answers(s, id, slot, hash, Replayed(reply))
       case other => Answers(s, id, slot, hash, Refused(other)))
    case Execute(id, reply) => s.(running := s.running[id := s.running[id].(phase := Effected(reply))])
    case Insert(id) =>
      var q := s.running[id];
      if q.slot in s.rows then Answers(s, id, q.slot, q.hash, Failed)
      else s.(running := s.running[id := q.(phase := Inserted(q.phase.reply))])
    case Commit(id) => Committed(s, id, s.running[id])
    case Fail(id) => Answers(s, id, s.running[id].slot, s.running[id].hash, Failed)
  }

  function EffectsOn(effects: seq<Effect>, slot: Slot): nat {
    if effects == [] then 0
    else EffectsOn(effects[..|effects| - 1], slot) + if effects[|effects| - 1].slot == slot then 1 else 0
  }

  ghost predicate AnswerOk(s: Sys, id: RequestId)
    requires id in s.answers
  {
    var q := s.answers[id];
    match q.answer
    case Fresh(reply) =>
      q.slot in s.rows && s.rows[q.slot] == Saved(q.hash, reply) && Effect(q.slot, id, reply) in s.effects
    case Replayed(reply) => q.slot in s.rows && s.rows[q.slot] == Saved(q.hash, reply)
    case Refused(why) => why.Conflict? ==> q.slot in s.rows && s.rows[q.slot].hash != q.hash
    case Failed => forall e <- s.effects :: e.author != id
  }

  ghost predicate Safe(s: Sys) {
    && (forall slot: Slot :: EffectsOn(s.effects, slot) == if slot in s.rows then 1 else 0)
    && (forall e <- s.effects ::
          && e.author in s.answers && s.answers[e.author].answer == Fresh(e.reply)
          && s.answers[e.author].slot == e.slot)
    && (forall t <- s.running :: t !in s.answers && (s.running[t].phase.Inserted? ==> s.running[t].slot !in s.rows))
    && (forall t <- s.running, u <- s.running |
          InsertedBy(s, t, s.running[t].slot) && InsertedBy(s, u, s.running[t].slot) :: t == u)
    && (forall id <- s.answers :: AnswerOk(s, id))
  }

  lemma CommitCounts(s: Sys, id: RequestId, q: Request, slot: Slot)
    requires q.phase.Inserted? && q.slot !in s.rows
    requires EffectsOn(s.effects, slot) == if slot in s.rows then 1 else 0
    ensures var r := Committed(s, id, q); EffectsOn(r.effects, slot) == if slot in r.rows then 1 else 0
  {
    assert Committed(s, id, q).effects[..|s.effects|] == s.effects;
  }

  lemma CommitKeepsAnswer(s: Sys, id: RequestId, q: Request, t: RequestId)
    requires q.phase.Inserted? && q.slot !in s.rows && t in s.answers && t != id && AnswerOk(s, t)
    ensures AnswerOk(Committed(s, id, q), t)
  {
  }

  lemma CommitAnswers(s: Sys, id: RequestId, q: Request)
    requires q.phase.Inserted?
    ensures AnswerOk(Committed(s, id, q), id)
  {
    var e := Effect(q.slot, id, q.phase.reply);
    assert (s.effects + [e])[|s.effects|] == e;
  }

  lemma CommitSafe(s: Sys, id: RequestId)
    requires Safe(s) && id in s.running && s.running[id].phase.Inserted?
    ensures Safe(Committed(s, id, s.running[id]))
  {
    var q := s.running[id];
    var r := Committed(s, id, q);
    forall slot: Slot
      ensures EffectsOn(r.effects, slot) == if slot in r.rows then 1 else 0
    {
      CommitCounts(s, id, q, slot);
    }
    CommitAnswers(s, id, q);
    forall t <- s.answers | t != id
      ensures AnswerOk(r, t)
    {
      CommitKeepsAnswer(s, id, q, t);
    }
    OthersStillRunning(s, id);
  }

  /** No other running request has inserted the slot that id commits. */
  lemma OthersStillRunning(s: Sys, id: RequestId)
    requires Safe(s) && id in s.running && s.running[id].phase.Inserted?
    ensures var r := Committed(s, id, s.running[id]);
            && (forall t <- r.running ::
                  t !in r.answers && (r.running[t].phase.Inserted? ==> r.running[t].slot !in r.rows))
            && (forall t <- r.running, u <- r.running |
                  InsertedBy(r, t, r.running[t].slot) && InsertedBy(r, u, r.running[t].slot) :: t == u)
  {
    var r := Committed(s, id, s.running[id]);
    assert InsertedBy(s, id, s.running[id].slot);
    forall t <- r.running
      ensures r.running[t].phase.Inserted? ==> r.running[t].slot !in r.rows
    {
      assert t in s.running && (s.running[t].phase.Inserted? ==> InsertedBy(s, t, s.running[t].slot));
    }
    forall t <- r.running, u <- r.running | InsertedBy(r, t, r.running[t].slot) && InsertedBy(r, u, r.running[t].slot)
      ensures t == u
    {
      assert InsertedBy(s, t, s.running[t].slot) && InsertedBy(s, u, s.running[t].slot);
    }
  }

  lemma AnswerSafe(s: Sys, id: RequestId, slot: Slot, hash: Hash, answer: Answer)
    requires Safe(s) && id !in s.answers && AnswerOk(Answers(s, id, slot, hash, answer), id)
    ensures Safe(Answers(s, id, slot, hash, answer))
  {
    var r := Answers(s, id, slot, hash, answer);
    forall t <- r.answers
      ensures AnswerOk(r, t)
    {
      assert t != id ==> AnswerOk(s, t);
    }
  }

  /** A running request moves on without committing anything. */
  lemma PhaseSafe(s: Sys, id: RequestId, q: Request)
    requires Safe(s) && id !in s.answers
    requires q.phase.Inserted? ==> q.slot !in s.rows && forall u <- s.running :: !InsertedBy(s, u, q.slot)
    ensures Safe(s.(running := s.running[id := q]))
  {
    var r := s.(running := s.running[id := q]);
    forall t <- r.answers
      ensures AnswerOk(r, t)
    {
      assert AnswerOk(s, t);
    }
    forall t <- r.running, u <- r.running | InsertedBy(r, t, r.running[t].slot) && InsertedBy(r, u, r.running[t].slot)
      ensures t == u
    {
      assert t != id ==> InsertedBy(s, t, r.running[t].slot);
      assert u != id ==> InsertedBy(s, u, r.running[t].slot);
    }
  }

  lemma ArriveSafe(s: Sys, id: RequestId, slot: Slot, hash: Hash)
    requires Safe(s) && Enabled(s, Arrive(id, slot, hash))
    ensures Safe(Next(s, Arrive(id, slot, hash)))
  {
    var found := LookedUp(s.rows, slot, hash);
    if found.Proceed? {
      PhaseSafe(s, id, Request(slot, hash, Executing));
    } else if found.Replay? {
      AnswerSafe(s, id, slot, hash, Replayed(found.reply));
    } else {
      AnswerSafe(s, id, slot, hash, Refused(found));
    }
  }

  lemma InsertSafe(s: Sys, id: RequestId)
    requires Safe(s) && Enabled(s, Insert(id))
    ensures Safe(Next(s, Insert(id)))
  {
    var q := s.running[id];
    if q.slot in s.rows {
      AnswerSafe(s, id, q.slot, q.hash, Failed);
    } else {
      PhaseSafe(s, id, q.(phase := Inserted(q.phase.reply)));
    }
  }

  lemma StepSafe(s: Sys, a: Action)
    requires Safe(s) && Enabled(s, a)
    ensures Safe(Next(s, a))
  {
    if a.Arrive? {
      ArriveSafe(s, a.id, a.slot, a.hash);
    } else if a.Execute? {
      PhaseSafe(s, a.id, s.running[a.id].(phase := Effected(a.reply)));
    } else if a.Insert? {
      InsertSafe(s, a.id);
    } else if a.Commit? {
      CommitSafe(s, a.id);
    } else {
      AnswerSafe(s, a.id, s.running[a.id].slot, s.running[a.id].hash, Failed);
    }
  }

  ghost predicate Executes(s: Sys, actions: seq<Action>, r: Sys)
    decreases |actions|
  {
    if actions == [] then r == s else Enabled(s, actions[0]) && Executes(Next(s, actions[0]), actions[1..], r)
  }

  lemma StepOnlyAdds(s: Sys, a: Action)
    requires Safe(s) && Enabled(s, a)
    ensures var r := Next(s, a);
            (forall slot <- s.rows :: slot in r.rows && r.rows[slot] == s.rows[slot]) && s.effects <= r.effects
  {
  }

  lemma {:induction false} RunSafe(s: Sys, actions: seq<Action>, r: Sys)
    requires Safe(s) && Executes(s, actions, r)
    ensures Safe(r)
    decreases |actions|
  {
    if actions != [] {
      StepSafe(s, actions[0]);
      RunSafe(Next(s, actions[0]), actions[1..], r);
    }
  }

  /** Rows are never overwritten, and effects never taken back. */
  lemma {:induction false} RunOnlyAdds(s: Sys, actions: seq<Action>, r: Sys, slot: Slot)
    requires Safe(s) && Executes(s, actions, r)
    ensures slot in s.rows ==> slot in r.rows && r.rows[slot] == s.rows[slot]
    ensures s.effects <= r.effects
    decreases |actions|
  {
    if actions != [] {
      StepSafe(s, actions[0]);
      StepOnlyAdds(s, actions[0]);
      RunOnlyAdds(Next(s, actions[0]), actions[1..], r, slot);
    }
  }

  const EMPTY := Sys(map[], [], map[], map[])

  /** However requests interleave: at most one effect commits per key and route, and everybody who is
      answered with a result sent the same body and gets the same status and body. */
  lemma AtMostOneEffect(actions: seq<Action>, r: Sys, slot: Slot)
    requires Executes(EMPTY, actions, r)
    ensures EffectsOn(r.effects, slot) <= 1
    ensures forall t <- r.answers, u <- r.answers |
              && r.answers[t].slot == slot && (r.answers[t].answer.Fresh? || r.answers[t].answer.Replayed?)
              && r.answers[u].slot == slot && (r.answers[u].answer.Fresh? || r.answers[u].answer.Replayed?) ::
              r.answers[t].hash == r.answers[u].hash && r.answers[t].answer.reply == r.answers[u].answer.reply
  {
    RunSafe(EMPTY, actions, r);
    forall t <- r.answers
      ensures AnswerOk(r, t)
    {
    }
  }

  /** Once a request with a valid key has committed, every later request on its key and route is answered
      at once, without a further effect: with the same reply if its body is the same, refused if not. */
  lemma LaterRequestsReplay(s: Sys, actions: seq<Action>, r: Sys, slot: Slot, id: RequestId, hash: Hash)
    requires Safe(s) && Executes(s, actions, r) && slot in s.rows && KeyOk(slot.key)
    requires Enabled(r, Arrive(id, slot, hash))
    ensures var q := Next(r, Arrive(id, slot, hash));
            && q.effects == r.effects && q.running == r.running && id in q.answers
            && q.answers[id].answer ==
               if hash == s.rows[slot].hash then Replayed(s.rows[slot].reply) else Refused(Conflict)
  {
    RunOnlyAdds(s, actions, r, slot);
    assert id !in r.running;
  }

  // With a clean-up job

  /** What a job that enforced the documented 24 hours would do to a row. */
  datatype Event = Do(action: Action) | Purge(slot: Slot)

  predicate Possible(s: Sys, e: Event) {
    e.Do? ==> Enabled(s, e.action)
  }

  function After(s: Sys, e: Event): Sys
    requires Possible(s, e)
  {
    match e
    case Do(a) => Next(s, a)
    case Purge(slot) => s.(rows := s.rows - {slot})
  }

  ghost predicate Cleaned(s: Sys, es: seq<Event>, r: Sys)
    decreases |es|
  {
    if es == [] then r == s else Possible(s, es[0]) && Cleaned(After(s, es[0]), es[1..], r)
  }

  /** How often a row of the slot was there to be purged. */
  function Purged(s: Sys, es: seq<Event>, slot: Slot): nat
    decreases |es|
  {
    if es == [] || !Possible(s, es[0]) then 0
    else (if es[0] == Purge(slot) && slot in s.rows then 1 else 0) + Purged(After(s, es[0]), es[1..], slot)
  }

  /** The unique key is held by one uncommitted insert or by one committed row. */
  predicate KeyHeldOnce(s: Sys, slot: Slot) {
    && (forall t <- s.running :: InsertedBy(s, t, slot) ==> slot !in s.rows)
    && (forall t <- s.running, u <- s.running | InsertedBy(s, t, slot) && InsertedBy(s, u, slot) :: t == u)
  }

  function Present(s: Sys, slot: Slot): nat {
    if slot in s.rows then 1 else 0
  }

  lemma StepHoldsOnce(s: Sys, a: Action, slot: Slot)
    requires KeyHeldOnce(s, slot) && Enabled(s, a)
    ensures KeyHeldOnce(Next(s, a), slot)
  {
    var r := Next(s, a);
    if a.Commit? {
      assert InsertedBy(s, a.id, s.running[a.id].slot);
      assert forall t <- r.running :: t in s.running && (InsertedBy(r, t, slot) ==> InsertedBy(s, t, slot));
    } else {
      assert forall t <- r.running :: InsertedBy(r, t, slot) ==> InsertedBy(s, t, slot) || (a.Insert? && t == a.id);
    }
  }

  lemma StepCounts(s: Sys, a: Action, slot: Slot)
    requires KeyHeldOnce(s, slot) && Enabled(s, a)
    ensures var r := Next(s, a);
            EffectsOn(r.effects, slot) - Present(r, slot) == EffectsOn(s.effects, slot) - Present(s, slot)
  {
    if a.Commit? {
      var q := s.running[a.id];
      assert InsertedBy(s, a.id, q.slot);
      assert Committed(s, a.id, q).effects[..|s.effects|] == s.effects;
    }
  }

  lemma {:induction false} PurgesAccount(s: Sys, es: seq<Event>, r: Sys, slot: Slot)
    requires KeyHeldOnce(s, slot) && Cleaned(s, es, r)
    ensures EffectsOn(r.effects, slot) - Present(r, slot) ==
            EffectsOn(s.effects, slot) - Present(s, slot) + Purged(s, es, slot)
    decreases |es|
  {
    if es != [] {
      var m := After(s, es[0]);
      if es[0].Do? {
        StepHoldsOnce(s, es[0].action, slot);
        StepCounts(s, es[0].action, slot);
      } else {
        assert forall t <- m.running :: InsertedBy(m, t, slot) ==> InsertedBy(s, t, slot);
      }
      PurgesAccount(m, es[1..], r, slot);
    }
  }

  /** With a clean-up job, the effects on a slot are its row, if it is there, and one for every row that was
      purged: a second effect commits only after a purge. */
  lemma EffectsAndPurges(es: seq<Event>, r: Sys, slot: Slot)
    requires Cleaned(EMPTY, es, r)
    ensures EffectsOn(r.effects, slot) == Present(r, slot) + Purged(EMPTY, es, slot)
  {
    PurgesAccount(EMPTY, es, r, slot);
  }

  lemma CleanedStep(s: Sys, e: Event, es: seq<Event>, r: Sys)
    requires Possible(s, e) && Cleaned(After(s, e), es, r)
    ensures Cleaned(s, [e] + es, r)
  {
    assert ([e] + es)[1..] == es;
  }

  /** And after one, the same request always can execute again. */
  lemma PurgedKeyExecutesAgain(s: Sys, slot: Slot, id: RequestId, hash: Hash, reply: Reply) returns (r: Sys)
    requires Safe(s) && slot in s.rows && KeyOk(slot.key) && id !in s.running && id !in s.answers
    ensures Cleaned(s, [Purge(slot)] + ([Do(Arrive(id, slot, hash))] + ([Do(Execute(id, reply))] +
                       ([Do(Insert(id))] + ([Do(Commit(id))] + [])))), r)
    ensures EffectsOn(r.effects, slot) == EffectsOn(s.effects, slot) + 1
  {
    var a := s.(rows := s.rows - {slot});
    var b := a.(running := a.running[id := Request(slot, hash, Executing)]);
    var c := a.(running := a.running[id := Request(slot, hash, Effected(reply))]);
    var d := a.(running := a.running[id := Request(slot, hash, Inserted(reply))]);
    assert Next(a, Arrive(id, slot, hash)) == b;
    assert Next(b, Execute(id, reply)) == c;
    forall u <- c.running
      ensures !InsertedBy(c, u, slot)
    {
      assert u != id ==> u in s.running && s.running[u] == c.running[u];
    }
    assert Next(c, Insert(id)) == d;
    r := Next(d, Commit(id));
    assert r.effects[..|s.effects|] == s.effects;
    CleanedStep(d, Do(Commit(id)), [], r);
    CleanedStep(c, Do(Insert(id)), [Do(Commit(id))] + [], r);
    CleanedStep(b, Do(Execute(id, reply)), [Do(Insert(id))] + ([Do(Commit(id))] + []), r);
    CleanedStep(a, Do(Arrive(id, slot, hash)),
                [Do(Execute(id, reply))] + ([Do(Insert(id))] + ([Do(Commit(id))] + [])), r);
    CleanedStep(s, Purge(slot), [Do(Arrive(id, slot, hash))] + ([Do(Execute(id, reply))] +
                                ([Do(Insert(id))] + ([Do(Commit(id))] + []))), r);
  }
}

/** What the pipeline can still do: from every reachable state each record can be brought to a table or to the
    dead letters, unless its processor raises on it whatever it observes; such a record is passed by no run. */
module PipelineProgress {
  import opened Common
  import opened Processors
  import opened RetryWorker
  import opened PipelineWorld
  import opened PipelineSafety

  /** The world after some actions, if each is enabled in its turn. */
  function Play(c: Config, w: World, actions: seq<Step>): Option<World>
    decreases |actions|
  {
    if actions == [] then Some(w)
    else if !Enabled(w, actions[0]) then None
    else Play(c, Next(c, w, actions[0]), actions[1..])
  }

  lemma {:induction false} PlayAppend(c: Config, w: World, a: seq<Step>, b: seq<Step>)
    requires Play(c, w, a).Some?
    ensures Play(c, w, a + b) == Play(c, Play(c, w, a).value, b)
    decreases |a|
  {
    hide Next, Enabled;
    if a == [] {
      assert a + b == b;
    } else {
      PlayAppend(c, Next(c, w, a[0]), a[1..], b);
      assert (a + b)[1..] == a[1..] + b;
    }
  }

  lemma {:induction false} PlayKeepsInv(c: Config, w: World, actions: seq<Step>)
    requires Inv(c, w) && Play(c, w, actions).Some?
    ensures Inv(c, Play(c, w, actions).value) && Grows(w, Play(c, w, actions).value)
    decreases |actions|
  {
    hide Next, Enabled, Inv;
    if actions != [] {
      var w' := Next(c, w, actions[0]);
      NextKeepsInv(c, w, actions[0]);
      NextIsMonotone(c, w, actions[0]);
      PlayKeepsInv(c, w', actions[1..]);
    }
  }

  // ---- one record ----------------------------------------------------------------------------------------

  lemma {:induction false} FreshId(used: set<nat>) returns (id: nat)
    ensures forall k :: k in used ==> k < id
  {
    if used == {} {
      id := 0;
    } else {
      var k :| k in used;
      var rest := FreshId(used - {k});
      id := Max(rest, k + 1);
      assert forall j :: j in used ==> j == k || j in used - {k};
    }
  }

  predicate Unowned(w: World, p: PartitionId) {
    forall id :: id in w.members ==> p !in w.members[id].owned
  }

  /** The owner of a partition can go away. */
  lemma CanBeFreed(c: Config, w: World, p: PartitionId) returns (actions: seq<Step>, w': World)
    requires Inv(c, w)
    ensures Play(c, w, actions) == Some(w')
    ensures w'.logs == w.logs && w'.committed == w.committed && Unowned(w', p)
  {
    hide LogsOk, MemberOk;
    if Unowned(w, p) {
      actions, w' := [], w;
    } else {
      var id :| id in w.members && p in w.members[id].owned;
      assert Owns(w, id, p);
      w' := w.(members := w.members - {id});
      actions := [Crash(id)];
      PlayOne(c, w, Crash(id));
      forall k | k in w'.members ensures p !in w'.members[k].owned {
        assert Owns(w, k, p) ==> k == id;
      }
    }
  }

  lemma PlayOne(c: Config, w: World, a: Step)
    requires Enabled(w, a)
    ensures Play(c, w, [a]) == Some(Next(c, w, a))
  {
    hide Next, Enabled;
    assert [a][1..] == [];
    assert Play(c, Next(c, w, a), []) == Some(Next(c, w, a));
  }

  /** A new member can take over a partition that nobody owns, from its committed offset on. */
  lemma CanBeTaken(c: Config, w: World, p: PartitionId) returns (actions: seq<Step>, w': World, id: nat)
    requires Unowned(w, p) && Consumed(p.topic)
    ensures Play(c, w, actions) == Some(w')
    ensures w'.logs == w.logs && w'.committed == w.committed
    ensures id in w'.members && w'.members[id] == Member(p.topic, {p}, map[p := Committed(w, p)], {}, map[])
  {
    id := FreshId(w.members.Keys);
    var begun := Next(c, w, Start(id, p.topic));
    PlayOne(c, w, Start(id, p.topic));
    PlayOne(c, begun, Assign(id, p));
    PlayAppend(c, w, [Start(id, p.topic)], [Assign(id, p)]);
    actions, w' := [Start(id, p.topic)] + [Assign(id, p)], Next(c, begun, Assign(id, p));
  }

  const CLEAN := Answer(true, 0, [])

  /** What a processor observes, with the clock reading that the horizon test of the retry role takes. */
  function Observed(env: Env, topic: Topic, clock: real): Env {
    env.(horizon := if topic == Retry then Some(clock) else None)
  }

  /** A clock at which an accepted deadline has passed. */
  function PastDeadline(c: Config, h: Headers, clock: real): real {
    match AcceptedDeadline(c, h, clock)
    case None => clock
    case Some(due) => due as real / 1000.0
  }

  /** The record a decision leaves in its topic. */
  predicate Shows(e: Entry, d: Decision, pos: Position) {
    && e.value == Some(d.payload) && e.headers == d.headers && e.key == d.key
    && e.origin.Some? && e.origin.value.position == pos
  }

  /** A member that polls the first uncommitted record of a partition can answer it, once it is due. */
  lemma PollAnswers(c: Config, w: World, id: nat, p: PartitionId, env: Env, clock: real, target: nat)
    returns (a: Step, e: Entry)
    requires id in w.members && w.members[id] == Member(p.topic, {p}, map[p := Committed(w, p)], {}, map[])
    requires InLog(w, Position(p, Committed(w, p))) && EntryAt(w, Position(p, Committed(w, p))).value.Some?
    requires var m := EntryAt(w, Position(p, Committed(w, p)));
             Decide(c, p.topic, m.value.value, m.headers, Observed(env, p.topic, clock)).Some?
    ensures var pos := Position(p, Committed(w, p));
            var m := EntryAt(w, pos);
            var d := Decide(c, p.topic, m.value.value, m.headers, Observed(env, p.topic, clock)).value;
            var q := PartitionId(d.topic, target);
            && Enabled(w, a) && Shows(e, d, pos)
            && Next(c, w, a).logs == w.logs[q := Log(w, q) + [e]]
            && Next(c, w, a).committed == w.committed[p := Committed(w, p) + 1]
  {
    var pos := Position(p, Committed(w, p));
    var m, member := EntryAt(w, pos), w.members[id];
    var due := PastDeadline(c, m.headers, clock);
    a := Poll(id, p, env, clock, due, CLEAN, target);
    var env' := PollIsCanonical(c, w, member, pos, env, clock);
    hide Decide, PollResult, PastDeadline;
    var (s, v) := CanonicalOne(c, ClientOf(w, member), MessageAt(w, pos), env', CLEAN);
    e := EntryOf(s.produced[0]);
    assert v == Done && s.committed == w.committed[p := Committed(w, p) + 1];
    hide CanonicalOne;
    NextPoll(c, w, a, s, v);
  }

  lemma NextPoll(c: Config, w: World, a: Step, s: Client, v: Verdict)
    requires a.Poll? && Enabled(w, a)
    requires (s, v) == PollResult(c, w, w.members[a.id], Position(a.partition, w.members[a.id].position[a.partition]), a.env, a.horizonClock, a.dueClock, a.answer)
    ensures Next(c, w, a).logs == Landed(w, s.produced, a.target).logs && Next(c, w, a).committed == s.committed
  {
    hide PollResult, Landed;
  }

  /** A record that has just been polled and is due goes to its processor. */
  lemma PollIsCanonical(c: Config, w: World, m: Member, pos: Position, env: Env, clock: real) returns (env': Env)
    requires InLog(w, pos) && m.pending == map[] && m.topic == pos.partition.topic
    ensures var e := EntryAt(w, pos);
            PollResult(c, w, m, pos, env, clock, PastDeadline(c, e.headers, clock), CLEAN)
            == CanonicalOne(c, ClientOf(w, m), MessageAt(w, pos), env', CLEAN)
    ensures forall payload :: Decide(c, pos.partition.topic, payload, EntryAt(w, pos).headers, env')
                           == Decide(c, pos.partition.topic, payload, EntryAt(w, pos).headers, Observed(env, pos.partition.topic, clock))
  {
    var h := EntryAt(w, pos).headers;
    env' := if pos.partition.topic == Retry && RetryRoute(h).None? then env.(horizon := None) else Observed(env, pos.partition.topic, clock);
    hide CanonicalOne, RetryRoute, AcceptedDeadline, ParserProcess, NormalizerProcess, SinkTable;
  }

  /** The first uncommitted record of any partition can be answered, wherever its owner stands: with the decision
      its processor takes, on any partition of the topic that names. */
  lemma FirstCanProceed(c: Config, w: World, p: PartitionId, env: Env, clock: real, target: nat)
    returns (actions: seq<Step>, w': World, e: Entry)
    requires Inv(c, w) && Consumed(p.topic)
    requires InLog(w, Position(p, Committed(w, p))) && EntryAt(w, Position(p, Committed(w, p))).value.Some?
    requires var m := EntryAt(w, Position(p, Committed(w, p)));
             Decide(c, p.topic, m.value.value, m.headers, Observed(env, p.topic, clock)).Some?
    ensures Play(c, w, actions) == Some(w')
    ensures var pos := Position(p, Committed(w, p));
            var m := EntryAt(w, pos);
            var d := Decide(c, p.topic, m.value.value, m.headers, Observed(env, p.topic, clock)).value;
            var q := PartitionId(d.topic, target);
            && Shows(e, d, pos) && w'.logs == w.logs[q := Log(w, q) + [e]]
            && w'.committed == w.committed[p := Committed(w, p) + 1]
  {
    hide Decide, Next, Enabled, Inv;
    var first, free := CanBeFreed(c, w, p);
    var second, taken, id := CanBeTaken(c, free, p);
    PlayAppend(c, w, first, second);
    var a, shown := PollAnswers(c, taken, id, p, env, clock, target);
    PlayOne(c, taken, a);
    PlayAppend(c, w, first + second, [a]);
    actions, w', e := (first + second) + [a], Next(c, taken, a), shown;
  }

  /** A record on which its processor raises, whatever it observes, is never passed. */
  lemma PoisonIsNeverPassed(c: Config, w: World, pos: Position, actions: seq<Step>)
    requires Inv(c, w) && InLog(w, pos) && Committed(w, pos.partition) <= pos.offset
    requires var m := EntryAt(w, pos);
             m.value.Some? ==> forall env: Env :: Decide(c, pos.partition.topic, m.value.value, m.headers, env).None?
    requires Play(c, w, actions).Some?
    ensures Committed(Play(c, w, actions).value, pos.partition) <= pos.offset
  {
    hide Decide, Inv;
    PlayKeepsInv(c, w, actions);
    var w' := Play(c, w, actions).value;
    hide Play;
    assert EntryAt(w', pos) == EntryAt(w, pos);
    if Committed(w', pos.partition) > pos.offset {
      var child := AnswerOf(c, w', pos);
    }
  }

  // ---- every record --------------------------------------------------------------------------------------

  /** Records on which no processor raises, if it observes `env`, and whose answers are such records too. */
  ghost predicate Sound(c: Config, env: Env, clock: real, fine: (Topic, Bytes, Headers) -> bool) {
    forall t: Topic, payload: Bytes, h: Headers :: fine(t, payload, h) && Consumed(t) ==>
      var d := Decide(c, t, payload, h, Observed(env, t, clock));
      d.Some? && fine(d.value.topic, d.value.payload, d.value.headers)
  }

  predicate FineAt(w: World, fine: (Topic, Bytes, Headers) -> bool, pos: Position)
    requires InLog(w, pos)
  {
    var e := EntryAt(w, pos);
    e.value.Some? && fine(pos.partition.topic, e.value.value, e.headers)
  }

  ghost predicate AllFine(w: World, fine: (Topic, Bytes, Headers) -> bool) {
    forall pos: Position :: InLog(w, pos) ==> FineAt(w, fine, pos)
  }

  lemma AppendStaysFine(
    c: Config, w: World, w': World, p: PartitionId, q: PartitionId, e: Entry, env: Env, clock: real,
    fine: (Topic, Bytes, Headers) -> bool)
    requires AllFine(w, fine) && w'.logs == w.logs[q := Log(w, q) + [e]]
    requires e.value.Some? && fine(q.topic, e.value.value, e.headers)
    ensures AllFine(w', fine)
  {
    forall pos: Position | InLog(w', pos) ensures FineAt(w', fine, pos) {
      assert InLog(w, pos) ==> FineAt(w, fine, pos);
    }
  }

  /** The committed offset of a record's partition can be moved past the record. */
  lemma {:induction false} CanBePassed(
    c: Config, w: World, pos: Position, env: Env, clock: real, fine: (Topic, Bytes, Headers) -> bool)
    returns (actions: seq<Step>, w': World)
    requires Inv(c, w) && InLog(w, pos) && Consumed(pos.partition.topic)
    requires Sound(c, env, clock, fine) && AllFine(w, fine)
    ensures Play(c, w, actions) == Some(w') && AllFine(w', fine)
    ensures Committed(w', pos.partition) > pos.offset
    decreases pos.offset + 1 - Committed(w, pos.partition)
  {
    hide Decide, Next, Enabled, Inv;
    var p := pos.partition;
    if Committed(w, p) > pos.offset {
      actions, w' := [], w;
    } else {
      var next := Position(p, Committed(w, p));
      assert InLog(w, next) && FineAt(w, fine, next);
      var m := EntryAt(w, next);
      var d := Decide(c, p.topic, m.value.value, m.headers, Observed(env, p.topic, clock)).value;
      var first, after, e := FirstCanProceed(c, w, p, env, clock, 0);
      AppendStaysFine(c, w, after, p, PartitionId(d.topic, 0), e, env, clock, fine);
      PlayKeepsInv(c, w, first);
      hide AllFine, Sound;
      var rest, last := CanBePassed(c, after, pos, env, clock, fine);
      PlayAppend(c, w, first, rest);
      actions, w' := first + rest, last;
    }
  }

  lemma {:induction false} DescendsStays(w: World, w': World, a: Position, d: Position, n: nat)
    requires Grows(w, w') && Descends(w, a, d, n)
    ensures Descends(w', a, d, n)
    decreases n
  {
    if n > 0 {
      assert EntryAt(w', d) == EntryAt(w, d);
      DescendsStays(w, w', a, EntryAt(w, d).origin.value.position, n - 1);
    }
  }

  /** If no record is one on which its processor raises, each can be brought to a table or to the dead letters, from
      any state that keeps the invariant. */
  lemma {:induction false} CanBeSettled(
    c: Config, w: World, pos: Position, env: Env, clock: real, fine: (Topic, Bytes, Headers) -> bool)
    returns (actions: seq<Step>, w': World, d: Position, n: nat)
    requires Numbered(c) && Inv(c, w) && InLog(w, pos)
    requires Sound(c, env, clock, fine) && AllFine(w, fine)
    ensures Play(c, w, actions) == Some(w') && InLog(w', d) && Descends(w', pos, d, n)
    ensures !Consumed(d.partition.topic) && n <= RankAt(c, w, pos)
    decreases RankAt(c, w, pos)
  {
    hide Decide, Next, Enabled, Inv, Sound, AllFine, Rank, Numbered, Faithful;
    if !Consumed(pos.partition.topic) {
      actions, w', d, n := [], w, pos, 0;
    } else {
      var first, after := CanBePassed(c, w, pos, env, clock, fine);
      PlayKeepsInv(c, w, first);
      var child := AnswerOf(c, after, pos);
      ChildDecreasesRank(c, after, child, pos);
      assert EntryAt(after, pos) == EntryAt(w, pos);
      var rest, last, below, k := CanBeSettled(c, after, child, env, clock, fine);
      PlayAppend(c, w, first, rest);
      PlayKeepsInv(c, after, rest);
      assert EntryAt(last, child) == EntryAt(after, child);
      assert ChildOf(last, child, pos);
      DescendsThrough(last, pos, child, below, k);
      actions, w', d, n := first + rest, last, below, k + 1;
    }
  }

  /** No run ends in a state from which a raw event cannot get on. */
  lemma RawEventCanBeSettled(
    c: Config, done: seq<Step>, worlds: seq<World>, i: nat, pos: Position, env: Env, clock: real,
    fine: (Topic, Bytes, Headers) -> bool) returns (actions: seq<Step>, w': World, d: Position, n: nat)
    requires Numbered(c) && Run(c, done, worlds) && i < |worlds|
    requires InLog(worlds[i], pos) && pos.partition.topic == RawEvent
    requires Sound(c, env, clock, fine) && AllFine(worlds[i], fine)
    ensures Play(c, worlds[i], actions) == Some(w') && InLog(w', d) && Descends(w', pos, d, n)
    ensures d.partition.topic in {EventsTable, QuarantineTable, DeadLetter} && n <= MaxAttempts(c) + 3
  {
    hide Inv, Sound, AllFine, Numbered, Descends, Next, Enabled;
    RunsKeepInv(c, done, worlds, i);
    actions, w', d, n := CanBeSettled(c, worlds[i], pos, env, clock, fine);
  }
}

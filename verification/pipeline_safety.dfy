/** What holds in every run of the pipeline: nothing is lost, work per event is bounded, evidence keeps
    its identity, committed offsets never go back, and held records stay put until they are due. */
module PipelineSafety {
  import opened Common
  import opened Processors
  import opened RetryWorker
  import opened PipelineWorld

  // ---- no loss -----------------------------------------------------------------------------------

  /** Every input offset below a committed offset has, in the log of the topic its decision names, a
      record that is in every field a decision taken on it. */
  lemma CommittedIsAnswered(c: Config, actions: seq<Step>, worlds: seq<World>, n: nat, pos: Position)
    returns (child: Position)
    requires Run(c, actions, worlds) && n < |worlds|
    requires pos.offset < Committed(worlds[n], pos.partition)
    ensures InLog(worlds[n], pos) && ChildOf(worlds[n], child, pos)
    ensures Faithful(c, worlds[n], child)
  {
    RunsKeepInv(c, actions, worlds, n);
    child := AnswerOf(c, worlds[n], pos);
  }

  /** `d` was produced from `ancestor` in `n` processing steps. */
  predicate Descends(w: World, ancestor: Position, d: Position, n: nat)
    decreases n
  {
    if n == 0 then d == ancestor
    else
      && InLog(w, d) && EntryAt(w, d).origin.Some?
      && Descends(w, ancestor, EntryAt(w, d).origin.value.position, n - 1)
  }

  lemma {:induction false} DescendsThrough(w: World, pos: Position, child: Position, d: Position, n: nat)
    requires ChildOf(w, child, pos) && Descends(w, child, d, n)
    ensures Descends(w, pos, d, n + 1)
    decreases n
  {
    if n > 0 {
      DescendsThrough(w, pos, child, EntryAt(w, d).origin.value.position, n - 1);
    } else {
      assert Descends(w, pos, pos, 0);
    }
  }

  function RankAt(c: Config, w: World, pos: Position): nat
    requires InLog(w, pos)
  {
    Rank(c, pos.partition.topic, EntryAt(w, pos).headers)
  }

  /** At rest: stored or dead-lettered, or not yet committed by its consumers and so redelivered to the
      next owner of its partition. */
  predicate Settled(w: World, pos: Position) {
    !Consumed(pos.partition.topic) || Committed(w, pos.partition) <= pos.offset
  }

  lemma ParentOf(c: Config, w: World, d: Position) returns (parent: Position)
    requires Inv(c, w) && InLog(w, d) && EntryAt(w, d).origin.Some?
    ensures parent == EntryAt(w, d).origin.value.position && InLog(w, parent)
    ensures ChildOf(w, d, parent) && Faithful(c, w, d)
  {
    hide Decide;
    assert Faithful(c, w, d);
    parent := EntryAt(w, d).origin.value.position;
  }

  lemma AnswerOf(c: Config, w: World, pos: Position) returns (child: Position)
    requires Inv(c, w) && pos.offset < Committed(w, pos.partition)
    ensures ChildOf(w, child, pos) && Faithful(c, w, child) && InLog(w, pos)
  {
    hide Decide;
    assert Committed(w, pos.partition) <= |Log(w, pos.partition)|;
    assert Answered(w, pos);
    child :| ChildOf(w, child, pos);
  }

  lemma ChildDecreasesRank(c: Config, w: World, child: Position, pos: Position)
    requires Numbered(c) && ChildOf(w, child, pos) && Faithful(c, w, child)
    ensures InLog(w, pos) && RankAt(c, w, child) < RankAt(c, w, pos)
  {
    hide Decide, Rank;
    var e := EntryAt(w, pos);
    DecisionDecreasesRank(c, pos.partition.topic, e.value.value, e.headers, EntryAt(w, child).origin.value.env);
  }

  /** End to end, in every world that satisfies the invariant: from any record of any topic, a bounded
      number of processing steps leads to one that is stored, dead-lettered or still owed to a consumer. */
  lemma {:induction false} NothingLost(c: Config, w: World, pos: Position) returns (d: Position, n: nat)
    requires Numbered(c) && Inv(c, w) && InLog(w, pos)
    ensures InLog(w, d) && Descends(w, pos, d, n) && Settled(w, d)
    ensures n + RankAt(c, w, d) <= RankAt(c, w, pos)
    decreases RankAt(c, w, pos)
  {
    hide Rank, Numbered, Inv, Faithful;
    if Settled(w, pos) {
      d, n := pos, 0;
    } else {
      var child := AnswerOf(c, w, pos);
      ChildDecreasesRank(c, w, child, pos);
      d, n := NothingLost(c, w, child);
      DescendsThrough(w, pos, child, d, n);
      n := n + 1;
    }
  }

  /** No raw event is ever lost: at every moment of every run, each raw record has a descendant that is in
      the events table, in quarantine, in the dead-letter topic, or at an offset not yet committed. */
  lemma NoRawEventLost(c: Config, actions: seq<Step>, worlds: seq<World>, i: nat, pos: Position)
    returns (d: Position, n: nat)
    requires Numbered(c) && Run(c, actions, worlds) && i < |worlds|
    requires InLog(worlds[i], pos) && pos.partition.topic == RawEvent
    ensures InLog(worlds[i], d) && Descends(worlds[i], pos, d, n)
    ensures d.partition.topic in {EventsTable, QuarantineTable, DeadLetter}
            || Committed(worlds[i], d.partition) <= d.offset
    ensures n <= MaxAttempts(c) + 3
  {
    RunsKeepInv(c, actions, worlds, i);
    d, n := NothingLost(c, worlds[i], pos);
  }

  // ---- bounded work --------------------------------------------------------------------------------

  function RetriesOn(w: World, d: Position, n: nat): nat
    decreases n
  {
    if n == 0 || !InLog(w, d) || EntryAt(w, d).origin.None? then 0
    else (if d.partition.topic == Retry then 1 else 0) + RetriesOn(w, EntryAt(w, d).origin.value.position, n - 1)
  }

  lemma {:induction false} LineageBound(c: Config, w: World, a: Position, d: Position, n: nat)
    requires Numbered(c) && Inv(c, w) && InLog(w, a) && Descends(w, a, d, n)
    ensures InLog(w, d) && n + RankAt(c, w, d) <= RankAt(c, w, a)
    decreases n
  {
    hide Rank, Numbered, Inv, Faithful;
    if n > 0 {
      var parent := ParentOf(c, w, d);
      ChildDecreasesRank(c, w, d, parent);
      LineageBound(c, w, a, parent, n - 1);
    }
  }

  /** One step of a lineage adds one to the attempt number exactly when it lands on the retry topic. */
  lemma ChildCountsAttempts(c: Config, w: World, child: Position, pos: Position)
    requires Numbered(c) && ChildOf(w, child, pos) && Faithful(c, w, child)
    ensures var attempt := AttemptValue(c, EntryAt(w, pos).headers);
            && (child.partition.topic == Retry ==>
                  AttemptValue(c, EntryAt(w, child).headers) == attempt + 1 <= MaxAttempts(c))
            && (child.partition.topic in {ParsedEvent, NormalizedEvent} ==>
                  AttemptValue(c, EntryAt(w, child).headers) == attempt)
            && child.partition.topic != RawEvent && Consumed(pos.partition.topic)
            && (pos.partition.topic == NormalizedEvent ==> child.partition.topic in {EventsTable, QuarantineTable})
  {
    hide Decide, Numbered, AttemptValue;
    var e := EntryAt(w, pos);
    var env := EntryAt(w, child).origin.value.env;
    if pos.partition.topic == NormalizedEvent {
      SinkStores(c, e.value.value, e.headers, env);
    } else {
      DecisionCountsAttempts(c, pos.partition.topic, e.value.value, e.headers, env);
      StageMoves(c, pos.partition.topic, e.value.value, e.headers, env);
    }
  }

  lemma {:induction false} AttemptCountsRetries(c: Config, w: World, a: Position, d: Position, n: nat)
    requires Numbered(c) && Inv(c, w) && InLog(w, a) && Descends(w, a, d, n)
    requires a.partition.topic == RawEvent && AttemptValue(c, EntryAt(w, a).headers) == 0
    ensures InLog(w, d) && RetriesOn(w, d, n) <= MaxAttempts(c)
    ensures d.partition.topic in {RawEvent, ParsedEvent, NormalizedEvent, Retry} ==>
              AttemptValue(c, EntryAt(w, d).headers) == RetriesOn(w, d, n)
    decreases n
  {
    hide Numbered, AttemptValue, MaxAttempts, Inv, Faithful;
    if n > 0 {
      var parent := ParentOf(c, w, d);
      AttemptCountsRetries(c, w, a, parent, n - 1);
      ChildCountsAttempts(c, w, d, parent);
    }
  }

  lemma SinkStores(c: Config, payload: Bytes, h: Headers, env: Env)
    ensures var d := Decide(c, NormalizedEvent, payload, h, env);
            d.Some? ==> d.value.topic in {EventsTable, QuarantineTable}
  {
  }

  lemma StageMoves(c: Config, topic: Topic, payload: Bytes, h: Headers, env: Env)
    requires topic in {RawEvent, ParsedEvent, Retry}
    ensures var d := Decide(c, topic, payload, h, env);
            d.Some? ==> d.value.topic in {ParsedEvent, NormalizedEvent, Retry, DeadLetter}
  {
    hide ParserProcess, NormalizerProcess, AttemptValue;
    StageFailureKeepsBytes(c, ParserStage, payload, AttemptValue(c, h), env);
    StageFailureKeepsBytes(c, NormalizerStage, payload, AttemptValue(c, h), env);
  }

  /** Along every lineage of a raw record that starts at attempt 0, whatever fails: at most the larger of
      the two limits of retries are made in all, shared by both stages, and a normalized event or dead
      letter comes at most two steps after that many. */
  lemma BoundedWork(c: Config, w: World, a: Position, d: Position, n: nat)
    requires Numbered(c) && Inv(c, w) && InLog(w, a) && Descends(w, a, d, n)
    requires a.partition.topic == RawEvent && AttemptValue(c, EntryAt(w, a).headers) == 0
    ensures RetriesOn(w, d, n) <= MaxAttempts(c)
    ensures d.partition.topic in {NormalizedEvent, DeadLetter} ==> n <= MaxAttempts(c) + 2
    ensures n <= MaxAttempts(c) + 3
  {
    LineageBound(c, w, a, d, n);
    AttemptCountsRetries(c, w, a, d, n);
  }

  // ---- identity over whole runs --------------------------------------------------------------------

  lemma ChildKeepsIdentity(c: Config, w: World, child: Position, pos: Position, id: string, sha: string)
    requires Lawful(c) && ChildOf(w, child, pos) && Faithful(c, w, child)
    requires Carries(c, pos.partition.topic, EntryAt(w, pos).value.value, EntryAt(w, pos).headers, id, sha)
    ensures EntryAt(w, child).value.Some?
    ensures Carries(c, child.partition.topic, EntryAt(w, child).value.value, EntryAt(w, child).headers, id, sha)
    ensures child.partition.topic !in {EventsTable, QuarantineTable} && !DeadlineRejected(c, EntryAt(w, pos).headers, EntryAt(w, child).origin.value.env)
            ==> EntryAt(w, child).key == id
  {
    hide Decide, Lawful, Carries;
    var e := EntryAt(w, pos);
    var env := EntryAt(w, child).origin.value.env;
    DecisionKeepsIdentity(c, pos.partition.topic, e.value.value, e.headers, env, id, sha);
    if pos.partition.topic == NormalizedEvent {
      SinkStores(c, e.value.value, e.headers, env);
    }
  }

  /** Every record that descends from a valid raw envelope, on any topic and after any number of retries,
      is about that envelope's event id and hash; and the topic keys name the event id, except where a
      retry deadline was rejected and in the sink's tables. */
  lemma {:induction false} IdentityOverRuns(
    c: Config, w: World, a: Position, d: Position, n: nat, id: string, sha: string)
    requires Lawful(c) && Inv(c, w) && InLog(w, a) && Descends(w, a, d, n)
    requires a.partition.topic == RawEvent && EntryAt(w, a).value.Some?
    requires RawCarries(c, EntryAt(w, a).value.value, id, sha)
    ensures InLog(w, d) && EntryAt(w, d).value.Some?
    ensures Carries(c, d.partition.topic, EntryAt(w, d).value.value, EntryAt(w, d).headers, id, sha)
    ensures n > 0 && d.partition.topic !in {EventsTable, QuarantineTable} ==>
              var o := EntryAt(w, d).origin.value;
              !DeadlineRejected(c, EntryAt(w, o.position).headers, o.env) ==> EntryAt(w, d).key == id
    decreases n
  {
    hide Lawful, RawCarries, ParsedCarries, NormalizedCarries, Inv, Faithful;
    if n > 0 {
      var parent := ParentOf(c, w, d);
      IdentityOverRuns(c, w, a, parent, n - 1, id, sha);
      ChildKeepsIdentity(c, w, d, parent, id, sha);
    }
  }

  // ---- offsets and holds over runs -----------------------------------------------------------------

  lemma ApplyGrows(w: World, id: nat, m: Member, s: Client, v: Verdict, target: nat)
    ensures Grows(w, Apply(w, id, m, s, v, target))
  {
  }

  lemma NextIsMonotone(c: Config, w: World, a: Step)
    requires Inv(c, w) && Enabled(w, a)
    ensures Grows(w, Next(c, w, a))
    ensures forall p :: Committed(w, p) <= Committed(Next(c, w, a), p)
  {
    hide Decide, LogsOk, Faithful, Apply;
    match a
    case Poll(id, p, env, horizonClock, dueClock, answer, target) =>
      var m := w.members[id];
      assert MemberOk(w, m);
      var (s, v) := PollResult(c, w, m, Position(p, m.position[p]), env, horizonClock, dueClock, answer);
      PollEffects(c, w, m, p, env, horizonClock, dueClock, answer, s, v);
      ApplyGrows(w, id, m.(position := m.position[p := m.position[p] + 1]), s, v, target);
      ApplyCommits(w, id, m.(position := m.position[p := m.position[p] + 1]), s, v, target);
    case ReleaseHeld(id, p, clock, env, answer, target) =>
      var m := w.members[id];
      assert MemberOk(w, m) && HeldOk(w, m, p);
      var (s, v) := Release(c, ClientOf(w, m), p, m.pending[p], clock, env, answer);
      ReleaseEffects(c, w, m, p, clock, env, answer, s, v);
      ApplyGrows(w, id, m, s, v, target);
      ApplyCommits(w, id, m, s, v, target);
    case _ =>
  }

  lemma ApplyCommits(w: World, id: nat, m: Member, s: Client, v: Verdict, target: nat)
    ensures var w' := Apply(w, id, m, s, v, target);
            && w'.committed == s.committed
            && w'.members == if v == Done then w.members[id := m.(paused := s.paused, pending := s.pending)]
                             else w.members - {id}
  {
  }

  lemma CanonicalEffects(c: Config, s: Client, m: Message, env: Env, answer: Answer, s': Client, v: Verdict)
    requires (s', v) == CanonicalOne(c, s, m, env, answer)
    ensures s'.pending == s.pending && s'.paused == s.paused
    ensures s'.committed == if v == Done then s.committed[m.position.partition := m.position.offset + 1] else s.committed
    ensures v == Done ==> Durable(answer)
  {
    hide Decide;
  }

  /** A poll either holds its record, or commits it, or changes neither holds nor offsets. */
  lemma PollEffects(
    c: Config, w: World, m: Member, p: PartitionId, env: Env, horizonClock: real, dueClock: real, answer: Answer,
    s: Client, v: Verdict)
    requires p in m.position && InLog(w, Position(p, m.position[p])) && (m.topic != Retry ==> p !in m.pending)
    requires (s, v) == PollResult(c, w, m, Position(p, m.position[p]), env, horizonClock, dueClock, answer)
    ensures v != Done ==> s.committed == w.committed
    ensures p in m.pending ==> v == Raised
    ensures v == Done ==>
              || (s.committed == w.committed && p in s.pending && s.pending == m.pending[p := s.pending[p]])
              || (s.committed == w.committed[p := m.position[p] + 1] && s.pending == m.pending)
  {
    hide Decide, CanonicalOne;
    if p !in m.pending {
      var pos := Position(p, m.position[p]);
      var env' := PollHoldsOrProcesses(c, w, m, pos, env, horizonClock, dueClock, answer, s, v);
      if (s, v) == CanonicalOne(c, ClientOf(w, m), MessageAt(w, pos), env', answer) {
        CanonicalEffects(c, ClientOf(w, m), MessageAt(w, pos), env', answer, s, v);
      }
    }
  }

  lemma ReleaseEffects(
    c: Config, w: World, m: Member, p: PartitionId, clock: real, env: Env, answer: Answer, s: Client, v: Verdict)
    requires p in m.pending && m.pending[p].message.position.partition == p
    requires (s, v) == Release(c, ClientOf(w, m), p, m.pending[p], clock, env, answer)
    ensures v != Done ==> s.committed == w.committed
    ensures v == Done ==>
              || (Later(m.pending[p].dueMs, clock) && s == ClientOf(w, m))
              || (!Later(m.pending[p].dueMs, clock) && Durable(answer)
                  && s.committed == w.committed[p := m.pending[p].message.position.offset + 1]
                  && s.pending == m.pending - {p} && s.paused == m.paused - {p})
  {
    hide Decide;
  }

  /** Records are never removed or changed, and no committed offset ever moves back, even across crashes
      and rebalances. */
  lemma {:induction false} RunsAreMonotone(c: Config, actions: seq<Step>, worlds: seq<World>, i: nat, j: nat)
    requires Run(c, actions, worlds) && i <= j < |worlds|
    ensures Grows(worlds[i], worlds[j])
    ensures forall p :: Committed(worlds[i], p) <= Committed(worlds[j], p)
    decreases j
  {
    hide Decide, Enabled, Next;
    if i < j {
      RunsAreMonotone(c, actions, worlds, i, j - 1);
      RunsKeepInv(c, actions, worlds, j - 1);
      NextIsMonotone(c, worlds[j - 1], actions[j - 1]);
      assert worlds[j] == Next(c, worlds[j - 1], actions[j - 1]);
    }
  }

  /** What can become of the record that member `id` holds for `p`, in one step `a` from `w` to `w'`. */
  predicate HeldOutcome(w: World, a: Step, w': World, id: nat, p: PartitionId)
    requires id in w.members && p in w.members[id].pending
  {
    var h := w.members[id].pending[p];
    || (id in w'.members && p in w'.members[id].pending && w'.members[id].pending[p] == h
        && Committed(w', p) == Committed(w, p) == h.message.position.offset)
    || (a.ReleaseHeld? && a.id == id && a.partition == p && !Later(h.dueMs, a.clock) && Durable(a.answer)
        && id in w'.members && p !in w'.members[id].pending && p !in w'.members[id].paused
        && Committed(w', p) == h.message.position.offset + 1)
    || (a.Revoke? && a.id == id && p in a.partitions && Committed(w', p) == h.message.position.offset)
    || (id !in w'.members && Committed(w', p) == h.message.position.offset)
  }

  lemma OwnersAgree(w: World, id: nat, other: nat, p: PartitionId)
    requires OneOwner(w) && Owns(w, id, p)
    ensures Owns(w, other, p) ==> other == id
  {
  }

  lemma HeldDuringPoll(c: Config, w: World, a: Step, id: nat, p: PartitionId)
    requires Inv(c, w) && Enabled(w, a) && id in w.members && p in w.members[id].pending && a.Poll?
    ensures HeldOutcome(w, a, Next(c, w, a), id, p)
  {
    hide Decide, LogsOk, Faithful, Apply, PollResult, OneOwner;
    var m := w.members[a.id];
    var q := a.partition;
    assert MemberOk(w, w.members[id]) && HeldOk(w, w.members[id], p) && MemberOk(w, m);
    hide MemberOk;
    OwnersAgree(w, id, a.id, p);
    var (s, v) := PollResult(c, w, m, Position(q, m.position[q]), a.env, a.horizonClock, a.dueClock, a.answer);
    PollEffects(c, w, m, q, a.env, a.horizonClock, a.dueClock, a.answer, s, v);
    var m' := m.(position := m.position[q := m.position[q] + 1]);
    HeldThroughApply(w, a.id, m, m', q, s, v, a.target, id, p);
  }

  lemma HeldThroughApply(
    w: World, k: nat, m: Member, m': Member, q: PartitionId, s: Client, v: Verdict, target: nat, id: nat, p: PartitionId)
    requires k in w.members && w.members[k] == m && id in w.members && p in w.members[id].pending
    requires HeldOk(w, w.members[id], p)
    requires m'.pending == m.pending && q in m.owned && q in m.position && (p in m.owned ==> k == id)
    requires v != Done ==> s.committed == w.committed
    requires q in m.pending ==> v == Raised
    requires v == Done ==>
               || (s.committed == w.committed && q in s.pending && s.pending == m.pending[q := s.pending[q]])
               || (s.committed == w.committed[q := m.position[q] + 1] && s.pending == m.pending)
    ensures var w' := Apply(w, k, m', s, v, target);
            var h := w.members[id].pending[p];
            || (id in w'.members && p in w'.members[id].pending && w'.members[id].pending[p] == h
                && Committed(w', p) == Committed(w, p) == h.message.position.offset)
            || (id !in w'.members && Committed(w', p) == h.message.position.offset)
  {
    hide Apply;
    ApplyCommits(w, k, m', s, v, target);
  }

  lemma HeldDuringRelease(c: Config, w: World, a: Step, id: nat, p: PartitionId)
    requires Inv(c, w) && Enabled(w, a) && id in w.members && p in w.members[id].pending && a.ReleaseHeld?
    ensures HeldOutcome(w, a, Next(c, w, a), id, p)
  {
    hide Decide, LogsOk, Faithful, Apply, Release;
    assert MemberOk(w, w.members[id]) && HeldOk(w, w.members[id], p);
    var m := w.members[a.id];
    var q := a.partition;
    assert MemberOk(w, m) && HeldOk(w, m, q);
    assert Owns(w, id, p) && Owns(w, a.id, q);
    var (s, v) := Release(c, ClientOf(w, m), q, m.pending[q], a.clock, a.env, a.answer);
    ReleaseEffects(c, w, m, q, a.clock, a.env, a.answer, s, v);
    ApplyCommits(w, a.id, m, s, v, a.target);
  }

  /** A held record goes away in three ways only: its own release, at a clock reading at or after its
      deadline and with its offset committed; the revocation of its partition; or the end of its worker.
      Until then no step, on this or any other partition and by this or any other worker, changes it or
      moves the committed offset past it. */
  lemma HeldUntilDue(c: Config, w: World, a: Step, id: nat, p: PartitionId)
    requires Inv(c, w) && Enabled(w, a) && id in w.members && p in w.members[id].pending
    ensures HeldOutcome(w, a, Next(c, w, a), id, p)
  {
    hide Decide, LogsOk, Faithful, Apply, PollResult, Release;
    match a
    case Poll(_, _, _, _, _, _, _) => HeldDuringPoll(c, w, a, id, p);
    case ReleaseHeld(_, _, _, _, _, _) => HeldDuringRelease(c, w, a, id, p);
    case _ => assert MemberOk(w, w.members[id]) && HeldOk(w, w.members[id], p);
  }

  /** In every reachable world the pending keys of a worker are exactly the partitions it has paused, all
      assigned to it, and each holds the first uncommitted record of its partition. */
  lemma HoldProtocol(c: Config, actions: seq<Step>, worlds: seq<World>, n: nat, id: nat)
    requires Run(c, actions, worlds) && n < |worlds| && id in worlds[n].members
    ensures var m := worlds[n].members[id];
            && m.pending.Keys == m.paused && m.paused <= m.owned
            && (forall p :: p in m.pending ==>
                  && m.pending[p].message.position == Position(p, Committed(worlds[n], p))
                  && InLog(worlds[n], m.pending[p].message.position)
                  && m.pending[p].message == MessageAt(worlds[n], m.pending[p].message.position))
  {
    hide Decide, LogsOk;
    RunsKeepInv(c, actions, worlds, n);
    var m := worlds[n].members[id];
    assert MemberOk(worlds[n], m);
    forall p | p in m.pending ensures HeldOk(worlds[n], m, p) {
    }
  }
}

/** The whole pipeline as one state machine: partition logs and committed offsets at the broker, any
    number of consumer-group members of every role, and every interleaving of polls, holds, releases,
    delivery failures, rebalances, crashes and restarts. */
module PipelineWorld {
  import opened Common
  import opened Processors
  import opened RetryWorker

  /** Where a produced record came from: the consumed record and what its processor observed. */
  datatype Origin = Origin(position: Position, env: Env)

  /** A record of a log; `origin` is None for records that arrive from outside the pipeline. */
  datatype Entry = Entry(value: Option<Bytes>, headers: Headers, key: string, origin: Option<Origin>)

  /** One running worker and its consumer. `position` is the next offset a poll delivers. */
  datatype Member = Member(
    topic: Topic,
    owned: set<PartitionId>,
    position: map<PartitionId, nat>,
    paused: set<PartitionId>,
    pending: map<PartitionId, Held>)

  datatype World = World(
    logs: map<PartitionId, seq<Entry>>,
    committed: map<PartitionId, nat>,
    members: map<nat, Member>)

  function Log(w: World, p: PartitionId): seq<Entry> {
    if p in w.logs then w.logs[p] else []
  }

  function Committed(w: World, p: PartitionId): nat {
    if p in w.committed then w.committed[p] else 0
  }

  predicate InLog(w: World, pos: Position) {
    pos.offset < |Log(w, pos.partition)|
  }

  function EntryAt(w: World, pos: Position): Entry
    requires InLog(w, pos)
  {
    Log(w, pos.partition)[pos.offset]
  }

  function MessageAt(w: World, pos: Position): Message
    requires InLog(w, pos)
  {
    Message(pos, EntryAt(w, pos).value, EntryAt(w, pos).headers)
  }

  const EMPTY_WORLD := World(map[], map[], map[])

  // ---- steps -------------------------------------------------------------------------------------

  datatype Step =
    | Append(partition: PartitionId, entry: Entry)
    | Start(id: nat, topic: Topic)
    | Assign(id: nat, partition: PartitionId)
    | Revoke(id: nat, partitions: seq<PartitionId>)
    | Poll(id: nat, partition: PartitionId, env: Env, horizonClock: real, dueClock: real, answer: Answer, target: nat)
    | ReleaseHeld(id: nat, partition: PartitionId, clock: real, env: Env, answer: Answer, target: nat)
    | Crash(id: nat)

  /** Assignments go to one member at a time and start at the committed offset; a poll delivers the next
      record of an assigned partition. A paused partition may still deliver. */
  predicate Enabled(w: World, a: Step) {
    match a
    case Append(p, e) => e.origin.None?
    case Start(id, topic) => id !in w.members && Consumed(topic)
    case Assign(id, p) =>
      && id in w.members && p.topic == w.members[id].topic
      && forall other :: other in w.members ==> p !in w.members[other].owned
    case Revoke(id, _) => id in w.members
    case Poll(id, p, _, _, _, answer, _) =>
      && id in w.members && p in w.members[id].owned && p in w.members[id].position
      && InLog(w, Position(p, w.members[id].position[p])) && Honest(answer)
    case ReleaseHeld(id, p, _, _, answer, _) =>
      id in w.members && p in w.members[id].pending && Honest(answer)
    case Crash(id) => id in w.members
  }

  function EntryOf(r: Produced): Entry {
    Entry(Some(r.decision.payload), r.decision.headers, r.decision.key, Some(Origin(r.origin, r.env)))
  }

  /** Appends a produced record to the topic its decision names. */
  function Land(w: World, r: Produced, target: nat): World {
    var q := PartitionId(r.decision.topic, target);
    w.(logs := w.logs[q := Log(w, q) + [EntryOf(r)]])
  }

  /** Appends what one call to a worker produced, which is at most one record. */
  function Landed(w: World, produced: seq<Produced>, target: nat): World {
    if produced == [] then w else Land(w, produced[0], target)
  }

  function ClientOf(w: World, m: Member): Client {
    Client(w.committed, [], m.paused, m.pending)
  }

  /** Writes a worker's new state back; a worker that is not done leaves the group, as the runtime loop
      raises and closes the consumer. */
  function Apply(w: World, id: nat, m: Member, s: Client, v: Verdict, target: nat): World {
    var landed := Landed(w, s.produced, target);
    landed.(committed := s.committed,
            members := if v == Done then w.members[id := m.(paused := s.paused, pending := s.pending)]
                       else w.members - {id})
  }

  /** What `process_one` of the member's role does with a polled record. */
  function PollResult(
    c: Config, w: World, m: Member, pos: Position, env: Env, horizonClock: real, dueClock: real, answer: Answer)
    : (Client, Verdict)
    requires InLog(w, pos)
  {
    if m.topic == Retry then RetryOne(c, ClientOf(w, m), MessageAt(w, pos), env, horizonClock, dueClock, answer)
    else CanonicalOne(c, ClientOf(w, m), MessageAt(w, pos), env.(horizon := None), answer)
  }

  function Next(c: Config, w: World, a: Step): World
    requires Enabled(w, a)
  {
    match a
    case Append(p, e) => w.(logs := w.logs[p := Log(w, p) + [e]])
    case Start(id, topic) => w.(members := w.members[id := Member(topic, {}, map[], {}, map[])])
    case Assign(id, p) =>
      var m := w.members[id];
      w.(members := w.members[id := m.(owned := m.owned + {p}, position := m.position[p := Committed(w, p)])])
    case Revoke(id, ps) =>
      var m := w.members[id];
      var gone := set p | p in ps;
      w.(members := w.members[id := m.(
        owned := m.owned - gone,
        paused := m.paused - gone,
        pending := Revoked(ClientOf(w, m), ps).pending)])
    case Poll(id, p, env, horizonClock, dueClock, answer, target) =>
      var m := w.members[id];
      var (s, v) := PollResult(c, w, m, Position(p, m.position[p]), env, horizonClock, dueClock, answer);
      Apply(w, id, m.(position := m.position[p := m.position[p] + 1]), s, v, target)
    case ReleaseHeld(id, p, clock, env, answer, target) =>
      var m := w.members[id];
      var (s, v) := Release(c, ClientOf(w, m), p, m.pending[p], clock, env, answer);
      Apply(w, id, m, s, v, target)
    case Crash(id) => w.(members := w.members - {id})
  }

  /** A run: the worlds before and after each of its actions, from the empty broker on. */
  predicate Run(c: Config, actions: seq<Step>, worlds: seq<World>) {
    && |worlds| == |actions| + 1 && worlds[0] == EMPTY_WORLD
    && forall i :: 0 <= i < |actions| ==>
                     Enabled(worlds[i], actions[i]) && worlds[i + 1] == Next(c, worlds[i], actions[i])
  }

  // ---- invariants --------------------------------------------------------------------------------

  /** Some record in a log was produced from the record at `pos`. */
  ghost predicate Answered(w: World, pos: Position) {
    exists child: Position :: ChildOf(w, child, pos)
  }

  predicate ChildOf(w: World, child: Position, pos: Position) {
    InLog(w, child) && EntryAt(w, child).origin.Some? && EntryAt(w, child).origin.value.position == pos
  }

  /** An internal record is, in every field, the decision taken on the record it came from. */
  predicate Faithful(c: Config, w: World, child: Position)
    requires InLog(w, child)
  {
    var e := EntryAt(w, child);
    e.origin.Some? ==>
      var pos := e.origin.value.position;
      && InLog(w, pos) && Consumed(pos.partition.topic) && EntryAt(w, pos).value.Some?
      && var d := Decide(c, pos.partition.topic, EntryAt(w, pos).value.value, EntryAt(w, pos).headers, e.origin.value.env);
         && d.Some? && d.value.topic == child.partition.topic
         && e == Entry(Some(d.value.payload), d.value.headers, d.value.key, e.origin)
  }

  /** The hold protocol of one entry: it is the first uncommitted record of its partition, unchanged,
      and it is all that the member has polled beyond the committed offset. */
  predicate HeldOk(w: World, m: Member, p: PartitionId)
    requires p in m.pending
  {
    var pos := Position(p, Committed(w, p));
    && p in m.owned && p in m.position
    && InLog(w, pos) && m.pending[p].message == MessageAt(w, pos)
    && m.position[p] == pos.offset + 1
  }

  ghost predicate MemberOk(w: World, m: Member) {
    && Consumed(m.topic)
    && (forall p :: p in m.owned ==> p.topic == m.topic && p in m.position)
    && m.paused == m.pending.Keys
    && (forall p :: p in m.pending ==> HeldOk(w, m, p))
    && (forall p :: p in m.owned && p !in m.pending ==> m.position[p] == Committed(w, p))
    && (m.topic != Retry ==> m.pending == map[])
  }

  ghost predicate LogsOk(c: Config, w: World) {
    && (forall p :: Committed(w, p) <= |Log(w, p)|)
    && (forall child: Position :: InLog(w, child) ==> Faithful(c, w, child))
    && (forall pos: Position :: pos.offset < Committed(w, pos.partition) ==> Answered(w, pos))
  }

  predicate Owns(w: World, id: nat, p: PartitionId) {
    id in w.members && p in w.members[id].owned
  }

  ghost predicate OneOwner(w: World) {
    forall a, b, p :: Owns(w, a, p) && Owns(w, b, p) ==> a == b
  }

  ghost predicate Inv(c: Config, w: World) {
    && LogsOk(c, w)
    && OneOwner(w)
    && (forall id :: id in w.members ==> MemberOk(w, w.members[id]))
  }

  // ---- preservation ------------------------------------------------------------------------------

  predicate Grows(w: World, w': World) {
    forall p :: p in w.logs ==> p in w'.logs && w.logs[p] <= w'.logs[p]
  }

  /** Growing logs by faithful records, and moving one committed offset past an answered record, keeps
      the broker's side of the invariant. */
  lemma LogsGrow(c: Config, w: World, w': World)
    requires LogsOk(c, w) && Grows(w, w')
    requires forall p :: Committed(w', p) <= |Log(w', p)|
    requires forall pos: Position :: InLog(w', pos) && !InLog(w, pos) ==> Faithful(c, w', pos)
    requires forall pos: Position :: Committed(w, pos.partition) <= pos.offset < Committed(w', pos.partition) ==>
                                       Answered(w', pos)
    ensures LogsOk(c, w')
  {
    forall pos: Position | InLog(w, pos) ensures InLog(w', pos) && EntryAt(w', pos) == EntryAt(w, pos) {
    }
    forall child: Position | InLog(w', child) ensures Faithful(c, w', child) {
      if InLog(w, child) {
        assert Faithful(c, w, child);
      }
    }
    forall pos: Position | pos.offset < Committed(w', pos.partition) ensures Answered(w', pos) {
      if pos.offset < Committed(w, pos.partition) {
        var child: Position :| ChildOf(w, child, pos);
        assert ChildOf(w', child, pos);
      }
    }
  }

  /** The broker's side of the invariant does not depend on the members. */
  lemma LogsOkSame(c: Config, w: World, w': World)
    requires LogsOk(c, w) && w.logs == w'.logs && w.committed == w'.committed
    ensures LogsOk(c, w') && Grows(w, w')
  {
    hide Decide;
    forall p ensures Committed(w', p) <= |Log(w', p)| {
      assert Committed(w, p) <= |Log(w, p)|;
    }
    LogsGrow(c, w, w');
  }

  /** Landing the decision taken on the first uncommitted record of `p`, and then possibly committing
      it, keeps the broker's side of the invariant. */
  lemma LandKeepsLogs(c: Config, w: World, r: Produced, p: PartitionId, target: nat, committed: map<PartitionId, nat>)
    requires LogsOk(c, w) && Consumed(p.topic)
    requires r.origin == Position(p, Committed(w, p)) && InLog(w, r.origin) && EntryAt(w, r.origin).value.Some?
    requires Some(r.decision) == Decide(c, p.topic, EntryAt(w, r.origin).value.value, EntryAt(w, r.origin).headers, r.env)
    requires committed == w.committed || committed == w.committed[p := Committed(w, p) + 1]
    ensures var w' := Land(w, r, target).(committed := committed); LogsOk(c, w') && Grows(w, w')
  {
    hide Decide;
    var w' := Land(w, r, target).(committed := committed);
    var q := PartitionId(r.decision.topic, target);
    var at := Position(q, |Log(w, q)|);
    assert Log(w', q) == Log(w, q) + [EntryOf(r)];
    assert forall x :: x != q ==> Log(w', x) == Log(w, x);
    assert ChildOf(w', at, r.origin);
    forall x: Position | InLog(w', x) && !InLog(w, x) ensures Faithful(c, w', x) {
      assert x == at;
      assert EntryAt(w', r.origin) == EntryAt(w, r.origin);
    }
    forall x: Position | Committed(w, x.partition) <= x.offset < Committed(w', x.partition) ensures Answered(w', x) {
      assert x == r.origin;
    }
    LogsGrow(c, w, w');
  }

  /** What processing the first uncommitted record of `p` does to the broker: it keeps the invariant,
      and moves the committed offset of `p` by one exactly when the worker is done. */
  lemma CanonicalStep(
    c: Config, w: World, s: Client, p: PartitionId, env: Env, answer: Answer, target: nat, s': Client, v: Verdict)
    requires LogsOk(c, w) && Consumed(p.topic) && Honest(answer)
    requires s.committed == w.committed && s.produced == []
    requires InLog(w, Position(p, Committed(w, p)))
    requires (s', v) == CanonicalOne(c, s, MessageAt(w, Position(p, Committed(w, p))), env, answer)
    ensures var w' := Landed(w, s'.produced, target).(committed := s'.committed); LogsOk(c, w') && Grows(w, w')
    ensures s'.pending == s.pending && s'.paused == s.paused
    ensures s'.committed == if v == Done then w.committed[p := Committed(w, p) + 1] else w.committed
  {
    hide Decide;
    var pos := Position(p, Committed(w, p));
    var w' := Landed(w, s'.produced, target).(committed := s'.committed);
    if s'.produced == [] {
      LogsGrow(c, w, w');
    } else {
      LandKeepsLogs(c, w, s'.produced[0], p, target, s'.committed);
    }
  }

  /** A member keeps its invariant when logs grow and only partitions it does not own commit. */
  lemma MemberUntouched(w: World, w': World, m: Member)
    requires MemberOk(w, m) && Grows(w, w')
    requires forall p :: p in m.owned ==> Committed(w', p) == Committed(w, p)
    ensures MemberOk(w', m)
  {
    forall p | p in m.pending ensures HeldOk(w', m, p) {
      assert HeldOk(w, m, p);
    }
  }

  lemma OthersUntouched(w: World, w': World, id: nat)
    requires forall k :: k in w.members ==> MemberOk(w, w.members[k])
    requires OneOwner(w) && id in w.members && Grows(w, w')
    requires forall p :: p !in w.members[id].owned ==> Committed(w', p) == Committed(w, p)
    requires forall k :: k in w'.members && k != id ==> k in w.members && w'.members[k] == w.members[k]
    ensures forall k :: k in w'.members && k != id ==> MemberOk(w', w'.members[k])
  {
    forall k | k in w'.members && k != id ensures MemberOk(w', w'.members[k]) {
      forall p | p in w.members[k].owned ensures p !in w.members[id].owned {
        assert Owns(w, k, p);
        assert Owns(w, id, p) ==> k == id;
      }
      MemberUntouched(w, w', w.members[k]);
    }
  }

  /** Putting the broker, the acting member and the others together again. */
  lemma Reassemble(c: Config, w: World, w': World, id: nat)
    requires Inv(c, w) && id in w.members
    requires LogsOk(c, w') && Grows(w, w')
    requires forall p :: p !in w.members[id].owned ==> Committed(w', p) == Committed(w, p)
    requires forall k :: k in w'.members && k != id ==> k in w.members && w'.members[k] == w.members[k]
    requires id in w'.members ==> MemberOk(w', w'.members[id]) && w'.members[id].owned <= w.members[id].owned
    ensures Inv(c, w')
  {
    hide LogsOk, MemberOk;
    OthersUntouched(w, w', id);
    forall a, b, p | Owns(w', a, p) && Owns(w', b, p) ensures a == b {
      assert Owns(w, a, p) && Owns(w, b, p);
    }
  }

  lemma HoldKeepsMember(w: World, w': World, m: Member, p: PartitionId, due: int)
    requires MemberOk(w, m) && p in m.owned && p !in m.pending && m.topic == Retry
    requires InLog(w, Position(p, Committed(w, p)))
    requires w'.logs == w.logs && w'.committed == w.committed
    ensures MemberOk(w', m.(
      position := m.position[p := Committed(w, p) + 1],
      paused := m.paused + {p},
      pending := m.pending[p := Held(due, MessageAt(w, Position(p, Committed(w, p))))]))
  {
    var m' := m.(
      position := m.position[p := Committed(w, p) + 1],
      paused := m.paused + {p},
      pending := m.pending[p := Held(due, MessageAt(w, Position(p, Committed(w, p))))]);
    forall x | x in m'.pending ensures HeldOk(w', m', x) {
      if x != p {
        assert HeldOk(w, m, x);
      }
    }
  }

  /** A poll that processes its record keeps the polling member in order, if it survives. */
  lemma AdvanceKeepsMember(w: World, w': World, m: Member, p: PartitionId)
    requires MemberOk(w, m) && p in m.owned && p !in m.pending && Grows(w, w')
    requires w'.committed == w.committed[p := Committed(w, p) + 1]
    ensures MemberOk(w', m.(position := m.position[p := Committed(w, p) + 1]))
  {
    var m' := m.(position := m.position[p := Committed(w, p) + 1]);
    forall x | x in m'.pending ensures HeldOk(w', m', x) {
      assert HeldOk(w, m, x);
    }
  }

  /** Polling a fresh record either holds it or processes it. */
  lemma PollHoldsOrProcesses(
    c: Config, w: World, m: Member, pos: Position, env: Env, horizonClock: real, dueClock: real, answer: Answer,
    s: Client, v: Verdict) returns (env': Env)
    requires InLog(w, pos) && pos.partition !in m.pending
    requires (s, v) == PollResult(c, w, m, pos, env, horizonClock, dueClock, answer)
    ensures || (s, v) == CanonicalOne(c, ClientOf(w, m), MessageAt(w, pos), env', answer)
            || (m.topic == Retry && v == Done && exists due :: s == HoldClient(w, m, pos, due))
  {
    hide Decide;
    env' := if m.topic == Retry && RetryRoute(MessageAt(w, pos).headers).Some?
            then env.(horizon := Some(horizonClock)) else env.(horizon := None);
    if m.topic == Retry && AcceptedDeadline(c, MessageAt(w, pos).headers, horizonClock).Some? {
      var due := AcceptedDeadline(c, MessageAt(w, pos).headers, horizonClock).value;
      assert HoldClient(w, m, pos, due).pending == m.pending[pos.partition := Held(due, MessageAt(w, pos))];
    }
  }

  /** The client that has just held the record at `pos`. */
  function HoldClient(w: World, m: Member, pos: Position, due: int): Client
    requires InLog(w, pos)
  {
    ClientOf(w, m).(
      paused := m.paused + {pos.partition},
      pending := m.pending[pos.partition := Held(due, MessageAt(w, pos))])
  }

  lemma PollKeepsInv(
    c: Config, w: World, id: nat, m: Member, p: PartitionId, env: Env, horizonClock: real, dueClock: real,
    answer: Answer, target: nat, s: Client, v: Verdict)
    requires Inv(c, w) && id in w.members && w.members[id] == m && p in m.owned && p in m.position
    requires InLog(w, Position(p, m.position[p])) && Honest(answer)
    requires (s, v) == PollResult(c, w, m, Position(p, m.position[p]), env, horizonClock, dueClock, answer)
    ensures Inv(c, Apply(w, id, m.(position := m.position[p := m.position[p] + 1]), s, v, target))
  {
    hide Decide, CanonicalOne, LogsOk, Faithful, HeldOk;
    var pos := Position(p, m.position[p]);
    var w' := Apply(w, id, m.(position := m.position[p := m.position[p] + 1]), s, v, target);
    assert MemberOk(w, m);
    if p in m.pending {
      assert s == ClientOf(w, m) && v == Raised;
      LogsOkSame(c, w, w');
    } else {
      assert pos.offset == Committed(w, p);
      var env' := PollHoldsOrProcesses(c, w, m, pos, env, horizonClock, dueClock, answer, s, v);
      if (s, v) == CanonicalOne(c, ClientOf(w, m), MessageAt(w, pos), env', answer) {
        ProcessedKeepsMember(c, w, id, m, p, env', answer, target, s, v);
      } else {
        var due :| s == HoldClient(w, m, pos, due);
        HoldKeepsMember(w, w', m, p, due);
        LogsOkSame(c, w, w');
      }
    }
    hide PollResult, MemberOk;
    Reassemble(c, w, w', id);
  }

  lemma ProcessedKeepsMember(
    c: Config, w: World, id: nat, m: Member, p: PartitionId, env: Env, answer: Answer, target: nat, s: Client, v: Verdict)
    requires LogsOk(c, w) && MemberOk(w, m) && Honest(answer)
    requires p in m.owned && p !in m.pending && p in m.position && InLog(w, Position(p, m.position[p]))
    requires (s, v) == CanonicalOne(c, ClientOf(w, m), MessageAt(w, Position(p, m.position[p])), env, answer)
    ensures var w' := Apply(w, id, m.(position := m.position[p := m.position[p] + 1]), s, v, target);
            && LogsOk(c, w') && Grows(w, w')
            && (forall q :: q !in m.owned ==> Committed(w', q) == Committed(w, q))
            && (v == Done ==> id in w'.members && MemberOk(w', w'.members[id]) && w'.members[id].owned == m.owned)
  {
    hide Decide, CanonicalOne, LogsOk, Faithful, HeldOk;
    var m' := m.(position := m.position[p := m.position[p] + 1]);
    var w' := Apply(w, id, m', s, v, target);
    assert m.position[p] == Committed(w, p);
    CanonicalStep(c, w, ClientOf(w, m), p, env, answer, target, s, v);
    LandedIsApplied(c, w, w', id, m', s, v, target);
    if v == Done {
      AdvanceKeepsMember(w, w', m, p);
      assert w'.members[id] == m.(position := m.position[p := Committed(w, p) + 1]);
    }
  }

  lemma LandedIsApplied(c: Config, w: World, w': World, id: nat, m: Member, s: Client, v: Verdict, target: nat)
    requires w' == Apply(w, id, m, s, v, target)
    requires LogsOk(c, Landed(w, s.produced, target).(committed := s.committed))
    requires Grows(w, Landed(w, s.produced, target).(committed := s.committed))
    ensures LogsOk(c, w') && Grows(w, w') && w'.committed == s.committed
  {
    hide LogsOk;
    LogsOkSame(c, Landed(w, s.produced, target).(committed := s.committed), w');
  }

  lemma ReleaseKeepsInv(
    c: Config, w: World, id: nat, m: Member, p: PartitionId, clock: real, env: Env, answer: Answer, target: nat,
    s: Client, v: Verdict)
    requires Inv(c, w) && id in w.members && w.members[id] == m && p in m.pending && Honest(answer)
    requires (s, v) == Release(c, ClientOf(w, m), p, m.pending[p], clock, env, answer)
    ensures Inv(c, Apply(w, id, m, s, v, target))
  {
    hide Decide, CanonicalOne, LogsOk, Faithful;
    var w' := Apply(w, id, m, s, v, target);
    assert MemberOk(w, m) && HeldOk(w, m, p);
    if Later(m.pending[p].dueMs, clock) {
      assert s == ClientOf(w, m) && v == Done;
      LogsOkSame(c, w, w');
      MemberUntouched(w, w', m);
      assert w'.members[id] == m;
    } else {
      var env' := env.(horizon := None);
      var (s1, v1) := CanonicalOne(c, ClientOf(w, m), m.pending[p].message, env', answer);
      CanonicalStep(c, w, ClientOf(w, m), p, env', answer, target, s1, v1);
      LandedIsApplied(c, w, w', id, m, s, v, target);
      if v == Done {
        ReleaseKeepsMember(w, w', m, p);
      }
    }
    Reassemble(c, w, w', id);
  }

  lemma ReleaseKeepsMember(w: World, w': World, m: Member, p: PartitionId)
    requires MemberOk(w, m) && p in m.pending && Grows(w, w')
    requires w'.committed == w.committed[p := Committed(w, p) + 1]
    ensures MemberOk(w', m.(paused := m.paused - {p}, pending := m.pending - {p}))
  {
    var m' := m.(paused := m.paused - {p}, pending := m.pending - {p});
    assert HeldOk(w, m, p);
    forall x | x in m'.pending ensures HeldOk(w', m', x) {
      assert HeldOk(w, m, x);
    }
  }

  lemma RevokeKeepsInv(c: Config, w: World, id: nat, m: Member, ps: seq<PartitionId>)
    requires Inv(c, w) && id in w.members && w.members[id] == m
    ensures var gone := set p | p in ps;
            Inv(c, w.(members := w.members[id := m.(
              owned := m.owned - gone, paused := m.paused - gone, pending := Revoked(ClientOf(w, m), ps).pending)]))
  {
    hide LogsOk;
    var gone := set p | p in ps;
    var m' := m.(owned := m.owned - gone, paused := m.paused - gone, pending := m.pending - gone);
    var w' := w.(members := w.members[id := m']);
    assert MemberOk(w, m);
    LogsOkSame(c, w, w');
    forall x | x in m'.pending ensures HeldOk(w', m', x) {
      assert HeldOk(w, m, x);
    }
    assert MemberOk(w', m');
    Reassemble(c, w, w', id);
  }

  lemma AppendKeepsInv(c: Config, w: World, p: PartitionId, e: Entry)
    requires Inv(c, w) && e.origin.None?
    ensures Inv(c, w.(logs := w.logs[p := Log(w, p) + [e]]))
  {
    hide Decide, HeldOk;
    var w' := w.(logs := w.logs[p := Log(w, p) + [e]]);
    assert Log(w', p) == Log(w, p) + [e];
    assert forall x :: x != p ==> Log(w', x) == Log(w, x);
    forall x: Position | InLog(w', x) && !InLog(w, x) ensures Faithful(c, w', x) {
      assert x == Position(p, |Log(w, p)|);
    }
    LogsGrow(c, w, w');
    hide LogsOk;
    forall id | id in w'.members ensures MemberOk(w', w'.members[id]) {
      MemberUntouched(w, w', w.members[id]);
    }
    forall a, b, x | Owns(w', a, x) && Owns(w', b, x) ensures a == b {
      assert Owns(w, a, x) && Owns(w, b, x);
    }
  }

  lemma StartKeepsInv(c: Config, w: World, id: nat, topic: Topic)
    requires Inv(c, w) && id !in w.members && Consumed(topic)
    ensures Inv(c, w.(members := w.members[id := Member(topic, {}, map[], {}, map[])]))
  {
    hide LogsOk, HeldOk;
    var w' := w.(members := w.members[id := Member(topic, {}, map[], {}, map[])]);
    LogsOkSame(c, w, w');
    forall k | k in w'.members ensures MemberOk(w', w'.members[k]) {
      if k != id { MemberUntouched(w, w', w.members[k]); }
    }
    forall a, b, x | Owns(w', a, x) && Owns(w', b, x) ensures a == b {
      assert Owns(w, a, x) && Owns(w, b, x);
    }
  }

  lemma SetupKeepsInv(c: Config, w: World, a: Step)
    requires Inv(c, w) && Enabled(w, a) && (a.Append? || a.Start? || a.Assign? || a.Crash?)
    ensures Inv(c, Next(c, w, a))
  {
    hide LogsOk, PollResult, Release, HeldOk;
    var w' := Next(c, w, a);
    match a
    case Append(p, e) => AppendKeepsInv(c, w, p, e);
    case Start(id, topic) => StartKeepsInv(c, w, id, topic);
    case Assign(id, p) =>
      LogsOkSame(c, w, w');
      OthersUntouched(w, w', id);
      AssignKeepsMember(w, w', w.members[id], p);
      forall a, b, x | Owns(w', a, x) && Owns(w', b, x) ensures a == b {
        assert x != p ==> Owns(w, a, x) && Owns(w, b, x);
      }
    case Crash(id) =>
      LogsOkSame(c, w, w');
      Reassemble(c, w, w', id);
  }

  lemma AssignKeepsMember(w: World, w': World, m: Member, p: PartitionId)
    requires MemberOk(w, m) && p !in m.owned && p.topic == m.topic
    requires w'.logs == w.logs && w'.committed == w.committed
    ensures MemberOk(w', m.(owned := m.owned + {p}, position := m.position[p := Committed(w, p)]))
  {
    var m' := m.(owned := m.owned + {p}, position := m.position[p := Committed(w, p)]);
    forall x | x in m'.pending ensures HeldOk(w', m', x) {
      assert HeldOk(w, m, x);
    }
  }

  lemma NextKeepsInv(c: Config, w: World, a: Step)
    requires Inv(c, w) && Enabled(w, a)
    ensures Inv(c, Next(c, w, a))
  {
    hide Decide, PollResult, Release, Inv, Apply;
    match a
    case Poll(id, p, env, horizonClock, dueClock, answer, target) =>
      var m := w.members[id];
      var (s, v) := PollResult(c, w, m, Position(p, m.position[p]), env, horizonClock, dueClock, answer);
      PollKeepsInv(c, w, id, m, p, env, horizonClock, dueClock, answer, target, s, v);
    case ReleaseHeld(id, p, clock, env, answer, target) =>
      var m := w.members[id];
      var (s, v) := Release(c, ClientOf(w, m), p, m.pending[p], clock, env, answer);
      ReleaseKeepsInv(c, w, id, m, p, clock, env, answer, target, s, v);
    case Revoke(id, ps) => RevokeKeepsInv(c, w, id, w.members[id], ps);
    case _ => SetupKeepsInv(c, w, a);
  }

  /** Every reachable world satisfies the invariant. */
  lemma {:induction false} RunsKeepInv(c: Config, actions: seq<Step>, worlds: seq<World>, n: nat)
    requires Run(c, actions, worlds) && n < |worlds|
    ensures Inv(c, worlds[n])
  {
    if n > 0 {
      RunsKeepInv(c, actions, worlds, n - 1);
      NextKeepsInv(c, worlds[n - 1], actions[n - 1]);
    }
  }
}

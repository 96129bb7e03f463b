/** The Kafka workers: produce, flush, then commit; and the retry worker that pauses a partition and
    holds one uncommitted record until its deadline.

    `Client` is the value of everything a worker and its broker client own. The functions over it
    specify each operation; the classes update fields in place, as the workers do, and are proved
    equal to them. Clock readings, processor observations and the broker's answers are parameters. */
module RetryWorker {
  import opened Common
  import opened Processors

  datatype PartitionId = PartitionId(topic: Topic, index: nat)

  datatype Position = Position(partition: PartitionId, offset: nat)

  /** A consumed record, with its headers as `_headers` decodes them. */
  datatype Message = Message(position: Position, value: Option<Bytes>, headers: Headers)

  /** The broker's answer to one produce and flush: whether the record reached the topic, how many
      records flush still reports outstanding, and the errors given to the delivery callback. */
  datatype Answer = Answer(landed: bool, outstanding: nat, errors: seq<string>)

  predicate Durable(a: Answer) {
    a.outstanding == 0 && a.errors == []
  }

  /** What acks=all promises: a flush that leaves nothing outstanding and reports no error has put the
      record in the topic. A failed one may or may not have. */
  predicate Honest(a: Answer) {
    Durable(a) ==> a.landed
  }

  datatype Produced = Produced(decision: Decision, origin: Position, env: Env)

  datatype Held = Held(dueMs: int, message: Message)

  datatype Client = Client(
    committed: map<PartitionId, nat>,
    produced: seq<Produced>,
    paused: set<PartitionId>,
    pending: map<PartitionId, Held>)

  /** Handled (True), not durable (False), or an exception. The runtime loop exits on the last two. */
  datatype Verdict = Done | NotDurable | Raised

  // ---- headers ---------------------------------------------------------------------------------

  /** A header on the wire; the value is None when it is not UTF-8. */
  datatype WireHeader = WireHeader(name: string, value: Option<string>)

  /** Later headers win and undecodable ones are skipped. */
  function Decoded(wire: seq<WireHeader>): Headers {
    if wire == [] then map[]
    else
      var last := wire[|wire| - 1];
      var rest := Decoded(wire[..|wire| - 1]);
      if last.value.Some? then rest[last.name := last.value.value] else rest
  }

  method DecodeHeaders(wire: seq<WireHeader>) returns (decoded: Headers)
    ensures decoded == Decoded(wire)
  {
    decoded := map[];
    for i := 0 to |wire|
      invariant decoded == Decoded(wire[..i])
    {
      assert wire[..i + 1][..i] == wire[..i];
      if wire[i].value.Some? {
        decoded := decoded[wire[i].name := wire[i].value.value];
      }
    }
    assert wire[..|wire|] == wire;
  }

  /** The last header of a name that decodes. */
  predicate LastDecodable(wire: seq<WireHeader>, name: string, i: int) {
    && 0 <= i < |wire| && wire[i].name == name && wire[i].value.Some?
    && forall j :: i < j < |wire| && wire[j].name == name ==> wire[j].value.None?
  }

  lemma LastDecodableStays(wire: seq<WireHeader>, name: string, i: int)
    requires wire != [] && LastDecodable(wire[..|wire| - 1], name, i)
    requires wire[|wire| - 1].name == name ==> wire[|wire| - 1].value.None?
    ensures LastDecodable(wire, name, i) && wire[i] == wire[..|wire| - 1][i]
  {
    var front := wire[..|wire| - 1];
    assert forall j :: 0 <= j < |front| ==> wire[j] == front[j];
  }

  /** What a name decodes to: the last decodable value sent under it. */
  lemma {:induction false} DecodedIsLastDecodable(wire: seq<WireHeader>, name: string)
    ensures name !in Decoded(wire) ==> forall i :: 0 <= i < |wire| && wire[i].name == name ==> wire[i].value.None?
    ensures name in Decoded(wire) ==>
              exists i :: LastDecodable(wire, name, i) && Some(Decoded(wire)[name]) == wire[i].value
  {
    if wire != [] {
      var n := |wire| - 1;
      DecodedIsLastDecodable(wire[..n], name);
      if wire[n].name == name && wire[n].value.Some? {
        assert LastDecodable(wire, name, n);
      } else if name in Decoded(wire) {
        hide LastDecodable;
        var i :| LastDecodable(wire[..n], name, i) && Some(Decoded(wire[..n])[name]) == wire[..n][i].value;
        LastDecodableStays(wire, name, i);
      }
    }
  }

  /** A decision's headers survive the wire: any listing of them decodes to the same dictionary. */
  lemma {:induction false} HeadersRoundTrip(h: Headers, wire: seq<WireHeader>)
    requires forall i :: 0 <= i < |wire| ==> wire[i].name in h && wire[i].value == Some(h[wire[i].name])
    requires forall name :: name in h ==> exists i :: 0 <= i < |wire| && wire[i].name == name
    ensures Decoded(wire) == h
  {
    forall name ensures name in Decoded(wire) <==> name in h {
      DecodedIsLastDecodable(wire, name);
    }
    forall name | name in h ensures Decoded(wire)[name] == h[name] {
      DecodedIsLastDecodable(wire, name);
    }
  }

  // ---- specification ---------------------------------------------------------------------------

  /** `CanonicalKafkaWorker.process_one` (and the sink's, whose answer is the store's). */
  function CanonicalOne(c: Config, s: Client, m: Message, env: Env, answer: Answer): (Client, Verdict) {
    var d := if m.value.None? then None
             else Decide(c, m.position.partition.topic, m.value.value, m.headers, env);
    if d.None? then (s, Raised)
    else
      var sent := if answer.landed then s.(produced := s.produced + [Produced(d.value, m.position, env)]) else s;
      if !Durable(answer) then (sent, NotDurable)
      else (sent.(committed := s.committed[m.position.partition := m.position.offset + 1]), Done)
  }

  predicate Later(dueMs: int, clock: real) {
    dueMs as real > clock * 1000.0
  }

  /** `RetryKafkaWorker.process_one`; the clock is read once for each test. */
  function RetryOne(
    c: Config, s: Client, m: Message, env: Env, horizonClock: real, dueClock: real, answer: Answer): (Client, Verdict)
  {
    var p := m.position.partition;
    if p in s.pending then (s, Raised)
    else if RetryRoute(m.headers).None? then CanonicalOne(c, s, m, env.(horizon := None), answer)
    else
      match AcceptedDeadline(c, m.headers, horizonClock)
      case None => CanonicalOne(c, s, m, env.(horizon := Some(horizonClock)), answer)
      case Some(due) =>
        if Later(due, dueClock) then
          (s.(paused := s.paused + {p}, pending := s.pending[p := Held(due, m)]), Done)
        else
          CanonicalOne(c, s, m, env.(horizon := Some(horizonClock)), answer)
  }

  /** One turn of the loop in `process_due`. */
  function Release(
    c: Config, s: Client, p: PartitionId, h: Held, clock: real, env: Env, answer: Answer): (Client, Verdict)
  {
    if Later(h.dueMs, clock) then (s, Done)
    else
      var (s', v) := CanonicalOne(c, s, h.message, env.(horizon := None), answer);
      if v != Done then (s', v)
      else (s'.(pending := s'.pending - {p}, paused := s'.paused - {p}), Done)
  }

  /** What each turn of `process_due` observes. */
  datatype Turns = Turns(clock: nat -> real, env: nat -> Env, answer: nat -> Answer)

  /** `order` lists the keys of the dictionary once each, as iterating over it does. */
  predicate Lists(order: seq<PartitionId>, pending: map<PartitionId, Held>) {
    && (forall i, j :: 0 <= i < j < |order| ==> order[i] != order[j])
    && (forall i :: 0 <= i < |order| ==> order[i] in pending)
    && (forall p :: p in pending ==> p in order)
  }

  /** `process_due` over a snapshot of the dictionary, from the i-th key on. */
  function DueFrom(
    c: Config, s: Client, snapshot: map<PartitionId, Held>, order: seq<PartitionId>, i: nat, t: Turns): (Client, Verdict)
    requires i <= |order| && forall j :: 0 <= j < |order| ==> order[j] in snapshot
    decreases |order| - i
  {
    if i == |order| then (s, Done)
    else
      var (s', v) := Release(c, s, order[i], snapshot[order[i]], t.clock(i), t.env(i), t.answer(i));
      if v != Done then (s', v) else DueFrom(c, s', snapshot, order, i + 1, t)
  }

  function Revoked(s: Client, partitions: seq<PartitionId>): Client {
    s.(pending := s.pending - set p | p in partitions)
  }

  // ---- the runtime loop ------------------------------------------------------------------------

  /** What one poll of the consumer returns. */
  datatype Polled =
    | Nothing
    | ConsumerError
    | Record(message: Message, env: Env, horizonClock: real, dueClock: real, answer: Answer)

  /** One pass of the loop in `run`; a stop signal ends the script. The rebalance callback runs inside the
      poll, before it returns a record. */
  datatype Pass = Pass(due: Turns, revoked: seq<PartitionId>, polled: Polled)

  /** The order in which iterating over a dictionary yields its keys. */
  type KeyOrder = map<PartitionId, Held> -> seq<PartitionId>

  ghost predicate ListsAlways(order: KeyOrder) {
    forall pending :: Lists(order(pending), pending)
  }

  /** The retry role of `run`: due records first, then one poll; the first failure ends the loop, and
      the result says whether there was one. */
  ghost function Loop(c: Config, s: Client, order: KeyOrder, script: seq<Pass>): (Client, bool)
    requires ListsAlways(order)
    decreases |script|
  {
    if script == [] then (s, false)
    else
      assert Lists(order(s.pending), s.pending);
      var (s1, v1) := DueFrom(c, s, s.pending, order(s.pending), 0, script[0].due);
      if v1 != Done then (s1, true)
      else
        var s2 := Revoked(s1, script[0].revoked);
        match script[0].polled
        case Nothing => Loop(c, s2, order, script[1..])
        case ConsumerError => Loop(c, s2, order, script[1..])
        case Record(m, env, horizonClock, dueClock, answer) =>
          var (s3, v3) := RetryOne(c, s2, m, env, horizonClock, dueClock, answer);
          if v3 != Done then (s3, true) else Loop(c, s3, order, script[1..])
  }

  // ---- properties of the specification -------------------------------------------------------

  lemma ReleaseLeaves(c: Config, s: Client, p: PartitionId, h: Held, clock: real, env: Env, answer: Answer)
    ensures var (s', v) := Release(c, s, p, h, clock, env, answer);
            v == Done ==> s'.pending == if Later(h.dueMs, clock) then s.pending else s.pending - {p}
  {
    hide Decide;
  }

  /** When `process_due` completes, a held record has left exactly when its own clock reading had
      reached its deadline, and everything else is held unchanged. */
  lemma {:induction false} DueReleasesExactly(
    c: Config, s: Client, snapshot: map<PartitionId, Held>, order: seq<PartitionId>, i: nat, t: Turns)
    requires i <= |order| && Lists(order, snapshot)
    requires DueFrom(c, s, snapshot, order, i, t).1 == Done
    ensures var s' := DueFrom(c, s, snapshot, order, i, t).0;
            && s'.pending.Keys <= s.pending.Keys
            && (forall p :: p in s'.pending ==> s'.pending[p] == s.pending[p])
            && (forall j :: 0 <= j < |order| && order[j] in s.pending ==>
                  (order[j] in s'.pending <==> j < i || Later(snapshot[order[j]].dueMs, t.clock(j))))
    decreases |order| - i
  {
    hide Release, Later;
    if i < |order| {
      var (s', v) := Release(c, s, order[i], snapshot[order[i]], t.clock(i), t.env(i), t.answer(i));
      ReleaseLeaves(c, s, order[i], snapshot[order[i]], t.clock(i), t.env(i), t.answer(i));
      DueReleasesExactly(c, s', snapshot, order, i + 1, t);
    }
  }

  /** After a completed `process_due`, every remaining entry was due later than the starting clock. */
  lemma DueLeavesOnlyLater(c: Config, s: Client, order: seq<PartitionId>, t: Turns, start: real)
    requires Lists(order, s.pending)
    requires forall i: nat :: start <= t.clock(i)
    requires DueFrom(c, s, s.pending, order, 0, t).1 == Done
    ensures var s' := DueFrom(c, s, s.pending, order, 0, t).0;
            forall p :: p in s'.pending ==> p in s.pending && s'.pending[p] == s.pending[p] && Later(s'.pending[p].dueMs, start)
  {
    DueReleasesExactly(c, s, s.pending, order, 0, t);
    var s' := DueFrom(c, s, s.pending, order, 0, t).0;
    forall p | p in s'.pending ensures Later(s'.pending[p].dueMs, start) {
      var j :| 0 <= j < |order| && order[j] == p;
      assert start <= t.clock(j);
    }
  }

  /** Every offset that moved from `before` to `after` moved to just past a record whose output has
      reached its topic in between. */
  ghost predicate CommitsAnswered(before: Client, after: Client) {
    && before.produced <= after.produced
    && forall p :: p in after.committed ==>
         || (p in before.committed && before.committed[p] == after.committed[p])
         || (after.committed[p] > 0
             && exists i :: |before.produced| <= i < |after.produced|
                            && after.produced[i].origin == Position(p, after.committed[p] - 1))
  }

  lemma CommitsAnsweredCompose(a: Client, b: Client, c: Client)
    requires CommitsAnswered(a, b) && CommitsAnswered(b, c)
    ensures CommitsAnswered(a, c)
  {
    forall p | p in c.committed && !(p in a.committed && a.committed[p] == c.committed[p])
      ensures c.committed[p] > 0
      ensures exists i :: |a.produced| <= i < |c.produced| && c.produced[i].origin == Position(p, c.committed[p] - 1)
    {
      if p in b.committed && b.committed[p] == c.committed[p] {
        var i :| |a.produced| <= i < |b.produced| && b.produced[i].origin == Position(p, b.committed[p] - 1);
        assert c.produced[i] == b.produced[i];
      }
    }
  }

  lemma OneAnswered(c: Config, s: Client, m: Message, env: Env, answer: Answer)
    requires Honest(answer)
    ensures CommitsAnswered(s, CanonicalOne(c, s, m, env, answer).0)
  {
    hide Decide;
    var (s', v) := CanonicalOne(c, s, m, env, answer);
    if v == Done {
      assert s'.produced[|s.produced|].origin == m.position;
    }
  }

  lemma {:induction false} DueAnswered(
    c: Config, s: Client, snapshot: map<PartitionId, Held>, order: seq<PartitionId>, i: nat, t: Turns)
    requires i <= |order| && Lists(order, snapshot) && forall k: nat :: Honest(t.answer(k))
    ensures CommitsAnswered(s, DueFrom(c, s, snapshot, order, i, t).0)
    decreases |order| - i
  {
    hide CanonicalOne;
    if i < |order| {
      OneAnswered(c, s, snapshot[order[i]].message, t.env(i).(horizon := None), t.answer(i));
      var (s', v) := Release(c, s, order[i], snapshot[order[i]], t.clock(i), t.env(i), t.answer(i));
      assert CommitsAnswered(s, s');
      if v == Done {
        DueAnswered(c, s', snapshot, order, i + 1, t);
        CommitsAnsweredCompose(s, s', DueFrom(c, s', snapshot, order, i + 1, t).0);
      }
    }
  }

  lemma PolledAnswered(c: Config, s: Client, m: Message, env: Env, horizonClock: real, dueClock: real, answer: Answer)
    requires Honest(answer)
    ensures CommitsAnswered(s, RetryOne(c, s, m, env, horizonClock, dueClock, answer).0)
  {
    hide CanonicalOne;
    OneAnswered(c, s, m, env.(horizon := None), answer);
    OneAnswered(c, s, m, env.(horizon := Some(horizonClock)), answer);
  }

  /** Over a whole run of the retry role, however it ends, whatever it holds and whatever is revoked on the
      way: no offset is committed past a record without an output. */
  lemma {:induction false} LoopAnswered(c: Config, s: Client, order: KeyOrder, script: seq<Pass>)
    requires ListsAlways(order)
    requires forall k :: 0 <= k < |script| ==>
               && (forall i: nat :: Honest(script[k].due.answer(i)))
               && (script[k].polled.Record? ==> Honest(script[k].polled.answer))
    ensures CommitsAnswered(s, Loop(c, s, order, script).0)
    decreases |script|
  {
    hide RetryOne, CommitsAnswered, DueFrom;
    if script == [] {
      NothingAnswered(s);
    } else {
      assert Lists(order(s.pending), s.pending);
      var (s1, v1) := DueFrom(c, s, s.pending, order(s.pending), 0, script[0].due);
      DueAnswered(c, s, s.pending, order(s.pending), 0, script[0].due);
      if v1 == Done {
        var s2 := Revoked(s1, script[0].revoked);
        RevokedAnswered(s, s1, script[0].revoked);
        var s3 := s2;
        if script[0].polled.Record? {
          var Record(m, env, horizonClock, dueClock, answer) := script[0].polled;
          s3 := RetryOne(c, s2, m, env, horizonClock, dueClock, answer).0;
          PolledAnswered(c, s2, m, env, horizonClock, dueClock, answer);
          CommitsAnsweredCompose(s, s2, s3);
        }
        LoopAnswered(c, s3, order, script[1..]);
        CommitsAnsweredCompose(s, s3, Loop(c, s3, order, script[1..]).0);
      }
    }
  }

  lemma RevokedAnswered(before: Client, after: Client, partitions: seq<PartitionId>)
    requires CommitsAnswered(before, after)
    ensures CommitsAnswered(before, Revoked(after, partitions))
  {
  }

  lemma NothingAnswered(s: Client)
    ensures CommitsAnswered(s, s)
  {
  }

  // ---- the workers ---------------------------------------------------------------------------

  class Consumer {
    var committed: map<PartitionId, nat>
    var paused: set<PartitionId>

    constructor ()
      ensures committed == map[] && paused == {}
    {
      committed, paused := map[], {};
    }

    method Commit(p: Position)
      modifies this`committed
      ensures committed == old(committed)[p.partition := p.offset + 1]
    {
      committed := committed[p.partition := p.offset + 1];
    }

    method Pause(p: PartitionId)
      modifies this`paused
      ensures paused == old(paused) + {p}
    {
      paused := paused + {p};
    }

    method Resume(p: PartitionId)
      modifies this`paused
      ensures paused == old(paused) - {p}
    {
      paused := paused - {p};
    }
  }

  class Producer {
    var delivered: seq<Produced>
    var queue: seq<Produced>

    constructor ()
      ensures delivered == [] && queue == []
    {
      delivered, queue := [], [];
    }

    method Produce(record: Produced)
      modifies this`queue
      ensures queue == old(queue) + [record]
    {
      queue := queue + [record];
    }

    /** Delivers or loses what is queued, and reports as the broker answered. */
    method Flush(answer: Answer) returns (outstanding: nat, errors: seq<string>)
      modifies this
      ensures queue == []
      ensures delivered == if answer.landed then old(delivered + queue) else old(delivered)
      ensures outstanding == answer.outstanding && errors == answer.errors
    {
      if answer.landed {
        delivered := delivered + queue;
      }
      queue := [];
      outstanding, errors := answer.outstanding, answer.errors;
    }
  }

  class CanonicalKafkaWorker {
    const config: Config
    const consumer: Consumer
    const producer: Producer

    constructor (config: Config, consumer: Consumer, producer: Producer)
      ensures this.config == config && this.consumer == consumer && this.producer == producer
    {
      this.config, this.consumer, this.producer := config, consumer, producer;
    }

    function View(pending: map<PartitionId, Held>): Client
      reads this, consumer, producer
    {
      Client(consumer.committed, producer.delivered, consumer.paused, pending)
    }

    method ProcessOne(m: Message, env: Env, answer: Answer, ghost pending: map<PartitionId, Held>) returns (v: Verdict)
      requires producer.queue == []
      modifies consumer`committed, producer
      ensures producer.queue == []
      ensures (View(pending), v) == CanonicalOne(config, old(View(pending)), m, env, answer)
    {
      if m.value.None? {
        return Raised;
      }
      var decision := Decide(config, m.position.partition.topic, m.value.value, m.headers, env);
      var deliveryErrors: seq<string> := [];
      if decision.None? {
        return Raised;
      }
      producer.Produce(Produced(decision.value, m.position, env));
      assert producer.queue == [Produced(decision.value, m.position, env)];
      var outstanding, errors := producer.Flush(answer);
      deliveryErrors := deliveryErrors + errors;
      if outstanding != 0 || deliveryErrors != [] {
        return NotDurable;
      }
      consumer.Commit(m.position);
      return Done;
    }
  }

  class RetryKafkaWorker {
    const base: CanonicalKafkaWorker
    var pending: map<PartitionId, Held>

    constructor (base: CanonicalKafkaWorker)
      ensures this.base == base && pending == map[]
    {
      this.base, pending := base, map[];
    }

    function View(): Client
      reads this, base, base.consumer, base.producer
    {
      base.View(pending)
    }

    method ProcessOne(m: Message, env: Env, horizonClock: real, dueClock: real, answer: Answer)
      returns (v: Verdict)
      requires base.producer.queue == []
      modifies this`pending, base.consumer, base.producer
      ensures base.producer.queue == []
      ensures (View(), v) == RetryOne(base.config, old(View()), m, env, horizonClock, dueClock, answer)
    {
      var key := m.position.partition;
      if key in pending {
        return Raised;
      }
      if RetryRoute(m.headers).None? {
        v := base.ProcessOne(m, env.(horizon := None), answer, pending);
        return;
      }
      var due := base.config.parseInt(DeadlineText(m.headers));
      if due.None? || due.value < 0 || due.value as real > horizonClock * 1000.0 + 1805000.0 {
        v := base.ProcessOne(m, env.(horizon := Some(horizonClock)), answer, pending);
        return;
      }
      if due.value as real > dueClock * 1000.0 {
        base.consumer.Pause(key);
        pending := pending[key := Held(due.value, m)];
        return Done;
      }
      v := base.ProcessOne(m, env.(horizon := Some(horizonClock)), answer, pending);
    }

    /** `order` is the order in which the dictionary yields its items. */
    method ProcessDue(order: seq<PartitionId>, t: Turns) returns (v: Verdict)
      requires base.producer.queue == [] && Lists(order, pending)
      modifies this`pending, base.consumer, base.producer
      ensures base.producer.queue == []
      ensures (View(), v) == DueFrom(base.config, old(View()), old(pending), order, 0, t)
    {
      hide CanonicalOne;
      var snapshot := pending;
      var i := 0;
      while i < |order|
        invariant i <= |order| && base.producer.queue == []
        invariant DueFrom(base.config, View(), snapshot, order, i, t)
               == DueFrom(base.config, old(View()), snapshot, order, 0, t)
      {
        var key := order[i];
        var held := snapshot[key];
        if held.dueMs as real > t.clock(i) * 1000.0 {
          i := i + 1;
          continue;
        }
        v := base.ProcessOne(held.message, t.env(i).(horizon := None), t.answer(i), pending);
        if v != Done {
          return;
        }
        pending := pending - {key};
        base.consumer.Resume(key);
        i := i + 1;
      }
      return Done;
    }

    method Run(order: KeyOrder, script: seq<Pass>) returns (failed: bool)
      requires base.producer.queue == [] && ListsAlways(order)
      modifies this`pending, base.consumer, base.producer
      ensures base.producer.queue == []
      ensures (View(), failed) == Loop(base.config, old(View()), order, script)
    {
      var k := 0;
      while k < |script|
        invariant k <= |script| && base.producer.queue == []
        invariant Loop(base.config, View(), order, script[k..]) == Loop(base.config, old(View()), order, script)
      {
        assert script[k..][1..] == script[k + 1..];
        assert Lists(order(pending), pending);
        var v := ProcessDue(order(pending), script[k].due);
        if v != Done {
          return true;
        }
        OnRevoke(script[k].revoked);
        if script[k].polled.Record? {
          var Record(m, env, horizonClock, dueClock, answer) := script[k].polled;
          v := ProcessOne(m, env, horizonClock, dueClock, answer);
          if v != Done {
            return true;
          }
        }
        k := k + 1;
      }
      return false;
    }

    method OnRevoke(partitions: seq<PartitionId>)
      modifies this`pending
      ensures View() == Revoked(old(View()), partitions)
    {
      for i := 0 to |partitions|
        invariant pending == old(pending) - set p | p in partitions[..i]
      {
        pending := pending - {partitions[i]};
      }
      assert partitions[..|partitions|] == partitions;
    }
  }
}

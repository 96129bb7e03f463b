/** Ingest accounting: any number of threads call `ingest` and `reject` on one pipeline, and interleave
    between any two acquisitions of a lock, archive write or publication. */
module Ingest {
  import opened Common
  import opened DuplicateCache

  datatype Config = Config(maxEventSize: nat, dedupEntries: nat, sha256: Bytes -> Hash)

  /** One call; its envelope is named after it. */
  datatype Job = IngestJob(raw: Bytes) | RejectJob(raw: Bytes, reason: string)

  datatype Result = Result(accepted: bool, reason: Option<string>, duplicate: bool)

  function Refusal(reason: string): Result {
    Result(false, Some(reason), false)
  }

  /** Where a call stands: what it does next. */
  datatype Pc =
    | Entered                                // count the receipt
    | Counted                                // look at the size
    | RejectThenLog(reason: string)          // count the rejection, then log it
    | LogAfterReject(reason: string)
    | LogThenReject(reason: string)          // log the rejection, then count it
    | RejectAfterLog(reason: string)
    | LookingUp                              // ask the duplicate cache
    | Archiving(duplicate: bool)
    | Publishing(duplicate: bool)
    | Accepting(duplicate: bool)             // count the acceptance
    | CountingDuplicate
    | Finished(result: Result)

  datatype Thread = Thread(job: Job, pc: Pc)

  datatype Effect = Archived(id: nat) | Published(id: nat)

  datatype Lookup = Lookup(id: nat, hash: Hash, duplicate: bool)

  /** What the threads share. */
  datatype Shared = Shared(
    received: nat,
    accepted: nat,
    rejected: nat,
    duplicates: nat,
    bytesReceived: nat,
    lookups: seq<Lookup>,
    effects: seq<Effect>,
    rejections: seq<(nat, string)>)

  const FRESH := Shared(0, 0, 0, 0, 0, [], [], [])

  function Hashes(lookups: seq<Lookup>): seq<Hash> {
    seq(|lookups|, i requires 0 <= i < |lookups| => lookups[i].hash)
  }

  /** What the environment does to one step of a call. */
  datatype Faults = Faults(archive: bool, publish: bool, log: bool)

  /** One step of call `id`: everything it does between two points where others may run. */
  function Advance(c: Config, s: Shared, id: nat, t: Thread, f: Faults): (Shared, Pc) {
    match t.pc
    case Entered =>
      (s.(received := s.received + 1, bytesReceived := s.bytesReceived + |t.job.raw|),
       if t.job.RejectJob? then LogThenReject(t.job.reason) else Counted)
    case Counted =>
      (s,
       if |t.job.raw| == 0 then RejectThenLog("empty_event")
       else if |t.job.raw| > c.maxEventSize then RejectThenLog("oversized_event")
       else LookingUp)
    case RejectThenLog(reason) => (s.(rejected := s.rejected + 1), LogAfterReject(reason))
    case LogAfterReject(reason) => (Logged(s, id, reason, f), Finished(Refusal(reason)))
    case LogThenReject(reason) => (Logged(s, id, reason, f), RejectAfterLog(reason))
    case RejectAfterLog(reason) => (s.(rejected := s.rejected + 1), Finished(Refusal(reason)))
    case LookingUp =>
      var hash := c.sha256(t.job.raw);
      var duplicate := hash in Entries(Hashes(s.lookups), c.dedupEntries);
      (s.(lookups := s.lookups + [Lookup(id, hash, duplicate)]), Archiving(duplicate))
    case Archiving(duplicate) =>
      if f.archive then (s, LogThenReject("archive_failed"))
      else (s.(effects := s.effects + [Archived(id)]), Publishing(duplicate))
    case Publishing(duplicate) =>
      if f.publish then (s, LogThenReject("publish_failed"))
      else (s.(effects := s.effects + [Published(id)]), Accepting(duplicate))
    case Accepting(duplicate) =>
      (s.(accepted := s.accepted + 1),
       if duplicate then CountingDuplicate else Finished(Result(true, None, false)))
    case CountingDuplicate =>
      (s.(duplicates := s.duplicates + 1), Finished(Result(true, None, true)))
    case Finished(_) => (s, t.pc)
  }

  /** The rejection log; an OSError leaves no entry and changes nothing else. */
  function Logged(s: Shared, id: nat, reason: string, f: Faults): Shared {
    if f.log then s else s.(rejections := s.rejections + [(id, reason)])
  }

  // ---- the machine ---------------------------------------------------------------------------------

  datatype World = World(shared: Shared, threads: seq<Thread>)

  datatype Step = Call(job: Job) | Turn(id: nat, faults: Faults)

  /** Any call may begin, and any call that has begun may take its next step. */
  function Next(c: Config, w: World, a: Step): World {
    match a
    case Call(job) => w.(threads := w.threads + [Thread(job, Entered)])
    case Turn(id, f) =>
      if id < |w.threads| then
        var t := w.threads[id];
        var (s, pc) := Advance(c, w.shared, id, t, f);
        World(s, w.threads[id := t.(pc := pc)])
      else w
  }

  predicate Run(c: Config, steps: seq<Step>, worlds: seq<World>) {
    && |worlds| == |steps| + 1 && worlds[0] == World(FRESH, [])
    && forall i :: 0 <= i < |steps| ==> worlds[i + 1] == Next(c, worlds[i], steps[i])
  }

  // ---- what each call has contributed --------------------------------------------------------------

  predicate HasReceived(t: Thread) { !t.pc.Entered? }

  predicate HasRejected(t: Thread) {
    t.pc.LogAfterReject? || (t.pc.Finished? && !t.pc.result.accepted)
  }

  predicate HasAccepted(t: Thread) {
    t.pc.CountingDuplicate? || (t.pc.Finished? && t.pc.result.accepted)
  }

  predicate HasDuplicate(t: Thread) {
    t.pc.Finished? && t.pc.result.accepted && t.pc.result.duplicate
  }

  predicate InProgress(t: Thread) {
    HasReceived(t) && !HasAccepted(t) && !HasRejected(t)
  }

  predicate HasPublished(t: Thread) { t.pc.Accepting? || HasAccepted(t) }

  function Count(ts: seq<Thread>, p: Thread -> bool): nat {
    if ts == [] then 0 else Count(ts[..|ts| - 1], p) + (if p(ts[|ts| - 1]) then 1 else 0)
  }

  function PublishedCount(effects: seq<Effect>): nat {
    if effects == [] then 0
    else PublishedCount(effects[..|effects| - 1]) + (if effects[|effects| - 1].Published? then 1 else 0)
  }

  lemma {:induction false} CountUpdate(ts: seq<Thread>, i: nat, t: Thread, p: Thread -> bool)
    requires i < |ts|
    ensures Count(ts[i := t], p) + (if p(ts[i]) then 1 else 0) == Count(ts, p) + (if p(t) then 1 else 0)
  {
    var n := |ts| - 1;
    if i < n {
      assert ts[i := t][..n] == ts[..n][i := t];
      CountUpdate(ts[..n], i, t, p);
    } else {
      assert ts[i := t][..n] == ts[..n];
    }
  }

  lemma CountPush(ts: seq<Thread>, t: Thread, p: Thread -> bool)
    ensures Count(ts + [t], p) == Count(ts, p) + (if p(t) then 1 else 0)
  {
    assert (ts + [t])[..|ts|] == ts;
  }

  lemma {:induction false} CountPartition(ts: seq<Thread>)
    ensures Count(ts, HasReceived) == Count(ts, HasAccepted) + Count(ts, HasRejected) + Count(ts, InProgress)
    ensures Count(ts, HasDuplicate) <= Count(ts, HasAccepted) <= Count(ts, HasPublished)
  {
    if ts != [] {
      CountPartition(ts[..|ts| - 1]);
    }
  }

  /** The counters are exactly what the calls have contributed so far. */
  ghost predicate Accounted(w: World) {
    && w.shared.received == Count(w.threads, HasReceived)
    && w.shared.accepted == Count(w.threads, HasAccepted)
    && w.shared.rejected == Count(w.threads, HasRejected)
    && w.shared.duplicates == Count(w.threads, HasDuplicate)
    && PublishedCount(w.shared.effects) == Count(w.threads, HasPublished)
  }

  lemma AdvanceCounts(c: Config, s: Shared, id: nat, t: Thread, f: Faults)
    ensures var (s', pc) := Advance(c, s, id, t, f);
            var t' := t.(pc := pc);
            && s'.received - s.received == (if HasReceived(t') then 1 else 0) - (if HasReceived(t) then 1 else 0)
            && s'.accepted - s.accepted == (if HasAccepted(t') then 1 else 0) - (if HasAccepted(t) then 1 else 0)
            && s'.rejected - s.rejected == (if HasRejected(t') then 1 else 0) - (if HasRejected(t) then 1 else 0)
            && s'.duplicates - s.duplicates == (if HasDuplicate(t') then 1 else 0) - (if HasDuplicate(t) then 1 else 0)
            && PublishedCount(s'.effects) - PublishedCount(s.effects)
               == (if HasPublished(t') then 1 else 0) - (if HasPublished(t) then 1 else 0)
  {
    hide Entries, Hashes;
    var (s', pc) := Advance(c, s, id, t, f);
    assert |s'.effects| > |s.effects| ==> s'.effects[..|s.effects|] == s.effects;
  }

  lemma NextKeepsAccounts(c: Config, w: World, a: Step)
    requires Accounted(w)
    ensures Accounted(Next(c, w, a))
  {
    match a
    case Call(job) =>
      var t := Thread(job, Entered);
      CountPush(w.threads, t, HasReceived);
      CountPush(w.threads, t, HasAccepted);
      CountPush(w.threads, t, HasRejected);
      CountPush(w.threads, t, HasDuplicate);
      CountPush(w.threads, t, HasPublished);
    case Turn(id, f) =>
      if id >= |w.threads| {
        return;
      }
      var t := w.threads[id];
      AdvanceCounts(c, w.shared, id, t, f);
      var t' := t.(pc := Advance(c, w.shared, id, t, f).1);
      hide Advance;
      CountUpdate(w.threads, id, t', HasReceived);
      CountUpdate(w.threads, id, t', HasAccepted);
      CountUpdate(w.threads, id, t', HasRejected);
      CountUpdate(w.threads, id, t', HasDuplicate);
      CountUpdate(w.threads, id, t', HasPublished);
  }

  lemma {:induction false} RunKeepsAccounts(c: Config, steps: seq<Step>, worlds: seq<World>, n: nat)
    requires Run(c, steps, worlds) && n < |worlds|
    ensures Accounted(worlds[n])
  {
    if n > 0 {
      RunKeepsAccounts(c, steps, worlds, n - 1);
      NextKeepsAccounts(c, worlds[n - 1], steps[n - 1]);
    }
  }

  /** In every state of every interleaving: received = accepted + rejected + calls in progress, duplicates
      are among the accepted, and nothing is accepted that was not published. */
  lemma AccountsBalance(c: Config, steps: seq<Step>, worlds: seq<World>, n: nat)
    requires Run(c, steps, worlds) && n < |worlds|
    ensures var s := worlds[n].shared;
            && s.received == s.accepted + s.rejected + Count(worlds[n].threads, InProgress)
            && s.duplicates <= s.accepted <= PublishedCount(s.effects)
  {
    RunKeepsAccounts(c, steps, worlds, n);
    CountPartition(worlds[n].threads);
  }

  // ---- archive first -------------------------------------------------------------------------------

  ghost predicate ArchivedBefore(effects: seq<Effect>, k: nat, id: nat) {
    exists j :: 0 <= j < k && j < |effects| && effects[j] == Archived(id)
  }

  predicate BeforeArchive(t: Thread) {
    t.pc.Entered? || t.pc.Counted? || t.pc.LookingUp? || t.pc.Archiving?
  }

  /** What the trace of effects says, and how it agrees with where each call stands. */
  ghost predicate ArchiveFirst(w: World) {
    var effects := w.shared.effects;
    && (forall k :: 0 <= k < |effects| ==> effects[k].id < |w.threads|)
    && (forall k :: 0 <= k < |effects| && effects[k].Published? ==> ArchivedBefore(effects, k, effects[k].id))
    && (forall j, k :: 0 <= j < k < |effects| ==> effects[j] != effects[k])
    && (forall i :: 0 <= i < |w.threads| ==> CallAgrees(effects, w.threads[i], i))
  }

  ghost predicate CallAgrees(effects: seq<Effect>, t: Thread, i: nat) {
    && (t.pc.Publishing? || HasPublished(t) ==> ArchivedBefore(effects, |effects|, i))
    && (HasPublished(t) <==> Published(i) in effects)
    && (BeforeArchive(t) ==> Archived(i) !in effects)
  }

  lemma ArchivedStays(effects: seq<Effect>, more: seq<Effect>, k: nat, id: nat)
    requires ArchivedBefore(effects, k, id)
    ensures forall m :: k <= m ==> ArchivedBefore(effects + more, m, id)
  {
    var j :| 0 <= j < k && j < |effects| && effects[j] == Archived(id);
    assert (effects + more)[j] == Archived(id);
  }

  /** What one step adds to the trace: nothing, the call's archive entry, or its publication. */
  lemma AdvanceEffects(c: Config, s: Shared, id: nat, t: Thread, f: Faults) returns (more: seq<Effect>)
    ensures var (s', pc) := Advance(c, s, id, t, f);
            && s'.effects == s.effects + more
            && (more == [] || (more == [Archived(id)] && t.pc.Archiving? && pc.Publishing?)
                || (more == [Published(id)] && t.pc.Publishing? && pc.Accepting?))
            && (more == [] ==>
                  && (HasPublished(t.(pc := pc)) <==> HasPublished(t))
                  && (pc.Publishing? ==> t.pc.Publishing?)
                  && (BeforeArchive(t.(pc := pc)) ==> BeforeArchive(t)))
  {
    hide Entries, Hashes;
    var (s', pc) := Advance(c, s, id, t, f);
    more := s'.effects[|s.effects|..];
  }

  lemma NextKeepsArchiveFirst(c: Config, w: World, a: Step)
    requires ArchiveFirst(w)
    ensures ArchiveFirst(Next(c, w, a))
  {
    var w' := Next(c, w, a);
    match a
    case Call(job) =>
      assert forall k :: 0 <= k < |w.shared.effects| ==> w.shared.effects[k].id < |w.threads|;
      assert CallAgrees(w'.shared.effects, Thread(job, Entered), |w.threads|);
      forall i | 0 <= i < |w'.threads| ensures CallAgrees(w'.shared.effects, w'.threads[i], i) {
        assert i < |w.threads| ==> CallAgrees(w.shared.effects, w.threads[i], i);
      }
    case Turn(id, f) =>
      if id >= |w.threads| {
        return;
      }
      var t := w.threads[id];
      var more := AdvanceEffects(c, w.shared, id, t, f);
      var pc := Advance(c, w.shared, id, t, f).1;
      assert w'.threads == w.threads[id := t.(pc := pc)];
      assert w'.shared.effects == w.shared.effects + more;
      hide Advance, Next;
      EffectsKeepOrder(w, w', id, pc, more);
  }

  lemma EffectsKeepOrder(w: World, w': World, id: nat, pc: Pc, more: seq<Effect>)
    requires ArchiveFirst(w) && id < |w.threads|
    requires w'.threads == w.threads[id := w.threads[id].(pc := pc)] && w'.shared.effects == w.shared.effects + more
    requires var t := w.threads[id];
             || (more == [] && (HasPublished(t.(pc := pc)) <==> HasPublished(t)) && (pc.Publishing? ==> t.pc.Publishing?)
                 && (BeforeArchive(t.(pc := pc)) ==> BeforeArchive(t)))
             || (more == [Archived(id)] && t.pc.Archiving? && pc.Publishing?)
             || (more == [Published(id)] && t.pc.Publishing? && pc.Accepting?)
    ensures ArchiveFirst(w')
  {
    var effects, effects' := w.shared.effects, w'.shared.effects;
    var n := |effects|;
    assert CallAgrees(effects, w.threads[id], id);
    assert more != [] ==> more[0] !in effects;
    assert more != [] ==> effects'[n] == more[0];
    forall k | 0 <= k < |effects'| && effects'[k].Published? ensures ArchivedBefore(effects', k, effects'[k].id) {
      if k < n {
        ArchivedStays(effects, more, k, effects[k].id);
      } else {
        ArchivedStays(effects, more, n, id);
      }
    }
    forall i | 0 <= i < |w'.threads| ensures CallAgrees(effects', w'.threads[i], i) {
      assert CallAgrees(effects, w.threads[i], i);
      if ArchivedBefore(effects, n, i) {
        ArchivedStays(effects, more, n, i);
      }
      if more == [Archived(id)] {
        assert effects'[n] == Archived(id);
      }
      assert forall e :: e in effects' <==> e in effects || e in more;
    }
  }

  /** In every state of every interleaving: every published envelope was archived earlier in the trace, each
      call archives and publishes at most once, and a call is accepted only after its publication. */
  lemma {:induction false} PublishedWasArchived(c: Config, steps: seq<Step>, worlds: seq<World>, n: nat)
    requires Run(c, steps, worlds) && n < |worlds|
    ensures ArchiveFirst(worlds[n])
  {
    if n > 0 {
      PublishedWasArchived(c, steps, worlds, n - 1);
      NextKeepsArchiveFirst(c, worlds[n - 1], steps[n - 1]);
    }
  }

  // ---- duplicate flags -----------------------------------------------------------------------------

  /** The flag a call carries after its lookup. */
  function Flag(pc: Pc): Option<bool> {
    match pc
    case Archiving(d) => Some(d)
    case Publishing(d) => Some(d)
    case Accepting(d) => Some(d)
    case CountingDuplicate => Some(true)
    case Finished(r) => if r.accepted then Some(r.duplicate) else None
    case _ => None
  }

  ghost predicate LookedUp(lookups: seq<Lookup>, i: nat, hash: Hash, duplicate: bool) {
    exists j :: 0 <= j < |lookups| && lookups[j] == Lookup(i, hash, duplicate)
  }

  /** Every answer of the cache is right about the lookups before it, and every flag is such an answer. */
  ghost predicate FlagsRight(c: Config, w: World) {
    && (forall j :: 0 <= j < |w.shared.lookups| ==>
          (w.shared.lookups[j].duplicate <==>
             SeenWithin(Hashes(w.shared.lookups[..j]), w.shared.lookups[j].hash, c.dedupEntries)))
    && (forall i :: 0 <= i < |w.threads| && Flag(w.threads[i].pc).Some? ==>
          LookedUp(w.shared.lookups, i, c.sha256(w.threads[i].job.raw), Flag(w.threads[i].pc).value))
  }

  lemma AdvanceLookups(c: Config, s: Shared, id: nat, t: Thread, f: Faults) returns (more: seq<Lookup>)
    ensures var (s', pc) := Advance(c, s, id, t, f);
            && s'.lookups == s.lookups + more
            && (more == [] ==> Flag(pc).None? || Flag(pc) == Flag(t.pc))
            && (more != [] ==>
                  var d := c.sha256(t.job.raw) in Entries(Hashes(s.lookups), c.dedupEntries);
                  more == [Lookup(id, c.sha256(t.job.raw), d)] && Flag(pc) == Some(d))
  {
    hide Entries, Hashes;
    var (s', pc) := Advance(c, s, id, t, f);
    more := s'.lookups[|s.lookups|..];
  }

  lemma NextKeepsFlags(c: Config, w: World, a: Step)
    requires FlagsRight(c, w) && c.dedupEntries > 0
    ensures FlagsRight(c, Next(c, w, a))
  {
    var w' := Next(c, w, a);
    if a.Turn? && a.id < |w.threads| {
      var t := w.threads[a.id];
      var more := AdvanceLookups(c, w.shared, a.id, t, a.faults);
      var pc := Advance(c, w.shared, a.id, t, a.faults).1;
      assert w'.threads == w.threads[a.id := t.(pc := pc)];
      hide Advance, Entries, SeenWithin;
      var lookups, lookups' := w.shared.lookups, w'.shared.lookups;
      forall j | 0 <= j < |lookups'|
        ensures lookups'[j].duplicate <==> SeenWithin(Hashes(lookups'[..j]), lookups'[j].hash, c.dedupEntries)
      {
        if j < |lookups| {
          assert lookups'[..j] == lookups[..j];
        } else {
          assert lookups'[..j] == lookups;
          HitIffSeenWithin(Hashes(lookups), c.sha256(t.job.raw), c.dedupEntries);
        }
      }
      forall i | 0 <= i < |w'.threads| && Flag(w'.threads[i].pc).Some?
        ensures LookedUp(lookups', i, c.sha256(w'.threads[i].job.raw), Flag(w'.threads[i].pc).value)
      {
        if more != [] && i == a.id {
          assert lookups'[|lookups|] == more[0];
        } else {
          var j :| 0 <= j < |lookups| && lookups[j] == Lookup(i, c.sha256(w.threads[i].job.raw), Flag(w.threads[i].pc).value);
          assert lookups'[j] == lookups[j];
        }
      }
    }
  }

  /** In every interleaving, an ingest reports a duplicate exactly when, at the moment it consulted the
      cache, the same hash had been looked up before and fewer than the capacity's number of distinct
      hashes since. */
  lemma {:induction false} DuplicatesAreRight(c: Config, steps: seq<Step>, worlds: seq<World>, n: nat)
    requires Run(c, steps, worlds) && n < |worlds| && c.dedupEntries > 0
    ensures FlagsRight(c, worlds[n])
  {
    if n > 0 {
      DuplicatesAreRight(c, steps, worlds, n - 1);
      NextKeepsFlags(c, worlds[n - 1], steps[n - 1]);
    }
  }

  // ---- the pipeline, one call at a time --------------------------------------------------------------

  function StepsLeft(pc: Pc): nat {
    match pc
    case Entered => 9
    case Counted => 8
    case LookingUp => 7
    case Archiving(_) => 6
    case Publishing(_) => 5
    case Accepting(_) => 4
    case LogThenReject(_) => 3
    case RejectThenLog(_) => 3
    case CountingDuplicate => 2
    case RejectAfterLog(_) => 2
    case LogAfterReject(_) => 2
    case Finished(_) => 0
  }

  /** A call that is never interrupted. */
  function Alone(c: Config, s: Shared, id: nat, t: Thread, f: Faults): (Shared, Result)
    decreases StepsLeft(t.pc)
  {
    if t.pc.Finished? then (s, t.pc.result)
    else
      var (s', pc) := Advance(c, s, id, t, f);
      Alone(c, s', id, t.(pc := pc), f)
  }

  lemma AloneStep(c: Config, s: Shared, id: nat, t: Thread, f: Faults)
    requires !t.pc.Finished?
    ensures var (s', pc) := Advance(c, s, id, t, f);
            Alone(c, s, id, t, f) == Alone(c, s', id, t.(pc := pc), f)
  {
  }

  lemma AloneEnds(c: Config, s: Shared, id: nat, t: Thread, f: Faults)
    requires t.pc.Finished?
    ensures Alone(c, s, id, t, f) == (s, t.pc.result)
  {
  }

  predicate Continues(c: Config, steps: seq<Step>, worlds: seq<World>) {
    |worlds| == |steps| + 1 && forall i :: 0 <= i < |steps| ==> worlds[i + 1] == Next(c, worlds[i], steps[i])
  }

  lemma {:induction false} TurnsRunAlone(c: Config, w: World, id: nat, f: Faults) returns (steps: seq<Step>, worlds: seq<World>)
    requires id < |w.threads|
    ensures Continues(c, steps, worlds) && worlds[0] == w
    ensures var t := w.threads[id];
            var (s, r) := Alone(c, w.shared, id, t, f);
            worlds[|steps|] == World(s, w.threads[id := t.(pc := Finished(r))])
    decreases StepsLeft(w.threads[id].pc)
  {
    hide Alone;
    var t := w.threads[id];
    if t.pc.Finished? {
      AloneEnds(c, w.shared, id, t, f);
      assert w.threads[id := t] == w.threads;
      steps, worlds := [], [w];
    } else {
      AloneStep(c, w.shared, id, t, f);
      Progresses(c, w.shared, id, t, f);
      var w' := Next(c, w, Turn(id, f));
      var pc := Advance(c, w.shared, id, t, f).1;
      hide Advance;
      var more, after := TurnsRunAlone(c, w', id, f);
      assert forall r :: w'.threads[id := t.(pc := r)] == w.threads[id := t.(pc := r)];
      steps, worlds := [Turn(id, f)] + more, [w] + after;
    }
  }

  lemma Progresses(c: Config, s: Shared, id: nat, t: Thread, f: Faults)
    requires !t.pc.Finished?
    ensures StepsLeft(Advance(c, s, id, t, f).1) < StepsLeft(t.pc)
  {
    hide Entries, Hashes;
  }

  /** In every state of every interleaving a new call can begin and run to its end; if nothing interrupts it, it
      does what the call alone does. */
  lemma CallsCanRunAlone(c: Config, steps: seq<Step>, worlds: seq<World>, job: Job, f: Faults)
    returns (more: seq<Step>, after: seq<World>)
    requires Run(c, steps, worlds)
    ensures Run(c, steps + more, worlds + after) && after != []
    ensures var w, id := worlds[|steps|], |worlds[|steps|].threads|;
            var (s, r) := Alone(c, w.shared, id, Thread(job, Entered), f);
            after[|after| - 1] == World(s, w.threads + [Thread(job, Finished(r))])
  {
    hide Alone;
    var w := worlds[|steps|];
    var id := |w.threads|;
    var begun := Next(c, w, Call(job));
    hide Next;
    var turns, ends := TurnsRunAlone(c, begun, id, f);
    more, after := [Call(job)] + turns, ends;
    forall i | 0 <= i < |steps + more| ensures (worlds + after)[i + 1] == Next(c, (worlds + after)[i], (steps + more)[i]) {
      if i > |steps| {
        assert (steps + more)[i] == turns[i - |steps| - 1];
      }
    }
  }

  /** What one call makes of its bytes, from its arguments and what the cache has seen. */
  predicate Fits(c: Config, raw: Bytes) {
    1 <= |raw| <= c.maxEventSize
  }

  function Reason(c: Config, raw: Bytes, f: Faults): Option<string> {
    if raw == [] then Some("empty_event")
    else if !Fits(c, raw) then Some("oversized_event")
    else if f.archive then Some("archive_failed")
    else if f.publish then Some("publish_failed")
    else None
  }

  /** An event is accepted exactly when its size is in range and both the archive and the publisher take it. It is
      counted and, if refused, logged under its reason; it is archived before it is published; and it is flagged
      as a duplicate exactly when the cache has seen its hash within the capacity. */
  lemma IngestIs(c: Config, s: Shared, id: nat, raw: Bytes, f: Faults)
    requires c.dedupEntries > 0
    ensures var (s', r) := Alone(c, s, id, Thread(IngestJob(raw), Entered), f);
            var reason := Reason(c, raw, f);
            && r.reason == reason && (r.accepted <==> reason.None?)
            && s'.received == s.received + 1 && s'.bytesReceived == s.bytesReceived + |raw|
            && s'.accepted == s.accepted + (if reason.None? then 1 else 0)
            && s'.rejected == s.rejected + (if reason.Some? then 1 else 0)
            && s'.rejections == (if reason.Some? && !f.log then s.rejections + [(id, reason.value)] else s.rejections)
            && s'.effects == (if !Fits(c, raw) || f.archive then s.effects
                              else if f.publish then s.effects + [Archived(id)]
                              else s.effects + [Archived(id), Published(id)])
            && (r.duplicate <==> r.accepted && SeenWithin(Hashes(s.lookups), c.sha256(raw), c.dedupEntries))
            && s'.duplicates == s.duplicates + (if r.duplicate then 1 else 0)
  {
    hide Entries, SeenWithin, Alone, Logged;
    HitIffSeenWithin(Hashes(s.lookups), c.sha256(raw), c.dedupEntries);
    var job := IngestJob(raw);
    var s1 := s.(received := s.received + 1, bytesReceived := s.bytesReceived + |raw|);
    AloneStep(c, s, id, Thread(job, Entered), f);
    AloneStep(c, s1, id, Thread(job, Counted), f);
    EarlyIs(c, s1, id, job, "empty_event", f);
    EarlyIs(c, s1, id, job, "oversized_event", f);
    if Fits(c, raw) {
      PreserveIs(c, s1, id, job, f);
    }
    LoggedIs(s1, id, f);
  }

  lemma LoggedIs(s: Shared, id: nat, f: Faults)
    ensures forall t: Shared, reason: string :: Logged(t, id, reason, f) ==
              if f.log then t else t.(rejections := t.rejections + [(id, reason)])
  {
  }

  lemma EarlyIs(c: Config, s: Shared, id: nat, job: Job, reason: string, f: Faults)
    ensures Alone(c, s, id, Thread(job, RejectThenLog(reason)), f)
         == (Logged(s.(rejected := s.rejected + 1), id, reason, f), Refusal(reason))
  {
    hide Alone, Logged;
    var s1 := s.(rejected := s.rejected + 1);
    AloneStep(c, s, id, Thread(job, RejectThenLog(reason)), f);
    AloneStep(c, s1, id, Thread(job, LogAfterReject(reason)), f);
    AloneEnds(c, Logged(s1, id, reason, f), id, Thread(job, Finished(Refusal(reason))), f);
  }

  lemma LateIs(c: Config, s: Shared, id: nat, job: Job, reason: string, f: Faults)
    ensures Alone(c, s, id, Thread(job, LogThenReject(reason)), f)
         == (Logged(s, id, reason, f).(rejected := Logged(s, id, reason, f).rejected + 1), Refusal(reason))
  {
    hide Alone, Logged;
    var s1 := Logged(s, id, reason, f);
    AloneStep(c, s, id, Thread(job, LogThenReject(reason)), f);
    AloneStep(c, s1, id, Thread(job, RejectAfterLog(reason)), f);
    AloneEnds(c, s1.(rejected := s1.rejected + 1), id, Thread(job, Finished(Refusal(reason))), f);
  }

  lemma AcceptIs(c: Config, s: Shared, id: nat, job: Job, seen: bool, f: Faults)
    ensures Alone(c, s, id, Thread(job, Accepting(seen)), f)
         == (s.(accepted := s.accepted + 1, duplicates := s.duplicates + (if seen then 1 else 0)), Result(true, None, seen))
  {
    hide Alone, Logged;
    var s1 := s.(accepted := s.accepted + 1);
    AloneStep(c, s, id, Thread(job, Accepting(seen)), f);
    if seen {
      AloneStep(c, s1, id, Thread(job, CountingDuplicate), f);
      AloneEnds(c, s1.(duplicates := s1.duplicates + 1), id, Thread(job, Finished(Result(true, None, true))), f);
    } else {
      AloneEnds(c, s1, id, Thread(job, Finished(Result(true, None, false))), f);
    }
  }

  lemma PreserveIs(c: Config, s: Shared, id: nat, job: Job, f: Faults)
    ensures var seen := c.sha256(job.raw) in Entries(Hashes(s.lookups), c.dedupEntries);
            var (s', r) := Alone(c, s, id, Thread(job, LookingUp), f);
            && s'.received == s.received && s'.bytesReceived == s.bytesReceived
            && s'.accepted == s.accepted + (if f.archive || f.publish then 0 else 1)
            && s'.rejected == s.rejected + (if f.archive || f.publish then 1 else 0)
            && r == (if f.archive then Refusal("archive_failed")
                     else if f.publish then Refusal("publish_failed") else Result(true, None, seen))
            && s'.rejections == (if r.accepted || f.log then s.rejections else s.rejections + [(id, r.reason.value)])
            && s'.effects == (if f.archive then s.effects
                              else if f.publish then s.effects + [Archived(id)]
                              else s.effects + [Archived(id), Published(id)])
            && s'.duplicates == s.duplicates + (if r.duplicate then 1 else 0)
  {
    hide Entries, Alone;
    var seen := c.sha256(job.raw) in Entries(Hashes(s.lookups), c.dedupEntries);
    var s1 := s.(lookups := s.lookups + [Lookup(id, c.sha256(job.raw), seen)]);
    AloneStep(c, s, id, Thread(job, LookingUp), f);
    AloneStep(c, s1, id, Thread(job, Archiving(seen)), f);
    LateIs(c, s1, id, job, "archive_failed", f);
    var s2 := s1.(effects := s1.effects + [Archived(id)]);
    AloneStep(c, s2, id, Thread(job, Publishing(seen)), f);
    LateIs(c, s2, id, job, "publish_failed", f);
    var s3 := s2.(effects := s2.effects + [Published(id)]);
    AcceptIs(c, s3, id, job, seen, f);
    assert s.effects + [Archived(id)] + [Published(id)] == s.effects + [Archived(id), Published(id)];
  }

  class CollectorMetrics {
    var received: nat
    var accepted: nat
    var rejected: nat
    var duplicates: nat
    var bytesReceived: nat

    constructor ()
      ensures received == accepted == rejected == duplicates == bytesReceived == 0
    {
      received, accepted, rejected, duplicates, bytesReceived := 0, 0, 0, 0, 0;
    }

    method RecordReceived(size: nat)
      modifies this`received, this`bytesReceived
      ensures received == old(received) + 1 && bytesReceived == old(bytesReceived) + size
    {
      received := received + 1;
      bytesReceived := bytesReceived + size;
    }

    method RecordAccepted()
      modifies this`accepted
      ensures accepted == old(accepted) + 1
    {
      accepted := accepted + 1;
    }

    method RecordRejected()
      modifies this`rejected
      ensures rejected == old(rejected) + 1
    {
      rejected := rejected + 1;
    }

    method RecordDuplicate()
      modifies this`duplicates
      ensures duplicates == old(duplicates) + 1
    {
      duplicates := duplicates + 1;
    }
  }

  class CollectionPipeline {
    const config: Config
    const metrics: CollectorMetrics
    const seenHashes: BoundedHashCache
    var effects: seq<Effect>
    var rejections: seq<(nat, string)>
    ghost var lookups: seq<Lookup>

    ghost predicate Valid()
      reads this, seenHashes
    {
      && seenHashes.Valid() && seenHashes.maxEntries == config.dedupEntries
      && seenHashes.trace == Hashes(lookups)
    }

    constructor (config: Config)
      requires config.dedupEntries > 0
      ensures Valid() && View() == FRESH && fresh(metrics) && fresh(seenHashes)
    {
      this.config := config;
      metrics := new CollectorMetrics();
      seenHashes := new BoundedHashCache(config.dedupEntries);
      effects, rejections, lookups := [], [], [];
    }

    ghost function View(): Shared
      reads this, metrics
    {
      Shared(metrics.received, metrics.accepted, metrics.rejected, metrics.duplicates, metrics.bytesReceived,
             lookups, effects, rejections)
    }

    method RecordRejection(id: nat, reason: string, faults: Faults)
      modifies this`rejections
      ensures View() == Logged(old(View()), id, reason, faults)
    {
      if !faults.log {
        rejections := rejections + [(id, reason)];
      }
    }

    method Reject(id: nat, raw: Bytes, reason: string, faults: Faults) returns (r: Result)
      requires Valid()
      modifies this, metrics
      ensures Valid()
      ensures (View(), r) == Alone(config, old(View()), id, Thread(RejectJob(raw, reason), Entered), faults)
    {
      hide Alone;
      ghost var job := RejectJob(raw, reason);
      AloneStep(config, View(), id, Thread(job, Entered), faults);
      metrics.RecordReceived(|raw|);
      r := RejectLate(id, job, reason, faults);
    }

    method Ingest(id: nat, raw: Bytes, faults: Faults) returns (r: Result)
      requires Valid()
      modifies this, metrics, seenHashes
      ensures Valid()
      ensures (View(), r) == Alone(config, old(View()), id, Thread(IngestJob(raw), Entered), faults)
    {
      hide Alone;
      ghost var job := IngestJob(raw);
      AloneStep(config, View(), id, Thread(job, Entered), faults);
      metrics.RecordReceived(|raw|);
      AloneStep(config, View(), id, Thread(job, Counted), faults);
      if |raw| == 0 {
        r := RejectEarly(id, job, "empty_event", faults);
        return;
      }
      if |raw| > config.maxEventSize {
        r := RejectEarly(id, job, "oversized_event", faults);
        return;
      }
      AloneStep(config, View(), id, Thread(job, LookingUp), faults);
      var duplicate := LookUp(id, raw);
      r := Preserve(id, job, duplicate, faults);
    }

    /** Archive, then publish, then count. */
    method Preserve(id: nat, ghost job: Job, duplicate: bool, faults: Faults) returns (r: Result)
      requires Valid()
      modifies this`effects, this`rejections, metrics
      ensures Valid()
      ensures (View(), r) == Alone(config, old(View()), id, Thread(job, Archiving(duplicate)), faults)
    {
      hide Alone;
      AloneStep(config, View(), id, Thread(job, Archiving(duplicate)), faults);
      if faults.archive {
        r := RejectLate(id, job, "archive_failed", faults);
        return;
      }
      effects := effects + [Archived(id)];
      AloneStep(config, View(), id, Thread(job, Publishing(duplicate)), faults);
      if faults.publish {
        r := RejectLate(id, job, "publish_failed", faults);
        return;
      }
      effects := effects + [Published(id)];
      r := CountAccepted(id, job, duplicate, faults);
    }

    method CountAccepted(id: nat, ghost job: Job, duplicate: bool, ghost faults: Faults) returns (r: Result)
      requires Valid()
      modifies metrics
      ensures Valid()
      ensures (View(), r) == Alone(config, old(View()), id, Thread(job, Accepting(duplicate)), faults)
    {
      hide Alone;
      AloneStep(config, View(), id, Thread(job, Accepting(duplicate)), faults);
      metrics.RecordAccepted();
      r := Result(true, None, duplicate);
      if duplicate {
        AloneStep(config, View(), id, Thread(job, CountingDuplicate), faults);
        metrics.RecordDuplicate();
      }
      AloneEnds(config, View(), id, Thread(job, Finished(r)), faults);
    }

    /** A size rejection: counted first, then logged. */
    method RejectEarly(id: nat, ghost job: Job, reason: string, faults: Faults) returns (r: Result)
      requires Valid()
      modifies this`rejections, metrics`rejected
      ensures Valid()
      ensures (View(), r) == Alone(config, old(View()), id, Thread(job, RejectThenLog(reason)), faults)
    {
      hide Alone;
      AloneStep(config, View(), id, Thread(job, RejectThenLog(reason)), faults);
      metrics.RecordRejected();
      AloneStep(config, View(), id, Thread(job, LogAfterReject(reason)), faults);
      RecordRejection(id, reason, faults);
      r := Refusal(reason);
      AloneEnds(config, View(), id, Thread(job, Finished(r)), faults);
    }

    method LookUp(id: nat, raw: Bytes) returns (duplicate: bool)
      requires Valid()
      modifies this`lookups, seenHashes
      ensures Valid()
      ensures forall job: Job, faults :: job.raw == raw ==>
                Advance(config, old(View()), id, Thread(job, LookingUp), faults) == (View(), Archiving(duplicate))
    {
      var hash := config.sha256(raw);
      HitIffSeenWithin(seenHashes.trace, hash, config.dedupEntries);
      duplicate := seenHashes.CheckAndAdd(hash);
      lookups := lookups + [Lookup(id, hash, duplicate)];
    }

    /** A framing rejection, a failed archive write or a failed publication: logged first, then counted. */
    method RejectLate(id: nat, ghost job: Job, reason: string, faults: Faults) returns (r: Result)
      requires Valid()
      modifies this`rejections, metrics`rejected
      ensures Valid()
      ensures (View(), r) == Alone(config, old(View()), id, Thread(job, LogThenReject(reason)), faults)
    {
      hide Alone;
      AloneStep(config, View(), id, Thread(job, LogThenReject(reason)), faults);
      RecordRejection(id, reason, faults);
      AloneStep(config, View(), id, Thread(job, RejectAfterLog(reason)), faults);
      metrics.RecordRejected();
      r := Refusal(reason);
      AloneEnds(config, View(), id, Thread(job, Finished(r)), faults);
    }
  }
}

/** The batch-committing worker: outputs are produced asynchronously, delivery callbacks fire at any
    later produce or flush, and one argument-less commit covers everything polled so far.

    `Batch` is the value of the worker's fields together with the broker's view of it; inputs are
    numbered in the order in which they were polled. Callback timing, clock readings, signals and the
    way one call of `_process_one` ends are parameters. */
module BatchWorker {
  import opened Common

  datatype Status = InFlight | Acked | Refused

  /** A produced record: the output of an input, or None for a metrics record. */
  datatype Output = Output(input: Option<nat>, status: Status)

  datatype Batch = Batch(
    polled: nat,
    committed: nat,  // inputs covered by the last commit
    outputs: seq<Output>,
    uncommitted: nat,
    inFlight: int,
    errors: seq<string>,
    running: bool,
    lastCommit: real,
    lastMetrics: real)

  const COMMIT_INTERVAL_MESSAGES := 500
  const COMMIT_INTERVAL_SECONDS := 5.0
  const METRICS_FLUSH_INTERVAL_SECONDS := 5.0

  function Initial(now: real): Batch {
    Batch(0, 0, [], 0, 0, [], true, now, now)
  }

  /** One delivery report: the produced record it is about, and its error if it was refused. */
  datatype Report = Report(index: nat, error: Option<string>)

  /** How handling one polled message ends: its output was produced; an exception was dead-lettered by
      the safety net (having possibly produced the regular output first); or the safety net raised as
      well, in which case the exception leaves the loop. `leaked` counts the in-flight increments of
      produce calls that raised. */
  datatype Handling =
    | Handled(served: seq<Report>)
    | Rescued(alreadyProduced: bool, leaked: nat, served: seq<Report>, rescueServed: seq<Report>)
    | Escaped(alreadyProduced: bool, leaked: nat, served: seq<Report>)

  /** How the calls after a message go: the commit call may raise, having taken effect at the broker or not,
      and so may producing the metrics record. */
  datatype Cut = NoCut | CommitRaises(applied: bool) | MetricsRaise(leaked: nat)

  /** What `_maybe_commit` and `_maybe_flush_metrics` observe at the end of a pass. */
  datatype Tail = Tail(now: real, flushed: seq<Report>, metricsNow: real, served: seq<Report>, cut: Cut)

  datatype Event =
    | Idle(tail: Tail)
    | PollError
    | PollRaises
    | Message(handling: Handling, tail: Tail)
    | Signal

  // ---- specification -----------------------------------------------------------------------------

  /** `_on_delivery`. A record is reported once, so a report on one that is not in flight is void. */
  function Delivered(s: Batch, r: Report): Batch {
    if r.index < |s.outputs| && s.outputs[r.index].status == InFlight then
      s.(inFlight := s.inFlight - 1,
         outputs := s.outputs[r.index := s.outputs[r.index].(status := if r.error.None? then Acked else Refused)],
         errors := if r.error.None? then s.errors else s.errors + [r.error.value])
    else s
  }

  function Served(s: Batch, reports: seq<Report>): Batch
    decreases |reports|
  {
    if reports == [] then s else Delivered(Served(s, reports[..|reports| - 1]), reports[|reports| - 1])
  }

  function Produce(s: Batch, input: Option<nat>, served: seq<Report>): Batch {
    Served(s.(inFlight := s.inFlight + 1, outputs := s.outputs + [Output(input, InFlight)]), served)
  }

  /** What flush leaves outstanding. */
  function Outstanding(outputs: seq<Output>): nat {
    if outputs == [] then 0
    else Outstanding(outputs[..|outputs| - 1]) + (if outputs[|outputs| - 1].status == InFlight then 1 else 0)
  }

  predicate CommitDue(s: Batch, force: bool, now: real) {
    force || s.uncommitted >= COMMIT_INTERVAL_MESSAGES || now - s.lastCommit >= COMMIT_INTERVAL_SECONDS
  }

  function MaybeCommit(s: Batch, force: bool, now: real, flushed: seq<Report>): Batch {
    if !CommitDue(s, force, now) || s.uncommitted == 0 then s
    else
      var f := Served(s, flushed);
      if Outstanding(f.outputs) > 0 then f
      else if f.errors != [] then f.(running := false)
      else f.(committed := f.polled, uncommitted := 0, lastCommit := now)
  }

  /** The guards of `_maybe_commit` pass, so that it calls commit. */
  predicate CommitReached(s: Batch, force: bool, now: real, flushed: seq<Report>) {
    CommitDue(s, force, now) && s.uncommitted != 0
    && Outstanding(Served(s, flushed).outputs) == 0 && Served(s, flushed).errors == []
  }

  /** `_maybe_commit` when commit may raise: `cut` then says whether it had taken effect. The second result is
      false when the exception leaves. */
  function Committing(s: Batch, force: bool, now: real, flushed: seq<Report>, cut: Option<bool>): (Batch, bool) {
    if cut.Some? && CommitReached(s, force, now, flushed) then
      var f := Served(s, flushed);
      (if cut.value then f.(committed := f.polled) else f, false)
    else (MaybeCommit(s, force, now, flushed), true)
  }

  function CommitCut(c: Cut): Option<bool> {
    if c.CommitRaises? then Some(c.applied) else None
  }

  function MaybeFlushMetrics(s: Batch, now: real, served: seq<Report>): Batch {
    if now - s.lastMetrics < METRICS_FLUSH_INTERVAL_SECONDS then s
    else Produce(s, None, served).(lastMetrics := now)
  }

  /** Handling of a message that has just been polled. */
  function Handle(s: Batch, h: Handling): Batch
    requires s.polled > 0
  {
    var input := Some(s.polled - 1);
    match h
    case Handled(served) => Produce(s, input, served)
    case Rescued(already, leaked, served, rescueServed) =>
      var s1 := if already then Produce(s, input, served) else s;
      Produce(s1.(inFlight := s1.inFlight + leaked), input, rescueServed)
    case Escaped(already, leaked, served) =>
      var s1 := if already then Produce(s, input, served) else s;
      s1.(inFlight := s1.inFlight + leaked)
  }

  /** The end of a pass: maybe commit, then maybe produce metrics. */
  function Closing(s: Batch, t: Tail): (Batch, bool) {
    var (s1, ok) := Committing(s, false, t.now, t.flushed, CommitCut(t.cut));
    if !ok then (s1, false)
    else if t.cut.MetricsRaise? && t.metricsNow - s1.lastMetrics >= METRICS_FLUSH_INTERVAL_SECONDS then
      (s1.(inFlight := s1.inFlight + t.cut.leaked), false)
    else (MaybeFlushMetrics(s1, t.metricsNow, t.served), true)
  }

  /** One pass of the main loop, and whether it ends without an exception. */
  function Pass(s: Batch, e: Event): (Batch, bool) {
    match e
    case Idle(t) => Closing(s, t)
    case PollError => (s, true)
    case PollRaises => (s, false)
    case Signal => (s.(running := false), true)
    case Message(h, t) =>
      var s1 := Handle(s.(polled := s.polled + 1), h);
      if h.Escaped? then (s1, false) else Closing(s1.(uncommitted := s1.uncommitted + 1), t)
  }

  /** Both the processing of a message and the safety net raise. */
  predicate NetFails(e: Event) {
    e.Message? && e.handling.Escaped?
  }

  /** The loop: it ends when the flag is down, when an exception leaves a pass, or when its script does. */
  function Loop(s: Batch, script: seq<Event>): Batch
    decreases |script|
  {
    if script == [] || !s.running then s
    else
      var (s1, ok) := Pass(s, script[0]);
      if ok then Loop(s1, script[1..]) else s1
  }

  /** The finally block: flush, then a forced commit, which may raise as well. */
  function Finish(s: Batch, flushed: seq<Report>, now: real, reflushed: seq<Report>, cut: Option<bool>): Batch {
    Committing(Served(s, flushed), true, now, reflushed, cut).0
  }

  // ---- safety ------------------------------------------------------------------------------------

  ghost predicate HasAcked(outputs: seq<Output>, i: nat) {
    exists j :: 0 <= j < |outputs| && outputs[j] == Output(Some(i), Acked)
  }

  /** Committed input never outruns acknowledged output. */
  ghost predicate Safe(s: Batch) {
    s.committed <= s.polled && forall i: nat :: i < s.committed ==> HasAcked(s.outputs, i)
  }

  ghost predicate HasOutput(outputs: seq<Output>, i: nat) {
    exists j :: 0 <= j < |outputs| && outputs[j].input == Some(i)
  }

  /** Every input below `n` has an output, outputs come from polled input, and an error is remembered
      exactly when an output was refused. */
  ghost predicate Tracked(s: Batch, n: nat) {
    && (forall j :: 0 <= j < |s.outputs| && s.outputs[j].input.Some? ==> s.outputs[j].input.value < s.polled)
    && (forall i: nat :: i < n ==> HasOutput(s.outputs, i))
    && (s.errors == [] <==> forall j :: 0 <= j < |s.outputs| ==> s.outputs[j].status != Refused)
  }

  ghost predicate AllAcked(s: Batch) {
    forall j :: 0 <= j < |s.outputs| ==> s.outputs[j].status == Acked
  }

  /** Later in the life of the same worker: outputs are never forgotten and keep their input, and an
      acknowledgement or refusal is final. */
  predicate Later(s: Batch, s': Batch) {
    && |s.outputs| <= |s'.outputs|
    && (forall j :: 0 <= j < |s.outputs| ==>
          && s'.outputs[j].input == s.outputs[j].input
          && (s.outputs[j].status != InFlight ==> s'.outputs[j] == s.outputs[j]))
    && s.errors <= s'.errors
  }

  lemma LaterKeepsAnswers(s: Batch, s': Batch)
    requires Later(s, s')
    ensures forall i: nat :: HasAcked(s.outputs, i) ==> HasAcked(s'.outputs, i)
    ensures forall i: nat :: HasOutput(s.outputs, i) ==> HasOutput(s'.outputs, i)
  {
    forall i: nat | HasAcked(s.outputs, i) ensures HasAcked(s'.outputs, i) {
      var j :| 0 <= j < |s.outputs| && s.outputs[j] == Output(Some(i), Acked);
      assert s'.outputs[j] == Output(Some(i), Acked);
    }
    forall i: nat | HasOutput(s.outputs, i) ensures HasOutput(s'.outputs, i) {
      var j :| 0 <= j < |s.outputs| && s.outputs[j].input == Some(i);
      assert s'.outputs[j].input == Some(i);
    }
  }

  lemma DeliveredKeeps(s: Batch, r: Report, n: nat)
    requires Tracked(s, n)
    ensures Tracked(Delivered(s, r), n) && Later(s, Delivered(s, r))
  {
    var s' := Delivered(s, r);
    LaterKeepsAnswers(s, s');
    if s' != s && r.error.Some? {
      assert s'.outputs[r.index].status == Refused;
    }
  }

  lemma {:induction false} ServedKeeps(s: Batch, reports: seq<Report>, n: nat)
    requires Tracked(s, n)
    ensures Tracked(Served(s, reports), n) && Later(s, Served(s, reports))
    ensures var s' := Served(s, reports);
            && |s'.outputs| == |s.outputs|
            && s'.polled == s.polled && s'.committed == s.committed && s'.uncommitted == s.uncommitted && s'.running == s.running
    decreases |reports|
  {
    if reports != [] {
      ServedKeeps(s, reports[..|reports| - 1], n);
      DeliveredKeeps(Served(s, reports[..|reports| - 1]), reports[|reports| - 1], n);
    }
  }

  lemma ProduceKeeps(s: Batch, input: Option<nat>, served: seq<Report>, n: nat)
    requires Tracked(s, n) && (input.Some? ==> input.value < s.polled)
    ensures var s' := Produce(s, input, served);
            && Tracked(s', n) && Later(s, s')
            && (input.Some? ==> HasOutput(s'.outputs, input.value))
            && s'.polled == s.polled && s'.committed == s.committed && s'.uncommitted == s.uncommitted
  {
    var s1 := s.(inFlight := s.inFlight + 1, outputs := s.outputs + [Output(input, InFlight)]);
    LaterKeepsAnswers(s, s1);
    ServedKeeps(s1, served, n);
    if input.Some? {
      assert s1.outputs[|s.outputs|].input == input;
      LaterKeepsAnswers(s1, Produce(s, input, served));
    }
  }

  lemma {:induction false} OutstandingNone(outputs: seq<Output>)
    ensures Outstanding(outputs) == 0 <==> forall j :: 0 <= j < |outputs| ==> outputs[j].status != InFlight
  {
    if outputs != [] {
      OutstandingNone(outputs[..|outputs| - 1]);
    }
  }

  /** A commit happens only when every output produced so far, metrics included, is acknowledged without
      error; it happens exactly when the guards of `_maybe_commit` pass, and then covers all polled input. */
  lemma CommitIffAllAcked(s: Batch, force: bool, now: real, flushed: seq<Report>, n: nat)
    requires Tracked(s, n)
    ensures var s' := MaybeCommit(s, force, now, flushed);
            && Tracked(s', n) && Later(s, s') && s'.polled == s.polled && |s'.outputs| == |s.outputs|
            && var commits := CommitDue(s, force, now) && s.uncommitted > 0 && AllAcked(Served(s, flushed));
            && s'.committed == (if commits then s.polled else s.committed)
            && s'.uncommitted == (if commits then 0 else s.uncommitted)
  {
    ServedKeeps(s, flushed, n);
    var f := Served(s, flushed);
    OutstandingNone(f.outputs);
  }

  /** With every polled input answered, a commit keeps committed input behind acknowledged output. */
  lemma CommitKeepsSafe(s: Batch, force: bool, now: real, flushed: seq<Report>)
    requires Tracked(s, s.polled) && Safe(s)
    ensures Safe(MaybeCommit(s, force, now, flushed)) && Tracked(MaybeCommit(s, force, now, flushed), s.polled)
  {
    CommitIffAllAcked(s, force, now, flushed, s.polled);
    var s' := MaybeCommit(s, force, now, flushed);
    LaterKeepsAnswers(s, s');
    if s'.committed != s.committed {
      forall i: nat | i < s'.committed ensures HasAcked(s'.outputs, i) {
        assert HasOutput(s'.outputs, i);
        var j :| 0 <= j < |s'.outputs| && s'.outputs[j].input == Some(i);
        ServedKeeps(s, flushed, s.polled);
        assert s'.outputs == Served(s, flushed).outputs;
        assert s'.outputs[j] == Output(Some(i), Acked);
      }
    }
  }

  /** The loop invariant: safe, tracked, and the counter covers all that is uncommitted. It can exceed that
      only after a commit that took effect and raised. */
  ghost predicate Inv(s: Batch) {
    Safe(s) && Tracked(s, s.polled) && s.uncommitted >= s.polled - s.committed
  }

  /** A commit that raises is as safe as one that returns. */
  lemma CommittingKeepsSafe(s: Batch, force: bool, now: real, flushed: seq<Report>, cut: Option<bool>)
    requires Tracked(s, s.polled) && Safe(s)
    ensures var s' := Committing(s, force, now, flushed, cut).0;
            && Safe(s') && Tracked(s', s.polled) && s'.polled == s.polled
            && (s.uncommitted >= s.polled - s.committed ==> s'.uncommitted >= s'.polled - s'.committed)
  {
    hide HasAcked, HasOutput, Served;
    CommitKeepsSafe(s, force, now, flushed);
    CommitIffAllAcked(s, force, now, flushed, s.polled);
    ServedKeeps(s, flushed, s.polled);
    LaterKeepsAnswers(s, Served(s, flushed));
  }

  lemma MetricsKeepsInv(s: Batch, now: real, served: seq<Report>)
    requires Inv(s)
    ensures Inv(MaybeFlushMetrics(s, now, served))
  {
    ProduceKeeps(s, None, served, s.polled);
    LaterKeepsAnswers(s, Produce(s, None, served));
  }

  lemma HandleKeeps(s: Batch, h: Handling, n: nat)
    requires Tracked(s, n) && s.polled > 0
    ensures var s' := Handle(s, h);
            && Tracked(s', n) && Later(s, s')
            && (!h.Escaped? || h.alreadyProduced ==> HasOutput(s'.outputs, s.polled - 1))
            && s'.polled == s.polled && s'.committed == s.committed && s'.uncommitted == s.uncommitted
  {
    hide Produce, HasOutput;
    var input := Some(s.polled - 1);
    match h
    case Handled(served) => ProduceKeeps(s, input, served, n);
    case Escaped(already, leaked, served) =>
      ProduceKeeps(s, input, served, n);
    case Rescued(already, leaked, served, rescueServed) =>
      var s1 := s;
      if already {
        ProduceKeeps(s, input, served, n);
        s1 := Produce(s, input, served);
      }
      var s2 := s1.(inFlight := s1.inFlight + leaked);
      assert Tracked(s2, n) && Later(s, s2);
      ProduceKeeps(s2, input, rescueServed, n);
      LaterComposes(s, s2, Produce(s2, input, rescueServed));
  }

  lemma LaterComposes(a: Batch, b: Batch, c: Batch)
    requires Later(a, b) && Later(b, c)
    ensures Later(a, c)
  {
  }

  /** Handling a message answers it, unless both the processing and the safety net raised before
      producing anything. */
  lemma HandleAnswers(s: Batch, h: Handling)
    requires Inv(s)
    ensures var s' := Handle(s.(polled := s.polled + 1), h);
            && Safe(s') && s'.polled == s.polled + 1 && s'.committed == s.committed && s'.uncommitted == s.uncommitted
            && Tracked(s', if h.Escaped? && !h.alreadyProduced then s.polled else s.polled + 1)
            && Later(s, s')
  {
    hide Handle;
    var s0 := s.(polled := s.polled + 1);
    assert Tracked(s0, s.polled) && Later(s, s0);
    HandleKeeps(s0, h, s.polled);
    LaterComposes(s, s0, Handle(s0, h));
    LaterKeepsAnswers(s, Handle(s0, h));
  }

  lemma ClosingKeepsInv(s: Batch, t: Tail)
    requires Inv(s)
    ensures Inv(Closing(s, t).0)
  {
    hide Committing, MaybeFlushMetrics, HasOutput, HasAcked;
    CommittingKeepsSafe(s, false, t.now, t.flushed, CommitCut(t.cut));
    MetricsKeepsInv(Committing(s, false, t.now, t.flushed, CommitCut(t.cut)).0, t.metricsNow, t.served);
  }

  lemma PassKeepsInv(s: Batch, e: Event)
    requires Inv(s) && !NetFails(e)
    ensures Inv(Pass(s, e).0)
  {
    hide Closing, Handle, HasOutput, HasAcked;
    match e
    case Idle(t) => ClosingKeepsInv(s, t);
    case Message(h, t) =>
      HandleAnswers(s, h);
      var s1 := Handle(s.(polled := s.polled + 1), h);
      ClosingKeepsInv(s1.(uncommitted := s1.uncommitted + 1), t);
    case PollError =>
    case PollRaises =>
    case Signal =>
  }

  /** At every moment of every run in which the safety net does not fail, whatever the callbacks' timing and
      whichever poll, commit or metrics call raises: committed input is behind acknowledged output. Taking
      every prefix of the script covers a crash at any pass. */
  lemma {:induction false} LoopIsSafe(s: Batch, script: seq<Event>)
    requires Inv(s) && forall k :: 0 <= k < |script| ==> !NetFails(script[k])
    ensures Inv(Loop(s, script))
    decreases |script|
  {
    hide Pass, Inv;
    if script != [] && s.running {
      PassKeepsInv(s, script[0]);
      LoopIsSafe(Pass(s, script[0]).0, script[1..]);
    }
  }

  /** The whole of `run` up to the end of its finally block. */
  lemma RunIsSafe(
    now: real, script: seq<Event>, flushed: seq<Report>, at: real, reflushed: seq<Report>, cut: Option<bool>)
    requires forall k :: 0 <= k < |script| ==> !NetFails(script[k])
    ensures Inv(Finish(Loop(Initial(now), script), flushed, at, reflushed, cut))
  {
    hide Loop, Committing;
    LoopIsSafe(Initial(now), script);
    var s := Loop(Initial(now), script);
    ServedKeeps(s, flushed, s.polled);
    LaterKeepsAnswers(s, Served(s, flushed));
    CommittingKeepsSafe(Served(s, flushed), true, at, reflushed, cut);
  }

  // ---- errors are sticky ---------------------------------------------------------------------------

  lemma PassSticky(s: Batch, e: Event)
    requires Tracked(s, 0) && s.errors != []
    ensures var s' := Pass(s, e).0; Tracked(s', 0) && s'.errors != [] && s'.committed == s.committed
  {
    hide Closing, Handle, HasOutput;
    match e
    case Idle(t) =>
      StickyClosing(s, t);
    case Message(h, t) =>
      HandleSticky(s, h);
      if !h.Escaped? {
        var s1 := Handle(s.(polled := s.polled + 1), h);
        StickyClosing(s1.(uncommitted := s1.uncommitted + 1), t);
      }
    case PollError =>
    case PollRaises =>
    case Signal =>
  }

  lemma StickyClosing(s: Batch, t: Tail)
    requires Tracked(s, 0) && s.errors != []
    ensures var s' := Closing(s, t).0; Tracked(s', 0) && s'.errors != [] && s'.committed == s.committed
  {
    hide Committing;
    StickyCommitting(s, false, t.now, t.flushed, CommitCut(t.cut));
    ProduceKeeps(Committing(s, false, t.now, t.flushed, CommitCut(t.cut)).0, None, t.served, 0);
  }

  lemma StickyCommitting(s: Batch, force: bool, now: real, flushed: seq<Report>, cut: Option<bool>)
    requires Tracked(s, 0) && s.errors != []
    ensures var s' := Committing(s, force, now, flushed, cut).0;
            Tracked(s', 0) && s'.errors != [] && s'.committed == s.committed
  {
    hide MaybeCommit;
    StickyCommit(s, force, now, flushed);
    ServedKeeps(s, flushed, 0);
  }

  lemma StickyCommit(s: Batch, force: bool, now: real, flushed: seq<Report>)
    requires Tracked(s, 0) && s.errors != []
    ensures var s' := MaybeCommit(s, force, now, flushed);
            Tracked(s', 0) && s'.errors != [] && s'.committed == s.committed
  {
    CommitIffAllAcked(s, force, now, flushed, 0);
    ServedKeeps(s, flushed, 0);
  }

  lemma HandleSticky(s: Batch, h: Handling)
    requires Tracked(s, 0) && s.errors != []
    ensures var s' := Handle(s.(polled := s.polled + 1), h);
            Tracked(s', 0) && s'.errors != [] && s'.committed == s.committed
  {
    hide Handle;
    assert Tracked(s.(polled := s.polled + 1), 0);
    HandleKeeps(s.(polled := s.polled + 1), h, 0);
  }

  lemma {:induction false} LoopSticky(s: Batch, script: seq<Event>)
    requires Tracked(s, 0) && s.errors != []
    ensures var s' := Loop(s, script); Tracked(s', 0) && s'.errors != [] && s'.committed == s.committed
    decreases |script|
  {
    hide Pass;
    if script != [] && s.running {
      PassSticky(s, script[0]);
      LoopSticky(Pass(s, script[0]).0, script[1..]);
    }
  }

  /** After one delivery error nothing is ever committed again by this worker: not by later passes, not
      after an exception, and not by the forced commit at the end. */
  lemma NoCommitAfterError(
    s: Batch, script: seq<Event>, flushed: seq<Report>, now: real, reflushed: seq<Report>, cut: Option<bool>)
    requires Tracked(s, 0) && s.errors != []
    ensures Finish(Loop(s, script), flushed, now, reflushed, cut).committed == s.committed
  {
    hide Committing, Loop;
    LoopSticky(s, script);
    ServedKeeps(Loop(s, script), flushed, 0);
    StickyCommitting(Served(Loop(s, script), flushed), true, now, reflushed, cut);
  }

  // ---- the safety net can raise --------------------------------------------------------------------

  /** When both the processing of a message and the safety net raise, the finally block still commits.
      Committed input then outruns acknowledged output exactly when nothing had been produced for the
      message, earlier input was uncommitted, the outputs produced so far all come back clean, and the forced
      commit takes effect. */
  lemma EscapeLosesInputIff(
    s: Batch, h: Handling, t: Tail, flushed: seq<Report>, now: real, reflushed: seq<Report>, cut: Option<bool>)
    requires Inv(s) && h.Escaped?
    ensures var s1 := Pass(s, Message(h, t)).0;
            Safe(Finish(s1, flushed, now, reflushed, cut)) <==>
            (h.alreadyProduced || s.uncommitted == 0 || !AllAcked(Served(Served(s1, flushed), reflushed))
             || cut == Some(false))
  {
    hide Delivered, HasOutput, HasAcked, AllAcked, Committing, Served;
    var s1 := Pass(s, Message(h, t)).0;
    HandleAnswers(s, h);
    if h.alreadyProduced {
      ServedKeepsSafe(s1, flushed, s1.polled);
      ServedKeeps(s1, flushed, s1.polled);
      CommittingKeepsSafe(Served(s1, flushed), true, now, reflushed, cut);
    } else {
      assert s1.outputs == s.outputs;
      hide Handle, Pass;
      UnansweredCommit(s, s1, flushed, now, reflushed, cut);
    }
  }

  lemma ServedKeepsSafe(s: Batch, reports: seq<Report>, n: nat)
    requires Safe(s) && Tracked(s, n)
    ensures Safe(Served(s, reports)) && Tracked(Served(s, reports), n)
  {
    ServedKeeps(s, reports, n);
    LaterKeepsAnswers(s, Served(s, reports));
  }

  /** With one polled input that has no output, the forced commit is safe exactly when it takes no effect. */
  lemma UnansweredCommit(
    s: Batch, s1: Batch, flushed: seq<Report>, now: real, reflushed: seq<Report>, cut: Option<bool>)
    requires Inv(s) && Safe(s1) && Tracked(s1, s.polled) && Later(s, s1) && s1.outputs == s.outputs
    requires s1.polled == s.polled + 1 && s1.uncommitted == s.uncommitted && s1.committed == s.committed
    ensures Safe(Finish(s1, flushed, now, reflushed, cut)) <==>
            (s.uncommitted == 0 || !AllAcked(Served(Served(s1, flushed), reflushed)) || cut == Some(false))
  {
    hide HasOutput, MaybeCommit, Served, HasAcked;
    var s2 := Served(s1, flushed);
    ServedKeepsSafe(s1, flushed, s.polled);
    ServedKeeps(s1, flushed, s.polled);
    ServedKeepsSafe(s2, reflushed, s.polled);
    ServedKeeps(s2, reflushed, s.polled);
    CommitIffAllAcked(s2, true, now, reflushed, s.polled);
    OutstandingNone(Served(s2, reflushed).outputs);
    var s' := Finish(s1, flushed, now, reflushed, cut);
    CommittedAgree(s2, now, reflushed, cut);
    hide AllAcked, Committing;
    LaterKeepsAnswers(s2, s');
    LaterComposes(s1, s2, s');
    LaterComposes(s, s1, s');
    NeverAnswered(s, s', s.polled);
  }

  /** A raising commit leaves the outputs as a returning one does, and the offset where it says. */
  lemma CommittedAgree(s: Batch, now: real, flushed: seq<Report>, cut: Option<bool>)
    requires Tracked(s, 0)
    ensures var s', m := Committing(s, true, now, flushed, cut).0, MaybeCommit(s, true, now, flushed);
            && s'.outputs == m.outputs && s'.errors == m.errors && s'.polled == s.polled && Later(s, s')
            && |s'.outputs| == |s.outputs|
            && (s'.committed == if cut == Some(false) then s.committed else m.committed)
  {
    ServedKeeps(s, flushed, 0);
  }

  /** An input that has no output and gets none stays unanswered. */
  lemma NeverAnswered(s: Batch, s': Batch, i: nat)
    requires Later(s, s') && |s'.outputs| == |s.outputs|
    requires forall j :: 0 <= j < |s.outputs| ==> s.outputs[j].input != Some(i)
    ensures !HasAcked(s'.outputs, i)
  {
  }

  /** The smallest loss: one message is produced, the next one raises twice, and the shutdown flush
      acknowledges the first. Both are then committed, the second without any output. */
  lemma EscapeCanLoseInput()
    ensures var t := Tail(0.0, [], 0.0, [], NoCut);
            var script := [Message(Handled([]), t), Message(Escaped(false, 1, []), t)];
            var s' := Finish(Loop(Initial(0.0), script), [Report(0, None)], 0.0, [], None);
            s'.committed == 2 && s'.outputs == [Output(Some(0), Acked)] && !Safe(s')
  {
    var t := Tail(0.0, [], 0.0, [], NoCut);
    var s0 := Initial(0.0);
    var first, second := Message(Handled([]), t), Message(Escaped(false, 1, []), t);
    var s1 := Pass(s0, first).0;
    assert s1 == s0.(polled := 1, outputs := [Output(Some(0), InFlight)], inFlight := 1, uncommitted := 1);
    var s2 := Pass(s1, second).0;
    assert s2 == s1.(polled := 2, inFlight := 2);
    assert [first, second][1..] == [second];
    assert Loop(s0, [first, second]) == Loop(s1, [second]) == s2;
    var s3 := Served(s2, [Report(0, None)]);
    assert [Report(0, None)][..0] == [];
    assert s3.outputs == [Output(Some(0), Acked)];
    assert Outstanding(s3.outputs) == 0 by { assert s3.outputs[..0] == []; }
    var s' := Finish(s2, [Report(0, None)], 0.0, [], None);
    assert s'.committed == 2;
    assert !HasAcked(s'.outputs, 1);
  }

  // ---- the worker ----------------------------------------------------------------------------------

  /** The broker's side: what was polled, what is committed, and the produced records. */
  class Broker {
    var polled: nat
    var committed: nat
    var outputs: seq<Output>

    constructor ()
      ensures polled == 0 && committed == 0 && outputs == []
    {
      polled, committed, outputs := 0, 0, [];
    }
  }

  class Worker {
    const broker: Broker
    var uncommitted: nat
    var inFlight: int
    var produceErrors: seq<string>
    var running: bool
    var lastCommit: real
    var lastMetricsFlush: real

    constructor (now: real)
      ensures View() == Initial(now) && fresh(broker)
    {
      broker := new Broker();
      uncommitted, inFlight, produceErrors, running := 0, 0, [], true;
      lastCommit, lastMetricsFlush := now, now;
    }

    function View(): Batch
      reads this, broker
    {
      Batch(broker.polled, broker.committed, broker.outputs, uncommitted, inFlight, produceErrors, running,
            lastCommit, lastMetricsFlush)
    }

    method OnDelivery(r: Report)
      modifies this`inFlight, this`produceErrors, broker`outputs
      ensures View() == Delivered(old(View()), r)
    {
      if r.index < |broker.outputs| && broker.outputs[r.index].status == InFlight {
        inFlight := inFlight - 1;
        var status := if r.error.None? then Acked else Refused;
        broker.outputs := broker.outputs[r.index := broker.outputs[r.index].(status := status)];
        if r.error.Some? {
          produceErrors := produceErrors + [r.error.value];
        }
      }
    }

    /** Serving callbacks, as the producer does inside poll and flush. */
    method Serve(reports: seq<Report>)
      modifies this`inFlight, this`produceErrors, broker`outputs
      ensures View() == Served(old(View()), reports)
    {
      for i := 0 to |reports|
        invariant View() == Served(old(View()), reports[..i])
      {
        assert reports[..i + 1][..i] == reports[..i];
        OnDelivery(reports[i]);
      }
      assert reports[..|reports|] == reports;
    }

    method ProduceOutput(input: Option<nat>, served: seq<Report>)
      modifies this`inFlight, this`produceErrors, broker`outputs
      ensures View() == Produce(old(View()), input, served)
    {
      inFlight := inFlight + 1;
      broker.outputs := broker.outputs + [Output(input, InFlight)];
      Serve(served);
    }

    /** False when the commit call raises; `cut` then says whether it had taken effect. */
    method CommitMaybe(force: bool, now: real, flushed: seq<Report>, cut: Option<bool>) returns (ok: bool)
      modifies this, broker
      ensures (View(), ok) == Committing(old(View()), force, now, flushed, cut)
    {
      var due := force || uncommitted >= COMMIT_INTERVAL_MESSAGES || now - lastCommit >= COMMIT_INTERVAL_SECONDS;
      if !due || uncommitted == 0 {
        return true;
      }
      Serve(flushed);
      if Outstanding(broker.outputs) > 0 {
        return true;
      }
      if produceErrors != [] {
        running := false;
        return true;
      }
      if cut != Some(false) {
        broker.committed := broker.polled;
      }
      if cut.Some? {
        return false;
      }
      uncommitted := 0;
      lastCommit := now;
      return true;
    }

    method FlushMetricsMaybe(now: real, served: seq<Report>)
      modifies this, broker
      ensures View() == MaybeFlushMetrics(old(View()), now, served)
    {
      if now - lastMetricsFlush < METRICS_FLUSH_INTERVAL_SECONDS {
        return;
      }
      ProduceOutput(None, served);
      lastMetricsFlush := now;
    }

    /** Processes the polled message, with the safety net; false when an exception escapes both. */
    method HandleMessage(h: Handling) returns (ok: bool)
      requires broker.polled > 0
      modifies this, broker
      ensures View() == Handle(old(View()), h) && ok == !h.Escaped?
    {
      var input := Some(broker.polled - 1);
      match h
      case Handled(served) =>
        ProduceOutput(input, served);
        return true;
      case Rescued(already, leaked, served, rescueServed) =>
        if already {
          ProduceOutput(input, served);
        }
        inFlight := inFlight + leaked;
        ProduceOutput(input, rescueServed);
        return true;
      case Escaped(already, leaked, served) =>
        if already {
          ProduceOutput(input, served);
        }
        inFlight := inFlight + leaked;
        return false;
    }

    /** The calls at the end of a pass. */
    method Close(t: Tail) returns (ok: bool)
      modifies this, broker
      ensures (View(), ok) == Closing(old(View()), t)
    {
      hide Committing;
      ok := CommitMaybe(false, t.now, t.flushed, CommitCut(t.cut));
      if !ok {
        return;
      }
      if t.cut.MetricsRaise? && t.metricsNow - lastMetricsFlush >= METRICS_FLUSH_INTERVAL_SECONDS {
        inFlight := inFlight + t.cut.leaked;
        return false;
      }
      FlushMetricsMaybe(t.metricsNow, t.served);
    }

    /** One pass of the main loop; false when an exception leaves it. */
    method OnePass(e: Event) returns (ok: bool)
      modifies this, broker
      ensures (View(), ok) == Pass(old(View()), e)
    {
      hide Handle, Closing;
      match e
      case Idle(t) =>
        ok := Close(t);
      case PollError =>
        return true;
      case PollRaises =>
        return false;
      case Signal =>
        running := false;
        return true;
      case Message(h, t) =>
        broker.polled := broker.polled + 1;
        ok := HandleMessage(h);
        if !ok {
          return;
        }
        uncommitted := uncommitted + 1;
        ok := Close(t);
    }

    method Run(script: seq<Event>, flushed: seq<Report>, now: real, reflushed: seq<Report>, cut: Option<bool>)
      modifies this, broker
      ensures View() == Finish(Loop(old(View()), script), flushed, now, reflushed, cut)
    {
      hide Pass, Committing;
      var k := 0;
      var ok := true;
      while k < |script| && running && ok
        invariant k <= |script|
        invariant if ok then Loop(View(), script[k..]) == Loop(old(View()), script)
                  else View() == Loop(old(View()), script)
      {
        assert script[k..][1..] == script[k + 1..];
        ok := OnePass(script[k]);
        k := k + 1;
      }
      Serve(flushed);
      ok := CommitMaybe(true, now, reflushed, cut);
    }
  }
}

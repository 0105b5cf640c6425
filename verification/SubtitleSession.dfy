/**
The plain subtitle session: PCM goes through a bounded queue into a stream that a supervisor reconnects.

Pushes, the send loop, the supervisor and the owner of the session interleave at every await. Each atomic
section in between is one step; the lemmas hold over every interleaving of the steps.
*/
module SubtitleSession {
  import opened Wrappers

  type Chunk = seq<int>

  /** 16 kHz mono s16le: 32 bytes per millisecond, rounded down per chunk. */
  function Ms(bytes: nat): nat {
    bytes / 32
  }

  function Bytes(chunks: seq<Chunk>): nat {
    if chunks == [] then 0 else |chunks[0]| + Bytes(chunks[1..])
  }

  function TotalMs(chunks: seq<Chunk>): nat {
    if chunks == [] then 0 else Ms(|chunks[0]|) + TotalMs(chunks[1..])
  }

  /** Where the supervisor is; a stream is named by the epoch it was opened for. */
  datatype Phase =
    | Off
    | Connecting(stream: nat)
    | Serving(stream: nat)
    | Closing(stream: nat, countGap: bool)
    | Backoff

  /** The part of the timeline that one epoch has sent. */
  datatype Span = Span(epoch: nat, fromMs: nat, toMs: nat)

  /**
   What happened since the session was prepared. disturbed: the stream was reset, the application stopped, the
   session was closed, or it was committed while its supervisor was already closing the connection.
   */
  datatype History = History(accepted: nat, sent: nat, reported: nat, lost: nat, spans: seq<Span>, disturbed: bool)

  datatype State = State(
    capacity: nat,
    running: bool,
    committed: bool,
    ready: bool,
    stream: Option<nat>,
    phase: Phase,
    queue: seq<Chunk>,
    inFlight: Option<Chunk>,
    epoch: nat,
    offsetMs: nat,
    audioMs: nat,
    inputMs: nat,
    gapBytes: nat,
    history: History)

  datatype Step =
    | Prepare
    | Commit
    | Push(data: Chunk)
    | Take
    | SendDone
    | SendFailed
    | HandleReady
    | BeginClose
    | FinishClose
    | Reopen
    | Connected
    | Reset
    | Halt
    | Close

  function FlightBytes(s: State): nat {
    if s.inFlight.Some? then |s.inFlight.value| else 0
  }

  function FlightMs(s: State): nat {
    if s.inFlight.Some? then Ms(|s.inFlight.value|) else 0
  }

  function Max(a: nat, b: nat): nat {
    if a < b then b else a
  }

  /** The step can be the next atomic section to run. */
  predicate Enabled(s: State, step: Step) {
    match step
    case Prepare => s.running && !s.committed && s.phase == Off
    case Commit => s.running && !s.committed && s.stream.Some? && s.ready && (s.phase.Serving? || s.phase.Closing?)
    case Push(_) => true
    case Take => s.phase.Serving? && s.inFlight.None? && s.queue != []
    case SendDone => s.phase.Serving? && s.inFlight.Some?
    case SendFailed => s.phase.Serving? && s.inFlight.Some?
    case HandleReady => s.phase.Serving?
    case BeginClose => (s.phase.Serving? && s.inFlight.None?) || s.phase.Connecting?
    case FinishClose => s.phase.Closing?
    case Reopen => s.phase.Backoff?
    case Connected => s.phase.Connecting?
    case Reset => true
    case Halt => true
    case Close => true
  }

  predicate Counting(s: State, stream: nat) {
    s.running && s.committed && s.stream == Some(stream)
  }

  function Gap(s: State, bytes: nat): State {
    s.(gapBytes := s.gapBytes + bytes)
  }

  function Lose(s: State, bytes: nat): State {
    s.(history := s.history.(lost := s.history.lost + bytes))
  }

  /** The queue emptied, its bytes counted as a gap or lost. */
  function Drained(s: State, countAsGap: bool): State {
    var t := s.(queue := []);
    if countAsGap then Gap(t, Bytes(s.queue)) else Lose(t, Bytes(s.queue))
  }

  /** No stream and no supervisor; what was in flight and the pending gap are lost. */
  function Unplugged(s: State): State {
    var t := s.(committed := false, stream := None, phase := Off, inFlight := None, gapBytes := 0,
                history := s.history.(disturbed := true));
    Lose(t, s.gapBytes + FlightBytes(s))
  }

  predicate OnAudio(step: Step) {
    step.Push? || step.Take? || step.SendDone? || step.SendFailed?
  }

  predicate OnConnection(step: Step) {
    step.HandleReady? || step.BeginClose? || step.FinishClose? || step.Reopen? || step.Connected?
  }

  predicate OnSession(step: Step) {
    step.Prepare? || step.Commit? || step.Reset? || step.Halt? || step.Close?
  }

  /** The steps of the queue and the send loop. */
  function NextAudio(s: State, step: Step): State
    requires Enabled(s, step) && OnAudio(step)
  {
    match step
    case Push(data) =>
      if !s.running || !s.committed then s
      else
        var t := s.(inputMs := s.inputMs + Ms(|data|), history := s.history.(accepted := s.history.accepted + |data|));
        if s.stream.None? || !s.ready then Gap(t, |data|)
        else if s.capacity > 0 && |s.queue| >= s.capacity then
          Gap(t, |s.queue[0]|).(queue := s.queue[1..] + [data])
        else t.(queue := s.queue + [data])
    case Take =>
      var t := s.(queue := s.queue[1..]);
      if s.committed then t.(inFlight := Some(s.queue[0])) else Lose(t, |s.queue[0]|)
    case SendDone =>
      s.(inFlight := None, audioMs := s.audioMs + FlightMs(s),
         history := s.history.(sent := s.history.sent + FlightBytes(s)))
    case SendFailed =>
      var t := s.(inFlight := None);
      if Counting(s, s.phase.stream) then Gap(t, FlightBytes(s)) else Lose(t, FlightBytes(s))
  }

  /** The steps of the supervisor. */
  function NextConnection(s: State, step: Step): State
    requires Enabled(s, step) && OnConnection(step)
  {
    match step
    case HandleReady => s.(ready := true)
    case BeginClose => s.(phase := Closing(s.phase.stream, Counting(s, s.phase.stream)))
    case FinishClose =>
      var t := s.(stream := if s.stream == Some(s.phase.stream) then None else s.stream,
                  phase := if s.running && s.committed then Backoff else Off);
      Drained(t, s.phase.countGap)
    case Reopen =>
      if !s.running || !s.committed then s.(phase := Off)
      else
        s.(offsetMs := Max(s.offsetMs + s.audioMs, s.inputMs), audioMs := 0, epoch := s.epoch + 1, ready := false,
           stream := Some(s.epoch + 1), phase := Connecting(s.epoch + 1),
           history := s.history.(spans := s.history.spans + [Span(s.epoch, s.offsetMs, s.offsetMs + s.audioMs)]))
    case Connected =>
      if !s.running || !s.committed then s.(phase := Closing(s.phase.stream, false))
      else
        s.(phase := Serving(s.phase.stream), gapBytes := 0,
           history := s.history.(reported := s.history.reported + s.gapBytes))
  }

  /** The steps of the owner. */
  function NextSession(s: State, step: Step): State
    requires Enabled(s, step) && OnSession(step)
  {
    match step
    case Prepare =>
      s.(epoch := s.epoch + 1, ready := false, stream := Some(s.epoch + 1), phase := Serving(s.epoch + 1),
         queue := [], inFlight := None, offsetMs := 0, audioMs := 0, inputMs := 0, gapBytes := 0,
         history := History(0, 0, 0, 0, [], false))
    case Commit =>
      s.(committed := true, history := s.history.(disturbed := s.history.disturbed || s.phase.Closing?))
    case Reset =>
      Lose(s.(stream := None, ready := false, gapBytes := 0, history := s.history.(disturbed := true)), s.gapBytes)
    case Halt => s.(running := false, history := s.history.(disturbed := true))
    case Close => Drained(Unplugged(s), false)
  }

  /** The effect of one step. */
  function Next(s: State, step: Step): State
    requires Enabled(s, step)
  {
    if OnAudio(step) then NextAudio(s, step)
    else if OnConnection(step) then NextConnection(s, step)
    else NextSession(s, step)
  }

  predicate Initial(s: State) {
    && !s.committed && s.stream.None? && s.phase == Off && s.queue == [] && s.inFlight.None?
    && s.offsetMs == 0 && s.audioMs == 0 && s.inputMs == 0 && s.gapBytes == 0
    && s.history == History(0, 0, 0, 0, [], false)
  }

  predicate IsRun(states: seq<State>, steps: seq<Step>) {
    && |states| == |steps| + 1
    && Initial(states[0])
    && forall i :: 0 <= i < |steps| ==> Enabled(states[i], steps[i]) && states[i + 1] == Next(states[i], steps[i])
  }

  // ---------- conservation ----------

  /** Every accepted byte has exactly one fate, and none is lost unless the session was disturbed. */
  predicate Conserved(s: State) {
    && s.history.accepted ==
       s.history.sent + Bytes(s.queue) + FlightBytes(s) + s.gapBytes + s.history.reported + s.history.lost
    && (!s.history.disturbed ==> s.history.lost == 0)
  }

  /** What conservation rests on while nothing disturbs the session. */
  predicate Undisturbed(s: State) {
    && (s.phase == Off ==> !s.committed && s.queue == [])
    && (s.phase.Serving? || s.inFlight.None?)
    && (!s.committed ==> s.queue == [] && s.inFlight.None?)
    && ((s.phase.Connecting? || s.phase.Serving?) ==> s.stream == Some(s.phase.stream))
    && (s.phase.Closing? ==> s.stream == Some(s.phase.stream) && (s.committed ==> s.phase.countGap))
    && (s.phase.Connecting? || s.phase.Backoff? ==> s.committed)
    && (s.phase != Off ==> s.running)
  }

  lemma {:induction false} BytesAppend(a: seq<Chunk>, b: seq<Chunk>)
    ensures Bytes(a + b) == Bytes(a) + Bytes(b)
    ensures TotalMs(a + b) == TotalMs(a) + TotalMs(b)
  {
    if a == [] {
      assert a + b == b;
    } else {
      assert (a + b)[1..] == a[1..] + b;
      BytesAppend(a[1..], b);
    }
  }

  lemma PushSums(s: State, data: Chunk)
    ensures Bytes(s.queue + [data]) == Bytes(s.queue) + |data|
    ensures TotalMs(s.queue + [data]) == TotalMs(s.queue) + Ms(|data|)
    ensures s.queue != [] ==> Bytes(s.queue[1..] + [data]) == Bytes(s.queue) - |s.queue[0]| + |data|
    ensures s.queue != [] ==> TotalMs(s.queue[1..] + [data]) == TotalMs(s.queue) - Ms(|s.queue[0]|) + Ms(|data|)
  {
    BytesAppend(s.queue, [data]);
    if s.queue != [] {
      BytesAppend(s.queue[1..], [data]);
    }
    assert [data][1..] == [];
  }

  lemma StepStaysUndisturbed(s: State, step: Step)
    requires Enabled(s, step) && (!s.history.disturbed ==> Undisturbed(s))
    ensures var t := Next(s, step); !t.history.disturbed ==> Undisturbed(t)
  {
  }

  lemma AudioConserves(s: State, step: Step)
    requires Enabled(s, step) && OnAudio(step) && !step.Push? && Conserved(s)
    requires !s.history.disturbed ==> Undisturbed(s)
    ensures Conserved(NextAudio(s, step))
  {
  }

  lemma ConnectionConserves(s: State, step: Step)
    requires Enabled(s, step) && OnConnection(step) && Conserved(s) && (!s.history.disturbed ==> Undisturbed(s))
    ensures Conserved(NextConnection(s, step))
  {
    assert Bytes([]) == 0;
  }

  lemma SessionConserves(s: State, step: Step)
    requires Enabled(s, step) && OnSession(step) && Conserved(s) && (!s.history.disturbed ==> Undisturbed(s))
    ensures Conserved(NextSession(s, step))
  {
    assert Bytes([]) == 0;
  }

  lemma StepConserves(s: State, step: Step)
    requires Enabled(s, step) && Conserved(s) && (!s.history.disturbed ==> Undisturbed(s))
    ensures Conserved(Next(s, step))
  {
    if step.Push? {
      PushConserves(s, step.data);
    } else if OnAudio(step) {
      AudioConserves(s, step);
    } else if OnConnection(step) {
      ConnectionConserves(s, step);
    } else {
      SessionConserves(s, step);
    }
  }

  lemma PushConserves(s: State, data: Chunk)
    requires Conserved(s)
    ensures Conserved(NextAudio(s, Push(data)))
  {
    PushSums(s, data);
  }

  // ---------- timeline ----------

  predicate Chained(spans: seq<Span>, offsetMs: nat, epoch: nat) {
    && (forall i :: 0 <= i < |spans| ==> spans[i].fromMs <= spans[i].toMs <= offsetMs && spans[i].epoch < epoch)
    && (forall i, j :: 0 <= i < j < |spans| ==> spans[i].toMs <= spans[j].fromMs && spans[i].epoch < spans[j].epoch)
  }

  /** A stream belongs to the supervisor's current connection; between connections nothing is queued. */
  predicate Wired(s: State) {
    && (s.stream.Some? ==>
          (s.phase.Connecting? || s.phase.Serving? || s.phase.Closing?) && s.stream.value == s.phase.stream)
    && (s.phase.Connecting? ==> !s.ready)
    && (s.phase.Connecting? || s.phase.Backoff? || s.phase.Off? ==> s.queue == [])
    && (s.inFlight.Some? ==> s.phase.Serving?)
  }

  /** Nothing is placed on the timeline beyond what came in, and finished epochs lie before the current one. */
  predicate OnTime(s: State) {
    && Wired(s)
    && WithinInput(s)
    && Chained(s.history.spans, s.offsetMs, s.epoch)
  }

  lemma AudioStaysWired(s: State, step: Step)
    requires Enabled(s, step) && OnAudio(step) && Wired(s)
    ensures Wired(NextAudio(s, step))
  {
  }

  lemma ConnectionStaysWired(s: State, step: Step)
    requires Enabled(s, step) && OnConnection(step) && Wired(s)
    ensures Wired(NextConnection(s, step))
  {
  }

  lemma SessionStaysWired(s: State, step: Step)
    requires Enabled(s, step) && OnSession(step) && Wired(s)
    ensures Wired(NextSession(s, step))
  {
  }

  lemma StepStaysWired(s: State, step: Step)
    requires Enabled(s, step) && Wired(s)
    ensures Wired(Next(s, step))
  {
    if OnAudio(step) {
      AudioStaysWired(s, step);
    } else if OnConnection(step) {
      ConnectionStaysWired(s, step);
    } else {
      SessionStaysWired(s, step);
    }
  }

  lemma ChainedAppend(spans: seq<Span>, offsetMs: nat, epoch: nat, toMs: nat)
    requires Chained(spans, offsetMs, epoch) && offsetMs <= toMs
    ensures Chained(spans + [Span(epoch, offsetMs, toMs)], toMs, epoch + 1)
  {
  }

  lemma ChainedLater(spans: seq<Span>, offsetMs: nat, epoch: nat, laterMs: nat)
    requires Chained(spans, offsetMs, epoch) && offsetMs <= laterMs
    ensures Chained(spans, laterMs, epoch)
  {
  }

  lemma ReopenKeepsChain(s: State)
    requires Enabled(s, Reopen) && Chained(s.history.spans, s.offsetMs, s.epoch)
    ensures var t := NextConnection(s, Reopen); Chained(t.history.spans, t.offsetMs, t.epoch)
  {
    var t := NextConnection(s, Reopen);
    if s.running && s.committed {
      ChainedAppend(s.history.spans, s.offsetMs, s.epoch, s.offsetMs + s.audioMs);
      ChainedLater(t.history.spans, s.offsetMs + s.audioMs, s.epoch + 1, t.offsetMs);
    }
  }

  lemma OnlyReopeningMoves(s: State, step: Step)
    requires Enabled(s, step) && !step.Reopen? && !step.Prepare?
    ensures var t := Next(s, step);
            t.history.spans == s.history.spans && t.offsetMs == s.offsetMs && t.epoch == s.epoch
  {
  }

  lemma StepKeepsChain(s: State, step: Step)
    requires Enabled(s, step) && Chained(s.history.spans, s.offsetMs, s.epoch)
    ensures var t := Next(s, step); Chained(t.history.spans, t.offsetMs, t.epoch)
  {
    if step.Reopen? {
      ReopenKeepsChain(s);
    } else if step.Prepare? {
      assert Next(s, step).history.spans == [];
    } else {
      OnlyReopeningMoves(s, step);
    }
  }

  predicate WithinInput(s: State) {
    s.offsetMs + s.audioMs + TotalMs(s.queue) + FlightMs(s) <= s.inputMs
  }

  lemma PushStaysWithinInput(s: State, data: Chunk)
    requires Wired(s) && WithinInput(s)
    ensures WithinInput(NextAudio(s, Push(data)))
  {
    PushSums(s, data);
  }

  lemma AudioStaysWithinInput(s: State, step: Step)
    requires Enabled(s, step) && OnAudio(step) && !step.Push? && Wired(s) && WithinInput(s)
    ensures WithinInput(NextAudio(s, step))
  {
  }

  lemma ConnectionStaysWithinInput(s: State, step: Step)
    requires Enabled(s, step) && OnConnection(step) && Wired(s) && WithinInput(s)
    ensures WithinInput(NextConnection(s, step)) && s.offsetMs <= NextConnection(s, step).offsetMs
  {
    assert TotalMs([]) == 0;
  }

  lemma SessionStaysWithinInput(s: State, step: Step)
    requires Enabled(s, step) && OnSession(step) && WithinInput(s)
    ensures WithinInput(NextSession(s, step))
  {
    assert TotalMs([]) == 0;
  }

  lemma StepStaysWithinInput(s: State, step: Step)
    requires Enabled(s, step) && Wired(s) && WithinInput(s)
    ensures WithinInput(Next(s, step))
    ensures !step.Prepare? ==> s.offsetMs <= Next(s, step).offsetMs
  {
    if step.Push? {
      PushStaysWithinInput(s, step.data);
    } else if OnAudio(step) {
      AudioStaysWithinInput(s, step);
    } else if OnConnection(step) {
      ConnectionStaysWithinInput(s, step);
    } else {
      SessionStaysWithinInput(s, step);
    }
  }

  lemma StepKeepsTime(s: State, step: Step)
    requires Enabled(s, step) && OnTime(s)
    ensures OnTime(Next(s, step))
  {
    StepStaysWired(s, step);
    StepKeepsChain(s, step);
    StepStaysWithinInput(s, step);
  }

  /** A reconnect resumes exactly at the end of the received input, skipping whatever was not sent. */
  lemma ReopenResumesAtInput(s: State)
    requires OnTime(s) && Enabled(s, Reopen) && s.running && s.committed
    ensures Next(s, Reopen).offsetMs == s.inputMs
  {
  }

  // ---------- every interleaving ----------

  /**
   In every state of every run: accepted bytes are sent, queued, in flight, pending as a gap, reported as a gap
   or lost; nothing is lost unless the session was disturbed; and the spans of different epochs never overlap.
   */
  lemma {:induction false} RunsConserveAndKeepTime(states: seq<State>, steps: seq<Step>, n: nat)
    requires IsRun(states, steps) && n <= |steps|
    ensures Conserved(states[n]) && OnTime(states[n])
    ensures !states[n].history.disturbed ==> Undisturbed(states[n])
  {
    if n > 0 {
      RunsConserveAndKeepTime(states, steps, n - 1);
      StepConserves(states[n - 1], steps[n - 1]);
      StepStaysUndisturbed(states[n - 1], steps[n - 1]);
      StepKeepsTime(states[n - 1], steps[n - 1]);
    }
  }

  /** On one timeline offsets never fall. */
  lemma {:induction false} OffsetsNeverFall(states: seq<State>, steps: seq<Step>, i: nat, j: nat)
    requires IsRun(states, steps) && i <= j <= |steps|
    requires forall k :: i <= k < j ==> !steps[k].Prepare?
    ensures states[i].offsetMs <= states[j].offsetMs
    decreases j
  {
    if i < j {
      OffsetsNeverFall(states, steps, i, j - 1);
      RunsConserveAndKeepTime(states, steps, j - 1);
      StepStaysWithinInput(states[j - 1], steps[j - 1]);
    }
  }

  /** The steps that may lose bytes without counting them. */
  predicate Disturbs(s: State, step: Step) {
    step.Reset? || step.Halt? || step.Close? || (step.Commit? && s.phase.Closing?)
  }

  lemma DisturbedOnlyByDisturbance(s: State, step: Step)
    requires Enabled(s, step) && !Disturbs(s, step) && (step.Prepare? || !s.history.disturbed)
    ensures !Next(s, step).history.disturbed
  {
  }

  lemma {:induction false} StaysUndisturbed(states: seq<State>, steps: seq<Step>, from: nat, n: nat)
    requires IsRun(states, steps) && from < n <= |steps| && steps[from] == Prepare
    requires forall i :: from < i < n ==> !Disturbs(states[i], steps[i])
    ensures !states[n].history.disturbed
  {
    if n - 1 > from {
      StaysUndisturbed(states, steps, from, n - 1);
    }
    DisturbedOnlyByDisturbance(states[n - 1], steps[n - 1]);
  }

  /** A run from the last preparation in which none of them occurs accounts for every accepted byte. */
  lemma UndisturbedRunLosesNothing(states: seq<State>, steps: seq<Step>, from: nat, n: nat)
    requires IsRun(states, steps) && from < n <= |steps| && steps[from] == Prepare
    requires forall i :: from < i < n ==> !Disturbs(states[i], steps[i])
    ensures var s := states[n];
            && !s.history.disturbed
            && s.history.accepted == s.history.sent + Bytes(s.queue) + FlightBytes(s) + s.gapBytes + s.history.reported
  {
    RunsConserveAndKeepTime(states, steps, n);
    StaysUndisturbed(states, steps, from, n);
  }

  // ---------- what a push does ----------

  /** Until the ready event of a stream its connection has nothing to send. */
  predicate QuietUntilReady(s: State) {
    (s.phase.Connecting? || s.phase.Serving?) && !s.ready ==> s.queue == [] && s.inFlight.None?
  }

  lemma AudioStaysQuiet(s: State, step: Step)
    requires Enabled(s, step) && OnAudio(step) && Undisturbed(s) && QuietUntilReady(s)
    ensures QuietUntilReady(NextAudio(s, step))
  {
  }

  lemma StepStaysQuiet(s: State, step: Step)
    requires Enabled(s, step) && Wired(s) && (!s.history.disturbed ==> Undisturbed(s) && QuietUntilReady(s))
    ensures !Next(s, step).history.disturbed ==> QuietUntilReady(Next(s, step))
  {
    if OnAudio(step) && !s.history.disturbed {
      AudioStaysQuiet(s, step);
    }
  }

  lemma {:induction false} RunStaysQuiet(states: seq<State>, steps: seq<Step>, n: nat)
    requires IsRun(states, steps) && n <= |steps|
    ensures !states[n].history.disturbed ==> QuietUntilReady(states[n])
  {
    if n > 0 {
      RunStaysQuiet(states, steps, n - 1);
      RunsConserveAndKeepTime(states, steps, n - 1);
      StepStaysQuiet(states[n - 1], steps[n - 1]);
    }
  }

  /**
  A push to a connection that is not ready yet, in any run without a disturbance: nothing waits to be sent, before or
  after, and the pending gap grows by exactly the bytes pushed.
  */
  lemma PushBeforeReadyIsGap(states: seq<State>, steps: seq<Step>, n: nat)
    requires IsRun(states, steps) && n < |steps| && !states[n].history.disturbed
    requires steps[n].Push? && states[n].committed && (states[n].phase.Connecting? || states[n].phase.Serving?)
    requires !states[n].ready
    ensures states[n].queue == states[n + 1].queue == [] && states[n + 1].inFlight.None?
    ensures states[n + 1].gapBytes == states[n].gapBytes + |steps[n].data|
  {
    RunStaysQuiet(states, steps, n);
    RunsConserveAndKeepTime(states, steps, n);
  }

  /**
  A push to a ready connection: the chunk is the last of the queue, behind all that waited; only from a full queue the
  oldest chunk is dropped, and exactly that is counted.
  */
  lemma PushWhenReadyQueues(states: seq<State>, steps: seq<Step>, n: nat)
    requires IsRun(states, steps) && n < |steps| && !states[n].history.disturbed
    requires steps[n].Push? && states[n].committed && states[n].phase.Serving? && states[n].ready
    ensures var s, t, data := states[n], states[n + 1], steps[n].data;
            if s.capacity > 0 && |s.queue| >= s.capacity then
              [s.queue[0]] + t.queue == s.queue + [data] && t.gapBytes == s.gapBytes + |s.queue[0]|
            else
              t.queue == s.queue + [data] && t.gapBytes == s.gapBytes
  {
    RunsConserveAndKeepTime(states, steps, n);
  }

  // ---------- the order of what is sent ----------

  /** a can be had from b by leaving elements out. */
  predicate Sublist(a: seq<Chunk>, b: seq<Chunk>)
    decreases |b|
  {
    if a == [] then true
    else if b == [] then false
    else if a[|a| - 1] == b[|b| - 1] && Sublist(a[..|a| - 1], b[..|b| - 1]) then true
    else Sublist(a, b[..|b| - 1])
  }

  lemma SublistSkips(a: seq<Chunk>, b: seq<Chunk>, x: Chunk)
    requires Sublist(a, b)
    ensures Sublist(a, b + [x])
  {
    assert (b + [x])[..|b|] == b;
  }

  lemma SublistTakes(a: seq<Chunk>, b: seq<Chunk>, x: Chunk)
    requires Sublist(a, b)
    ensures Sublist(a + [x], b + [x])
  {
    assert (b + [x])[..|b|] == b && (a + [x])[..|a|] == a;
  }

  /** Leaving out some more, anywhere. */
  lemma {:induction false} SublistDrops(x: seq<Chunk>, d: seq<Chunk>, y: seq<Chunk>, b: seq<Chunk>)
    requires Sublist(x + d + y, b)
    ensures Sublist(x + y, b)
    decreases |b|
  {
    var a := x + d + y;
    if b == [] || a == [] {
      assert x + y == [];
    } else {
      var rest, last := b[..|b| - 1], b[|b| - 1];
      assert b == rest + [last];
      if a[|a| - 1] == last && Sublist(a[..|a| - 1], rest) {
        if y != [] {
          var y0 := y[..|y| - 1];
          assert a[..|a| - 1] == x + d + y0 && x + y == (x + y0) + [last];
          SublistDrops(x, d, y0, rest);
          SublistTakes(x + y0, rest, last);
        } else if d != [] {
          var d0 := d[..|d| - 1];
          assert a[..|a| - 1] == x + d0 + y;
          SublistDrops(x, d0, y, rest);
          SublistSkips(x + y, rest, last);
        } else {
          assert a == x + y;
        }
      } else {
        SublistDrops(x, d, y, rest);
        SublistSkips(x + y, rest, last);
      }
    }
  }

  /** The chunks whose send has returned, in that order. */
  function SentBy(states: seq<State>, steps: seq<Step>, n: nat): seq<Chunk>
    requires n <= |steps| < |states|
  {
    if n == 0 then []
    else
      var s := states[n - 1];
      SentBy(states, steps, n - 1)
      + if steps[n - 1].SendDone? && s.inFlight.Some? then [s.inFlight.value] else []
  }

  /** The chunks pushed while the session was committed and running, in that order. */
  function AcceptedBy(states: seq<State>, steps: seq<Step>, n: nat): seq<Chunk>
    requires n <= |steps| < |states|
  {
    if n == 0 then []
    else
      var s, step := states[n - 1], steps[n - 1];
      AcceptedBy(states, steps, n - 1) + if step.Push? && s.running && s.committed then [step.data] else []
  }

  /** In flight, then the queue: the order in which they will be sent. */
  function Waiting(s: State): seq<Chunk> {
    (if s.inFlight.Some? then [s.inFlight.value] else []) + s.queue
  }

  /** Apart from a send that returns and a push, chunks only leave. */
  ghost predicate OnlyLeaves(s: State, t: State) {
    exists x: seq<Chunk>, d: seq<Chunk>, y: seq<Chunk> {:trigger x + d + y} :: Waiting(s) == x + d + y && Waiting(t) == x + y
  }

  /** A push adds at the end, or not at all; from a full queue the oldest leaves. */
  ghost predicate Enqueues(s: State, data: Chunk, t: State) {
    || Waiting(t) == Waiting(s)
    || Waiting(t) == Waiting(s) + [data]
    || (s.queue != [] && t.inFlight == s.inFlight && t.queue == s.queue[1..] + [data])
  }

  ghost predicate KeepsOrder(s: State, step: Step, t: State) {
    match step
    case SendDone => s.inFlight.Some? && Waiting(s) == [s.inFlight.value] + Waiting(t)
    case Push(data) => if s.running && s.committed then Enqueues(s, data, t) else Waiting(t) == Waiting(s)
    case _ => OnlyLeaves(s, t)
  }

  lemma LeavesNothing(s: State, t: State)
    requires Waiting(t) == Waiting(s)
    ensures OnlyLeaves(s, t)
  {
    var x: seq<Chunk> := [];
    assert Waiting(s) == x + x + Waiting(s) && Waiting(t) == x + Waiting(s);
  }

  lemma LeavesOne(s: State, t: State, x: seq<Chunk>, d: seq<Chunk>, y: seq<Chunk>)
    requires Waiting(s) == x + d + y && Waiting(t) == x + y
    ensures OnlyLeaves(s, t)
  {
  }

  lemma TakeKeepsOrder(s: State)
    requires Enabled(s, Take)
    ensures OnlyLeaves(s, NextAudio(s, Take))
  {
    var t := NextAudio(s, Take);
    assert s.queue == [s.queue[0]] + s.queue[1..];
    if s.committed {
      LeavesNothing(s, t);
    } else {
      LeavesOne(s, t, [], [s.queue[0]], s.queue[1..]);
    }
  }

  lemma FailureKeepsOrder(s: State)
    requires Enabled(s, SendFailed)
    ensures OnlyLeaves(s, NextAudio(s, SendFailed))
  {
    LeavesOne(s, NextAudio(s, SendFailed), [], [s.inFlight.value], s.queue);
  }

  lemma PushEnqueues(s: State, data: Chunk)
    ensures KeepsOrder(s, Push(data), NextAudio(s, Push(data)))
  {
    var flight := if s.inFlight.Some? then [s.inFlight.value] else [];
    assert flight + (s.queue + [data]) == flight + s.queue + [data];
  }

  lemma ConnectionKeepsOrder(s: State, step: Step)
    requires Enabled(s, step) && OnConnection(step)
    ensures OnlyLeaves(s, NextConnection(s, step))
  {
    var t := NextConnection(s, step);
    if step.FinishClose? {
      LeavesOne(s, t, if s.inFlight.Some? then [s.inFlight.value] else [], s.queue, []);
    } else {
      LeavesNothing(s, t);
    }
  }

  lemma SessionKeepsOrder(s: State, step: Step)
    requires Enabled(s, step) && OnSession(step)
    ensures OnlyLeaves(s, NextSession(s, step))
  {
    var t := NextSession(s, step);
    if step.Prepare? || step.Close? {
      LeavesOne(s, t, [], Waiting(s), []);
    } else {
      LeavesNothing(s, t);
    }
  }

  lemma StepKeepsOrder(s: State, step: Step)
    requires Enabled(s, step)
    ensures KeepsOrder(s, step, Next(s, step))
  {
    match step
    case SendDone =>
    case Push(data) => PushEnqueues(s, data);
    case Take => TakeKeepsOrder(s);
    case SendFailed => FailureKeepsOrder(s);
    case _ => if OnConnection(step) { ConnectionKeepsOrder(s, step); } else { SessionKeepsOrder(s, step); }
  }

  lemma LeavingKeepsOrder(sent: seq<Chunk>, x: seq<Chunk>, d: seq<Chunk>, y: seq<Chunk>, accepted: seq<Chunk>)
    requires Sublist(sent + (x + d + y), accepted)
    ensures Sublist(sent + (x + y), accepted)
  {
    assert sent + (x + d + y) == (sent + x) + d + y && sent + (x + y) == (sent + x) + y;
    SublistDrops(sent + x, d, y, accepted);
  }

  lemma AddingKeepsOrder(sent: seq<Chunk>, waiting: seq<Chunk>, data: Chunk, accepted: seq<Chunk>)
    requires Sublist(sent + waiting, accepted)
    ensures Sublist(sent + (waiting + [data]), accepted + [data])
  {
    assert sent + (waiting + [data]) == (sent + waiting) + [data];
    SublistTakes(sent + waiting, accepted, data);
  }

  lemma DroppingKeepsOrder(
      sent: seq<Chunk>, flight: seq<Chunk>, queue: seq<Chunk>, data: Chunk, accepted: seq<Chunk>)
    requires queue != [] && Sublist(sent + (flight + queue), accepted)
    ensures Sublist(sent + (flight + (queue[1..] + [data])), accepted + [data])
  {
    assert flight + queue == flight + [queue[0]] + queue[1..];
    LeavingKeepsOrder(sent, flight, [queue[0]], queue[1..], accepted);
    AddingKeepsOrder(sent, flight + queue[1..], data, accepted);
    assert flight + (queue[1..] + [data]) == flight + queue[1..] + [data];
  }

  lemma PushKeepsOrder(s: State, data: Chunk, t: State, sent: seq<Chunk>, accepted: seq<Chunk>)
    requires Enqueues(s, data, t) && Sublist(sent + Waiting(s), accepted)
    ensures Sublist(sent + Waiting(t), accepted + [data])
  {
    if Waiting(t) == Waiting(s) {
      SublistSkips(sent + Waiting(s), accepted, data);
    } else if Waiting(t) == Waiting(s) + [data] {
      AddingKeepsOrder(sent, Waiting(s), data, accepted);
    } else {
      DroppingKeepsOrder(sent, if s.inFlight.Some? then [s.inFlight.value] else [], s.queue, data, accepted);
    }
  }

  lemma SendKeepsOrder(s: State, t: State, sent: seq<Chunk>, accepted: seq<Chunk>)
    requires KeepsOrder(s, SendDone, t) && Sublist(sent + Waiting(s), accepted)
    ensures Sublist((sent + [s.inFlight.value]) + Waiting(t), accepted)
  {
    assert sent + ([s.inFlight.value] + Waiting(t)) == (sent + [s.inFlight.value]) + Waiting(t);
  }

  lemma LeaveKeepsOrder(s: State, t: State, sent: seq<Chunk>, accepted: seq<Chunk>)
    requires OnlyLeaves(s, t) && Sublist(sent + Waiting(s), accepted)
    ensures Sublist(sent + Waiting(t), accepted)
  {
    var x: seq<Chunk>, d: seq<Chunk>, y: seq<Chunk> :| Waiting(s) == x + d + y && Waiting(t) == x + y;
    LeavingKeepsOrder(sent, x, d, y, accepted);
  }

  lemma AddNothing(a: seq<Chunk>)
    ensures a + [] == a
  {
  }

  lemma OrderOfOneStep(s: State, step: Step, t: State, sent: seq<Chunk>, accepted: seq<Chunk>)
    requires KeepsOrder(s, step, t) && Sublist(sent + Waiting(s), accepted)
    ensures Sublist((sent + if step.SendDone? && s.inFlight.Some? then [s.inFlight.value] else []) + Waiting(t),
                    accepted + if step.Push? && s.running && s.committed then [step.data] else [])
  {
    AddNothing(sent);
    AddNothing(accepted);
    match step
    case SendDone => SendKeepsOrder(s, t, sent, accepted);
    case Push(data) => if s.running && s.committed { PushKeepsOrder(s, data, t, sent, accepted); }
    case _ => LeaveKeepsOrder(s, t, sent, accepted);
  }

  /**
  In every interleaving chunks are sent in the order they were pushed: what has been sent, then what is in flight, then
  what is queued, is the list of accepted chunks with some left out.
  */
  lemma {:induction false} SentInOrder(states: seq<State>, steps: seq<Step>, n: nat)
    requires IsRun(states, steps) && n <= |steps|
    ensures Sublist(SentBy(states, steps, n) + Waiting(states[n]), AcceptedBy(states, steps, n))
  {
    if n > 0 {
      SentInOrder(states, steps, n - 1);
      StepKeepsOrder(states[n - 1], steps[n - 1]);
      OrderOfOneStep(states[n - 1], steps[n - 1], states[n],
                     SentBy(states, steps, n - 1), AcceptedBy(states, steps, n - 1));
    }
  }

  // ---------- the clocks ----------

  /** The chunks sent to the stream of the current epoch. */
  function SentInEpoch(states: seq<State>, steps: seq<Step>, n: nat): seq<Chunk>
    requires n <= |steps| < |states|
  {
    if n == 0 || states[n].epoch != states[n - 1].epoch then []
    else
      var s := states[n - 1];
      SentInEpoch(states, steps, n - 1)
      + if steps[n - 1].SendDone? && s.inFlight.Some? then [s.inFlight.value] else []
  }

  /** The chunks accepted since the session was prepared. */
  function AcceptedSincePrepared(states: seq<State>, steps: seq<Step>, n: nat): seq<Chunk>
    requires n <= |steps| < |states|
  {
    if n == 0 || steps[n - 1].Prepare? then []
    else
      var s, step := states[n - 1], steps[n - 1];
      AcceptedSincePrepared(states, steps, n - 1) + if step.Push? && s.running && s.committed then [step.data] else []
  }

  /** How one step moves the clocks. */
  predicate Ticks(s: State, step: Step, t: State) {
    && (if t.epoch != s.epoch then t.audioMs == 0
        else t.audioMs == s.audioMs + if step.SendDone? && s.inFlight.Some? then Ms(|s.inFlight.value|) else 0)
    && (if step.Prepare? then t.inputMs == 0 && t.history.accepted == 0
        else if step.Push? && s.running && s.committed then
          t.inputMs == s.inputMs + Ms(|step.data|) && t.history.accepted == s.history.accepted + |step.data|
        else t.inputMs == s.inputMs && t.history.accepted == s.history.accepted)
  }

  lemma StepTicks(s: State, step: Step)
    requires Enabled(s, step)
    ensures Ticks(s, step, Next(s, step))
  {
  }

  /**
  In every state of every run the two clocks are the milliseconds of chunks that can be named: sent to the stream of the
  current epoch, and accepted since the preparation. The byte account counts those too.
  */
  lemma {:induction false} ClocksCountChunks(states: seq<State>, steps: seq<Step>, n: nat)
    requires IsRun(states, steps) && n <= |steps|
    ensures states[n].audioMs == TotalMs(SentInEpoch(states, steps, n))
    ensures states[n].inputMs == TotalMs(AcceptedSincePrepared(states, steps, n))
    ensures states[n].history.accepted == Bytes(AcceptedSincePrepared(states, steps, n))
  {
    if n > 0 {
      ClocksCountChunks(states, steps, n - 1);
      var s, step := states[n - 1], steps[n - 1];
      StepTicks(s, step);
      if step.SendDone? && s.inFlight.Some? {
        BytesAppend(SentInEpoch(states, steps, n - 1), [s.inFlight.value]);
        OneChunk(s.inFlight.value);
      }
      if step.Push? {
        BytesAppend(AcceptedSincePrepared(states, steps, n - 1), [step.data]);
        OneChunk(step.data);
      }
      assert SentInEpoch(states, steps, n - 1) + [] == SentInEpoch(states, steps, n - 1);
      assert AcceptedSincePrepared(states, steps, n - 1) + [] == AcceptedSincePrepared(states, steps, n - 1);
    }
  }

  lemma OneChunk(chunk: Chunk)
    ensures Bytes([chunk]) == |chunk| && TotalMs([chunk]) == Ms(|chunk|)
  {
    assert [chunk][1..] == [];
  }

  // ---------- a commit that comes too late ----------

  /** A prepared session whose connection ends before it is committed: three steps from the start. */
  lemma LateCommitIsReachable(s: State)
    requires Initial(s) && s.running
    ensures Enabled(s, Prepare) && Enabled(Next(s, Prepare), HandleReady)
    ensures Enabled(Next(Next(s, Prepare), HandleReady), BeginClose)
    ensures var t := Next(Next(Next(s, Prepare), HandleReady), BeginClose);
            && Enabled(t, Commit) && t.phase == Closing(t.epoch, false) && t.stream == Some(t.epoch)
            && t.queue == [] && t.inFlight.None?
  {
  }

  /**
   Committing while the supervisor is already closing the connection loses PCM: it decided before the commit that
   the queue is not worth counting. One accepted chunk disappears without reaching stream or gap.
   */
  lemma LateCommitLosesAudio(s: State, data: Chunk)
    requires s.running && !s.committed && s.phase == Closing(s.epoch, false) && s.stream == Some(s.epoch) && s.ready
    requires s.queue == [] && s.inFlight.None?
    ensures Enabled(s, Commit)
    ensures var pushed := Next(Next(s, Commit), Push(data));
            var end := Next(pushed, FinishClose);
            && Enabled(pushed, FinishClose)
            && end.history.accepted == s.history.accepted + |data|
            && end.history.lost == s.history.lost + |data|
            && end.gapBytes == s.gapBytes && end.phase == Backoff
  {
    PushSums(s, data);
  }

  /** The queue after the chunks were pushed onto an empty one: the latest as many as it holds. */
  function Kept(chunks: seq<Chunk>, capacity: nat): seq<Chunk> {
    if capacity > 0 && |chunks| > capacity then chunks[|chunks| - capacity..] else chunks
  }

  /** The chunks pushed by the steps. */
  function PushedBy(steps: seq<Step>): seq<Chunk> {
    if steps == [] then []
    else PushedBy(steps[..|steps| - 1]) + if steps[|steps| - 1].Push? then [steps[|steps| - 1].data] else []
  }

  /** Committed too late: the supervisor will drop what is queued. */
  predicate Doomed(s: State) {
    && s.running && s.committed && s.ready && s.stream.Some? && s.phase.Closing? && !s.phase.countGap
    && s.inFlight.None?
  }

  function QueuedWith(queue: seq<Chunk>, capacity: nat, data: Chunk): seq<Chunk> {
    if capacity > 0 && |queue| >= capacity then queue[1..] + [data] else queue + [data]
  }

  lemma KeptOneMore(chunks: seq<Chunk>, capacity: nat, data: Chunk)
    ensures Kept(chunks + [data], capacity) == QueuedWith(Kept(chunks, capacity), capacity, data)
  {
  }

  /** While doomed, a session is only pushed to. */
  predicate PushedOn(s: State, step: Step, t: State) {
    Doomed(s) ==>
      && step.Push? && Doomed(t) && t.capacity == s.capacity && t.history.lost == s.history.lost
      && t.queue == QueuedWith(s.queue, s.capacity, step.data)
  }

  lemma OnlyPushesWhileDoomed(s: State, step: Step)
    requires Enabled(s, step) && !Disturbs(s, step) && !step.FinishClose?
    ensures PushedOn(s, step, Next(s, step))
  {
  }

  lemma PushedOneMore(steps: seq<Step>, from: nat, j: nat)
    requires from <= j < |steps|
    ensures PushedBy(steps[from..j + 1])
            == PushedBy(steps[from..j]) + if steps[j].Push? then [steps[j].data] else []
  {
    assert steps[from..j + 1][..j - from] == steps[from..j];
  }

  lemma {:induction false} DoomedQueue(states: seq<State>, steps: seq<Step>, from: nat, j: nat)
    requires |states| == |steps| + 1 && from <= j <= |steps| && Doomed(states[from]) && states[from].queue == []
    requires forall k {:trigger steps[k]} :: from <= k < j ==> PushedOn(states[k], steps[k], states[k + 1])
    ensures Doomed(states[j]) && states[j].capacity == states[from].capacity
    ensures states[j].queue == Kept(PushedBy(steps[from..j]), states[from].capacity)
    ensures states[j].history.lost == states[from].history.lost
    decreases j
  {
    if from < j {
      DoomedQueue(states, steps, from, j - 1);
      PushedOneMore(steps, from, j - 1);
      var last := steps[j - 1];
      KeptOneMore(PushedBy(steps[from..j - 1]), states[from].capacity, last.data);
    } else {
      assert steps[from..j] == [];
    }
  }

  lemma {:induction false} SomeBytesIff(chunks: seq<Chunk>)
    ensures Bytes(chunks) > 0 <==> exists i :: 0 <= i < |chunks| && chunks[i] != []
  {
    if chunks != [] {
      var rest := chunks[1..];
      SomeBytesIff(rest);
      assert forall i :: 0 <= i < |rest| ==> rest[i] == chunks[i + 1];
      if exists i :: 0 <= i < |chunks| && chunks[i] != [] {
        var i :| 0 <= i < |chunks| && chunks[i] != [];
        assert i > 0 ==> rest[i - 1] != [];
      }
      if exists i :: 0 <= i < |rest| && rest[i] != [] {
        var i :| 0 <= i < |rest| && rest[i] != [];
        assert chunks[i + 1] != [];
      }
    }
  }

  lemma CommitDooms(s: State)
    requires Undisturbed(s) && Conserved(s) && !s.history.disturbed
    requires Enabled(s, Commit) && s.phase.Closing? && !s.phase.countGap
    ensures var t := Next(s, Commit); Doomed(t) && t.queue == [] && t.capacity == s.capacity && t.history.lost == 0
  {
  }

  lemma FinishCloseLoses(s: State)
    requires Enabled(s, FinishClose)
    ensures Next(s, FinishClose).history.lost == s.history.lost + if s.phase.countGap then 0 else Bytes(s.queue)
  {
  }

  /** Committed and running, and its parts fit together: nothing is dropped without being counted. */
  predicate Steady(s: State) {
    Undisturbed(s) && s.committed && s.running
  }

  lemma SteadyLosesNothing(s: State, step: Step)
    requires Steady(s) && Enabled(s, step) && !Disturbs(s, step)
    ensures Steady(Next(s, step)) && Next(s, step).history.lost == s.history.lost
  {
  }

  lemma {:induction false} NothingMoreIsLost(states: seq<State>, steps: seq<Step>, from: nat, n: nat)
    requires IsRun(states, steps) && from <= n <= |steps| && Steady(states[from])
    requires forall k :: from <= k < n ==> !Disturbs(states[k], steps[k])
    ensures Steady(states[n]) && states[n].history.lost == states[from].history.lost
    decreases n
  {
    if from < n {
      NothingMoreIsLost(states, steps, from, n - 1);
      SteadyLosesNothing(states[n - 1], steps[n - 1]);
    }
  }

  lemma ClosedIsSteady(s: State)
    requires Doomed(s) && s.stream == Some(s.phase.stream)
    ensures Enabled(s, FinishClose) && Steady(Next(s, FinishClose))
  {
  }

  /**
   What such a commit loses: exactly the chunks still in the queue when the close finishes, the latest of those
   pushed since, and nothing more until a reset, a halt or a close. Audio is lost if and only if one of them is not
   empty.
   */
  lemma LateCommitLosesExactly(states: seq<State>, steps: seq<Step>, i: nat, j: nat, n: nat)
    requires IsRun(states, steps) && i < j < n <= |steps| && !states[i].history.disturbed
    requires steps[i] == Commit && states[i].phase.Closing? && !states[i].phase.countGap && steps[j] == FinishClose
    requires forall k :: i < k < n ==> !Disturbs(states[k], steps[k])
    requires forall k :: i < k < j ==> !steps[k].FinishClose?
    ensures var queued := Kept(PushedBy(steps[i + 1..j]), states[i].capacity);
            && states[n].history.lost == Bytes(queued)
            && (states[n].history.lost > 0 <==> exists k :: 0 <= k < |queued| && queued[k] != [])
  {
    RunsConserveAndKeepTime(states, steps, i);
    CommitDooms(states[i]);
    forall k | i + 1 <= k < j ensures PushedOn(states[k], steps[k], states[k + 1]) {
      OnlyPushesWhileDoomed(states[k], steps[k]);
    }
    DoomedQueue(states, steps, i + 1, j);
    FinishCloseLoses(states[j]);
    SomeBytesIff(states[j].queue);
    RunsConserveAndKeepTime(states, steps, j);
    ClosedIsSteady(states[j]);
    NothingMoreIsLost(states, steps, j + 1, n);
  }

  // ---------- the session object ----------

  class StandardSubtitleSession {
    const capacity: nat
    var running: bool
    var committed: bool
    var ready: bool
    var stream: Option<nat>
    var phase: Phase
    var queue: seq<Chunk>
    var inFlight: Option<Chunk>
    var epoch: nat
    var offsetMs: nat
    var audioMs: nat
    var inputMs: nat
    var gapBytes: nat
    ghost var history: History

    ghost function View(): State
      reads this
    {
      State(capacity, running, committed, ready, stream, phase, queue, inFlight, epoch, offsetMs, audioMs, inputMs,
            gapBytes, history)
    }

    constructor (capacity: nat)
      ensures Initial(View()) && running && this.capacity == capacity
    {
      this.capacity := capacity;
      running, committed, ready, stream, phase := true, false, false, None, Off;
      queue, inFlight, epoch, offsetMs, audioMs, inputMs, gapBytes := [], None, 0, 0, 0, 0, 0;
      history := History(0, 0, 0, 0, [], false);
    }

    method PushAudio(data: Chunk)
      modifies this`inputMs, this`gapBytes, this`queue, this`history
      ensures View() == Next(old(View()), Push(data))
    {
      if !running || !committed {
        return;
      }
      history := history.(accepted := history.accepted + |data|);
      inputMs := inputMs + |data| / 32;
      if stream.None? || !ready {
        gapBytes := gapBytes + |data|;
        return;
      }
      if capacity > 0 && |queue| >= capacity {
        var dropped := queue[0];
        queue := queue[1..];
        gapBytes := gapBytes + |dropped|;
      }
      queue := queue + [data];
    }

    /** The send loop takes the oldest chunk. */
    method TakeChunk()
      requires Enabled(View(), Take)
      modifies this`queue, this`inFlight, this`history
      ensures View() == Next(old(View()), Take)
    {
      var chunk := queue[0];
      queue := queue[1..];
      if committed {
        inFlight := Some(chunk);
      } else {
        history := history.(lost := history.lost + |chunk|);
      }
    }

    /** The awaited send returned, raised or was cancelled. */
    method FinishSend(sent: bool)
      requires Enabled(View(), SendDone)
      modifies this`audioMs, this`inFlight, this`gapBytes, this`history
      ensures View() == Next(old(View()), if sent then SendDone else SendFailed)
    {
      var chunk := inFlight.value;
      inFlight := None;
      if sent {
        audioMs := audioMs + |chunk| / 32;
        history := history.(sent := history.sent + |chunk|);
      } else if running && committed && stream == Some(phase.stream) {
        gapBytes := gapBytes + |chunk|;
      } else {
        history := history.(lost := history.lost + |chunk|);
      }
    }

    method DrainQueue(countAsGap: bool)
      modifies this`queue, this`gapBytes, this`history
      ensures View() == Drained(old(View()), countAsGap)
    {
      while queue != []
        invariant Drained(View(), countAsGap) == Drained(old(View()), countAsGap)
        decreases |queue|
      {
        var dropped := queue[0];
        queue := queue[1..];
        if countAsGap {
          gapBytes := gapBytes + |dropped|;
        } else {
          history := history.(lost := history.lost + |dropped|);
        }
      }
    }

    /** The connection ended: whether the queue counts as a gap is decided before the stream is closed. */
    method BeginDisconnect()
      requires Enabled(View(), BeginClose)
      modifies this`phase
      ensures View() == Next(old(View()), BeginClose)
    {
      var countGap := running && committed && stream == Some(phase.stream);
      phase := Closing(phase.stream, countGap);
    }

    method FinishDisconnect()
      requires Enabled(View(), FinishClose)
      modifies this`stream, this`queue, this`gapBytes, this`history, this`phase
      ensures View() == Next(old(View()), FinishClose)
    {
      var countGap := phase.countGap;
      stream := if stream == Some(phase.stream) then None else stream;
      phase := if running && committed then Backoff else Off;
      DrainQueue(countGap);
    }

    /** A new epoch on the same timeline. */
    method Reconnect()
      requires Enabled(View(), Reopen)
      modifies this`offsetMs, this`audioMs, this`epoch, this`ready, this`stream, this`phase, this`history
      ensures View() == Next(old(View()), Reopen)
    {
      if !running || !committed {
        phase := Off;
        return;
      }
      history := history.(spans := history.spans + [Span(epoch, offsetMs, offsetMs + audioMs)]);
      offsetMs := Max(offsetMs + audioMs, inputMs);
      audioMs := 0;
      epoch := epoch + 1;
      ready := false;
      stream := Some(epoch);
      phase := Connecting(epoch);
    }

    /** The stream connected: the gap is reported once, in whole milliseconds, and starts again at zero. */
    method FlushGapNotice() returns (notice: Option<nat>)
      requires Enabled(View(), Connected)
      modifies this`phase, this`gapBytes, this`history
      ensures View() == Next(old(View()), Connected)
      ensures notice == if running && committed && old(gapBytes) > 0 then Some(Ms(old(gapBytes))) else None
    {
      if !running || !committed {
        phase := Closing(phase.stream, false);
        return None;
      }
      phase := Serving(phase.stream);
      if gapBytes <= 0 {
        return None;
      }
      notice := Some(gapBytes / 32);
      history := history.(reported := history.reported + gapBytes);
      gapBytes := 0;
    }

    method ResetStream()
      modifies this`stream, this`ready, this`gapBytes, this`history
      ensures View() == Next(old(View()), Reset)
    {
      stream := None;
      ready := false;
      history := history.(disturbed := true, lost := history.lost + gapBytes);
      gapBytes := 0;
    }

    /** Open the first stream on a fresh timeline; nothing is accepted before the commit. */
    method PrepareStream()
      requires Enabled(View(), Prepare)
      modifies this`epoch, this`ready, this`stream, this`phase, this`queue, this`inFlight, this`offsetMs, this`audioMs
      modifies this`inputMs, this`gapBytes, this`history
      ensures View() == Next(old(View()), Prepare)
    {
      DrainQueue(false);
      ResetTimeline();
      epoch := epoch + 1;
      ready := false;
      inFlight := None;
      stream := Some(epoch);
      phase := Serving(epoch);
    }

    method ResetTimeline()
      modifies this`offsetMs, this`audioMs, this`inputMs, this`gapBytes, this`history
      ensures offsetMs == audioMs == inputMs == gapBytes == 0
      ensures history == History(0, 0, 0, 0, [], false)
    {
      offsetMs, audioMs, inputMs, gapBytes := 0, 0, 0, 0;
      history := History(0, 0, 0, 0, [], false);
    }

    method HandleReadyEvent()
      requires Enabled(View(), HandleReady)
      modifies this`ready
      ensures View() == Next(old(View()), HandleReady)
    {
      ready := true;
    }

    /** Accept PCM from now on, provided the prepared stream is ready and its supervisor has not ended. */
    method CommitPrepared() returns (ok: bool)
      modifies this`committed, this`history
      ensures ok == Enabled(old(View()), Commit)
      ensures View() == if ok then Next(old(View()), Commit) else old(View())
    {
      if committed || !running || stream.None? || !ready || !(phase.Serving? || phase.Closing?) {
        return false;
      }
      history := history.(disturbed := history.disturbed || phase.Closing?);
      committed := true;
      return true;
    }

    method Unplug()
      modifies this`committed, this`gapBytes, this`stream, this`phase, this`inFlight, this`history
      ensures View() == Unplugged(old(View()))
    {
      ghost var uncounted := gapBytes + FlightBytes(View());
      committed, gapBytes, phase, inFlight, stream := false, 0, Off, None, None;
      history := history.(disturbed := true);
      history := history.(lost := history.lost + uncounted);
    }

    method CloseStream()
      modifies this`committed, this`gapBytes, this`stream, this`phase, this`inFlight, this`queue, this`history
      ensures View() == Next(old(View()), Close)
    {
      Unplug();
      DrainQueue(false);
    }
  }
}

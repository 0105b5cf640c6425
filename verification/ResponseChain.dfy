/**
The stateful response chain of the language model service: requests, resets, recoveries and one background
compaction interleave at every await, guarded by a generation number and by the id of the chain itself.

Requests and compactions in flight are the pending set; each completes in one atomic section, which is a step.
The model server hands out a new response id every time.
*/
module ResponseChain {
  import opened Wrappers
  import opened ContextMemory

  const RECOVERY_RECENT_TURN_PAIRS: int := 4

  type Id = nat

  datatype Packet = Packet(snapshot: Snapshot, recent: seq<Turn>)

  datatype Config = Config(clean: Clean, size: seq<Turn> -> nat, recentPairs: int, maxRecentBytes: int)

  /** Work suspended at an await, with the values it captured before. */
  datatype Pending =
    | Streaming(generation: nat, prompt: string, messages: seq<Message>, chain: Option<Id>, mayRetry: bool)
    | Recovering(generation: nat, prompt: string, messages: seq<Message>, packet: Packet, retry: bool)
    | Compacting(generation: nat, prompt: string, userTurns: nat, source: Id, packet: Packet, turns: seq<Turn>)

  /** belief records, for every response id handed out, the completed turns the chain behind it stands for. */
  datatype State = State(
    chain: Option<Id>,
    prompt: Option<string>,
    completedUserTurns: int,
    generation: nat,
    packet: Option<Packet>,
    closed: bool,
    pending: set<Pending>,
    issued: nat,
    belief: map<Id, seq<Turn>>)

  datatype Step =
    | Begin(messages: seq<Message>)
    | RecoveryDone(work: Pending)
    | StreamDone(work: Pending, answer: string, schedule: bool)
    | ChainRejected(work: Pending)
    | TimedOut(work: Pending)
    | CompactionDone(work: Pending)
    | Abandon(work: Pending)
    | ResetConversation
    | Close

  // ---------- input ----------

  function UserTurns(messages: seq<Message>): nat {
    if messages == [] then 0
    else UserTurns(messages[..|messages| - 1])
         + if messages[|messages| - 1].role == User && HasText(messages[|messages| - 1]) then 1 else 0
  }

  function SystemMessages(messages: seq<Message>): seq<Message> {
    if messages == [] then []
    else SystemMessages(messages[..|messages| - 1])
         + if messages[|messages| - 1].role == System then [messages[|messages| - 1]] else []
  }

  /** Exactly one system message, with text, and a user message with text at the end. */
  predicate IsInput(messages: seq<Message>) {
    && |SystemMessages(messages)| == 1 && HasText(SystemMessages(messages)[0])
    && messages != []
    && messages[|messages| - 1].role == User && HasText(messages[|messages| - 1])
  }

  function PromptOf(messages: seq<Message>): string
    requires IsInput(messages)
  {
    SystemMessages(messages)[0].content.value
  }

  function SnapshotOf(packet: Option<Packet>): Snapshot {
    if packet.Some? then packet.value.snapshot else Snapshot(0, 0)
  }

  /** The packet a window is summarised into; None where it does not pass the structural checks. */
  function FittedPacket(config: Config, w: Window): Option<Packet>
    requires w.summarize != []
  {
    match Fit(config.size, w, config.maxRecentBytes)
    case None => None
    case Some(f) =>
      var p := Packet(Snapshot(f.expectedStart, f.expectedEnd), f.recent);
      if ValidPacket(p.snapshot, p.recent) then Some(p) else None
  }

  /** The packet a lost chain is rebuilt from. */
  function RecoveryPacket(config: Config, turns: seq<Turn>, previous: Snapshot): Option<Packet> {
    match BuildWindow(turns, previous, RECOVERY_RECENT_TURN_PAIRS)
    case Failure(_) => None
    case Success(Some(w)) => if w.summarize == [] then None else FittedPacket(config, w)
    case Success(None) =>
      var p := Packet(previous, turns[previous.end..]);
      if ValidPacket(p.snapshot, p.recent) then Some(p) else None
  }

  /** The background candidate for a history, if there is enough of it to compact. */
  function CompactionPacket(config: Config, turns: seq<Turn>, previous: Snapshot): Option<Packet> {
    match BuildWindow(turns, previous, config.recentPairs)
    case Success(Some(w)) => if w.summarize == [] then None else FittedPacket(config, w)
    case _ => None
  }

  // ---------- steps ----------

  predicate IsRequest(p: Pending) {
    p.Streaming? || p.Recovering?
  }

  predicate Enabled(s: State, step: Step) {
    match step
    case RecoveryDone(p) => p in s.pending && p.Recovering?
    case StreamDone(p, _, _) => p in s.pending && p.Streaming?
    case ChainRejected(p) => p in s.pending && p.Streaming?
    case TimedOut(p) => p in s.pending && p.Streaming?
    case CompactionDone(p) => p in s.pending && p.Compacting?
    case Abandon(p) => p in s.pending
    case _ => true
  }

  function Cleared(s: State): State {
    s.(chain := None, prompt := None, completedUserTurns := 0)
  }

  function AfterReset(s: State): State {
    Cleared(s).(generation := s.generation + 1, packet := None)
  }

  function Finished(s: State, p: Pending): State {
    s.(pending := s.pending - {p})
  }

  /** Start recovering a chain for the history, or fail where no valid packet can be built. */
  function StartRecovery(
      config: Config, s: State, prompt: string, messages: seq<Message>, turns: seq<Turn>, retry: bool): State {
    match RecoveryPacket(config, turns, SnapshotOf(s.packet))
    case None => s
    case Some(packet) => s.(pending := s.pending + {Recovering(s.generation, prompt, messages, packet, retry)})
  }

  /** A history that contradicts the chain ends it; the request opens a generation of its own. */
  function Admitted(s: State, messages: seq<Message>): State
    requires IsInput(messages)
  {
    var contradicts := s.chain.Some?
                       && (s.prompt != Some(PromptOf(messages)) || UserTurns(messages) <= s.completedUserTurns);
    var t := if contradicts then AfterReset(s) else s;
    t.(generation := t.generation + 1)
  }

  /** An admitted request streams on the chain, or first recovers one where it has a history but no chain. */
  function Launched(config: Config, s: State, messages: seq<Message>): State
    requires IsInput(messages)
  {
    var streaming := s.(pending := s.pending + {Streaming(s.generation, PromptOf(messages), messages, s.chain, true)});
    if s.chain.None? && UserTurns(messages) > 1 then
      match Normalize(config.clean, messages, None)
      case None => s
      case Some(turns) =>
        if turns == [] then streaming else StartRecovery(config, s, PromptOf(messages), messages, turns, false)
    else streaming
  }

  function BeginRequest(config: Config, s: State, messages: seq<Message>): State {
    if !IsInput(messages) then s else Launched(config, Admitted(s, messages), messages)
  }

  /** The chain was prewarmed: install it, unless a later request or reset came in between. */
  function FinishRecovery(s: State, p: Pending): State
    requires p.Recovering?
  {
    var t := Finished(s, p);
    if p.generation != s.generation || s.closed then t
    else
      var id := s.issued + 1;
      var users := UserTurns(p.messages);
      var seeded := t.(packet := Some(p.packet), issued := id,
                       pending := t.pending + {Streaming(p.generation, p.prompt, p.messages, Some(id), !p.retry)});
      if p.retry then seeded
      else seeded.(chain := Some(id), prompt := Some(p.prompt), completedUserTurns := users - 1)
  }

  /** Schedule a background candidate for the chain just committed; schedule says whether the thresholds ask for one. */
  function Scheduled(config: Config, s: State, p: Pending, source: Id, turns: seq<Turn>, schedule: bool): State
    requires p.Streaming?
  {
    match CompactionPacket(config, turns, SnapshotOf(s.packet))
    case None => s
    case Some(packet) =>
      if !schedule || s.closed then s
      else s.(pending := s.pending + {Compacting(p.generation, p.prompt, |turns| / 2, source, packet, turns)})
  }

  function Committed(s: State, p: Pending): State
    requires p.Streaming?
  {
    Finished(s, p).(chain := Some(s.issued + 1), prompt := Some(p.prompt), completedUserTurns := UserTurns(p.messages),
                    issued := s.issued + 1)
  }

  function Believed(s: State, p: Pending, turns: seq<Turn>): State
    requires p.Streaming?
  {
    Committed(s, p).(belief := s.belief[s.issued + 1 := turns])
  }

  /** The answer is complete: only a request of the current generation commits its chain. */
  function FinishStream(config: Config, s: State, p: Pending, answer: string, schedule: bool): State
    requires p.Streaming?
  {
    if p.generation != s.generation then Finished(s, p)
    else
      match Normalize(config.clean, p.messages, Some(answer))
      case None => Committed(s, p)
      case Some(turns) => Scheduled(config, Believed(s, p, turns), p, s.issued + 1, turns, schedule)
  }

  /** The server does not know the chain: forget it, keep the generation, and retry once. */
  function RejectChain(config: Config, s: State, p: Pending): State
    requires p.Streaming?
  {
    var t := Finished(s, p);
    if !p.mayRetry || p.chain.None? || p.generation != s.generation then t
    else
      var c := Cleared(t);
      match Normalize(config.clean, p.messages, None)
      case None => c
      case Some(turns) =>
        if turns == [] then c.(pending := c.pending + {Streaming(p.generation, p.prompt, p.messages, None, false)})
        else StartRecovery(config, c, p.prompt, p.messages, turns, true)
  }

  predicate StillCurrent(s: State, p: Pending)
    requires p.Compacting?
  {
    && p.generation == s.generation
    && p.userTurns == s.completedUserTurns
    && !s.closed
    && s.chain == Some(p.source)
  }

  /** The candidate chain replaces the current one, or is discarded. */
  function FinishCompaction(s: State, p: Pending): State
    requires p.Compacting?
  {
    var t := Finished(s, p);
    if !StillCurrent(s, p) then t
    else
      var id := s.issued + 1;
      t.(chain := Some(id), prompt := Some(p.prompt), packet := Some(p.packet), issued := id,
         belief := t.belief[id := p.turns])
  }

  function Next(config: Config, s: State, step: Step): State
    requires Enabled(s, step)
  {
    match step
    case Begin(messages) => BeginRequest(config, s, messages)
    case RecoveryDone(p) => FinishRecovery(s, p)
    case StreamDone(p, answer, schedule) => FinishStream(config, s, p, answer, schedule)
    case ChainRejected(p) => RejectChain(config, s, p)
    case TimedOut(p) => if p.generation == s.generation then AfterReset(Finished(s, p)) else Finished(s, p)
    case CompactionDone(p) => FinishCompaction(s, p)
    case Abandon(p) => Finished(s, p)
    case ResetConversation => AfterReset(s)
    case Close => s.(closed := true)
  }

  // ---------- the invariant ----------

  /** Snapshot and recent turns of the packet make up exactly the turns. */
  predicate Covers(packet: Packet, turns: seq<Turn>) {
    && ValidPacket(packet.snapshot, packet.recent)
    && packet.snapshot.end + |packet.recent| == |turns|
    && turns[packet.snapshot.end..] == packet.recent
  }

  ghost predicate Current(s: State, p: Pending) {
    p in s.pending && p.generation == s.generation
  }

  /** No work in flight belongs to the current generation. */
  ghost predicate Idle(s: State) {
    forall p :: p in s.pending ==> p.generation < s.generation
  }

  ghost predicate Known(s: State) {
    && (s.chain.Some? <==> s.prompt.Some?)
    && (s.chain.Some? ==> s.chain.value <= s.issued)
    && (forall id :: id in s.belief ==> id <= s.issued)
    && (s.packet.Some? ==> ValidPacket(s.packet.value.snapshot, s.packet.value.recent))
  }

  ghost predicate Sound(s: State, p: Pending) {
    && p.generation <= s.generation
    && match p
       case Streaming(_, _, _, _, _) => true
       case Recovering(_, _, _, packet, _) =>
         ValidPacket(packet.snapshot, packet.recent) && (p.generation == s.generation ==> s.chain.None?)
       case Compacting(_, _, users, source, packet, turns) =>
         && source in s.belief && s.belief[source] == turns
         && Covers(packet, turns) && 2 * users == |turns|
         && (p.generation == s.generation ==> s.chain == Some(source))
  }

  /** At most one piece of work in flight belongs to the current generation. */
  ghost predicate Alone(s: State) {
    forall p, q :: Current(s, p) && Current(s, q) ==> p == q
  }

  ghost predicate Inv(s: State) {
    Known(s) && Alone(s) && forall p :: p in s.pending ==> Sound(s, p)
  }

  predicate Initial(s: State) {
    s == State(None, None, 0, 0, None, false, {}, 0, map[])
  }

  lemma FittedPacketCovers(config: Config, turns: seq<Turn>, previous: Snapshot, pairs: int)
    requires var r := BuildWindow(turns, previous, pairs);
             r.Success? && r.value.Some? && r.value.value.summarize != []
             && FittedPacket(config, r.value.value).Some?
    ensures Covers(FittedPacket(config, BuildWindow(turns, previous, pairs).value.value).value, turns)
  {
    var w := BuildWindow(turns, previous, pairs).value.value;
    BuiltWindowTiles(turns, previous, pairs);
    FittedWindowTiles(config.size, turns, w, config.maxRecentBytes);
  }

  lemma CompactionPacketCovers(config: Config, turns: seq<Turn>, previous: Snapshot)
    requires CompactionPacket(config, turns, previous).Some?
    ensures Covers(CompactionPacket(config, turns, previous).value, turns) && Complete(turns)
  {
    FittedPacketCovers(config, turns, previous, config.recentPairs);
  }

  /** A recovery packet covers exactly the completed turns of the history it is built for. */
  lemma RecoveryPacketCovers(config: Config, turns: seq<Turn>, previous: Snapshot)
    requires RecoveryPacket(config, turns, previous).Some?
    ensures Covers(RecoveryPacket(config, turns, previous).value, turns)
  {
    var r := BuildWindow(turns, previous, RECOVERY_RECENT_TURN_PAIRS);
    if r.value.Some? {
      FittedPacketCovers(config, turns, previous, RECOVERY_RECENT_TURN_PAIRS);
    }
  }

  lemma FinishKeepsInv(s: State, p: Pending)
    requires Inv(s)
    ensures Inv(Finished(s, p)) && (Current(s, p) ==> Idle(Finished(s, p)))
  {
    forall q | q in Finished(s, p).pending ensures Sound(Finished(s, p), q) && (Current(s, p) ==> !Current(s, q)) {
      assert Sound(s, q);
    }
    forall q, r | Current(Finished(s, p), q) && Current(Finished(s, p), r) ensures q == r {
      assert Current(s, q) && Current(s, r);
    }
  }

  /** Fields other than the work in flight may change freely while nothing of the current generation is in flight. */
  lemma IdleKeepsInv(s: State, t: State)
    requires Inv(s) && t.pending == s.pending && s.generation <= t.generation && Known(t)
    requires Idle(s) || s.generation < t.generation
    requires forall id :: id in s.belief ==> id in t.belief && t.belief[id] == s.belief[id]
    ensures Inv(t) && Idle(t)
  {
    forall q | q in t.pending ensures Sound(t, q) && q.generation < t.generation {
      assert Sound(s, q);
    }
  }

  lemma SpawnKeepsInv(s: State, q: Pending)
    requires Inv(s) && Idle(s) && Sound(s, q)
    ensures Inv(s.(pending := s.pending + {q}))
  {
    var t := s.(pending := s.pending + {q});
    forall r | r in t.pending ensures Sound(t, r) {
      assert r == q || Sound(s, r);
    }
  }

  lemma StartRecoveryKeepsInv(
      config: Config, s: State, prompt: string, messages: seq<Message>, turns: seq<Turn>, retry: bool)
    requires Inv(s) && Idle(s) && s.chain.None?
    ensures Inv(StartRecovery(config, s, prompt, messages, turns, retry))
  {
    var r := RecoveryPacket(config, turns, SnapshotOf(s.packet));
    if r.Some? {
      RecoveryPacketCovers(config, turns, SnapshotOf(s.packet));
      SpawnKeepsInv(s, Recovering(s.generation, prompt, messages, r.value, retry));
    }
  }

  lemma LaunchKeepsInv(config: Config, s: State, messages: seq<Message>)
    requires Inv(s) && Idle(s) && IsInput(messages)
    ensures Inv(Launched(config, s, messages))
  {
    SpawnKeepsInv(s, Streaming(s.generation, PromptOf(messages), messages, s.chain, true));
    var turns := Normalize(config.clean, messages, None);
    if s.chain.None? && turns.Some? {
      StartRecoveryKeepsInv(config, s, PromptOf(messages), messages, turns.value, false);
    }
  }

  lemma BeginKeepsInv(config: Config, s: State, messages: seq<Message>)
    requires Inv(s)
    ensures Inv(BeginRequest(config, s, messages))
  {
    if IsInput(messages) {
      IdleKeepsInv(s, Admitted(s, messages));
      LaunchKeepsInv(config, Admitted(s, messages), messages);
    }
  }

  lemma RecoveryKeepsInv(s: State, p: Pending)
    requires Inv(s) && p in s.pending && p.Recovering?
    ensures Inv(FinishRecovery(s, p))
  {
    var t := Finished(s, p);
    FinishKeepsInv(s, p);
    if p.generation == s.generation && !s.closed {
      assert Sound(s, p);
      var id := s.issued + 1;
      var seeded := t.(packet := Some(p.packet), issued := id);
      var done := if p.retry then seeded
                  else seeded.(chain := Some(id), prompt := Some(p.prompt), completedUserTurns := UserTurns(p.messages) - 1);
      IdleKeepsInv(t, done);
      SpawnKeepsInv(done, Streaming(p.generation, p.prompt, p.messages, Some(id), !p.retry));
    }
  }

  lemma ScheduleKeepsInv(config: Config, s: State, p: Pending, source: Id, turns: seq<Turn>, schedule: bool)
    requires Inv(s) && Idle(s) && p.Streaming? && p.generation == s.generation
    requires s.chain == Some(source) && source in s.belief && s.belief[source] == turns
    ensures Inv(Scheduled(config, s, p, source, turns, schedule))
  {
    var packet := CompactionPacket(config, turns, SnapshotOf(s.packet));
    if packet.Some? {
      CompactionPacketCovers(config, turns, SnapshotOf(s.packet));
      SpawnKeepsInv(s, Compacting(p.generation, p.prompt, |turns| / 2, source, packet.value, turns));
    }
  }

  lemma CommitKeepsInv(s: State, p: Pending, turns: seq<Turn>)
    requires Inv(s) && Current(s, p) && p.Streaming?
    ensures Inv(Committed(s, p)) && Inv(Believed(s, p, turns)) && Idle(Believed(s, p, turns))
  {
    FinishKeepsInv(s, p);
    IdleKeepsInv(Finished(s, p), Committed(s, p));
    IdleKeepsInv(Finished(s, p), Believed(s, p, turns));
  }

  lemma StreamKeepsInv(config: Config, s: State, p: Pending, answer: string, schedule: bool)
    requires Inv(s) && p in s.pending && p.Streaming?
    ensures Inv(FinishStream(config, s, p, answer, schedule))
  {
    if p.generation != s.generation {
      FinishKeepsInv(s, p);
    } else {
      match Normalize(config.clean, p.messages, Some(answer))
      case None => CommitKeepsInv(s, p, []);
      case Some(turns) =>
        CommitKeepsInv(s, p, turns);
        ScheduleKeepsInv(config, Believed(s, p, turns), p, s.issued + 1, turns, schedule);
    }
  }

  lemma RejectKeepsInv(config: Config, s: State, p: Pending)
    requires Inv(s) && p in s.pending && p.Streaming?
    ensures Inv(RejectChain(config, s, p))
  {
    var t := Finished(s, p);
    FinishKeepsInv(s, p);
    if p.generation == s.generation {
      var c := Cleared(t);
      IdleKeepsInv(t, c);
      SpawnKeepsInv(c, Streaming(p.generation, p.prompt, p.messages, None, false));
      var turns := Normalize(config.clean, p.messages, None);
      if turns.Some? {
        StartRecoveryKeepsInv(config, c, p.prompt, p.messages, turns.value, true);
      }
    }
  }

  lemma CompactionKeepsInv(s: State, p: Pending)
    requires Inv(s) && p in s.pending && p.Compacting?
    ensures Inv(FinishCompaction(s, p))
  {
    FinishKeepsInv(s, p);
    if StillCurrent(s, p) {
      assert Sound(s, p);
      IdleKeepsInv(Finished(s, p), FinishCompaction(s, p));
    }
  }

  lemma StepKeepsInv(config: Config, s: State, step: Step)
    requires Inv(s) && Enabled(s, step)
    ensures Inv(Next(config, s, step))
  {
    match step
    case Begin(messages) => BeginKeepsInv(config, s, messages);
    case RecoveryDone(p) => RecoveryKeepsInv(s, p);
    case StreamDone(p, answer, schedule) => StreamKeepsInv(config, s, p, answer, schedule);
    case ChainRejected(p) => RejectKeepsInv(config, s, p);
    case TimedOut(p) =>
      FinishKeepsInv(s, p);
      IdleKeepsInv(Finished(s, p), AfterReset(Finished(s, p)));
    case CompactionDone(p) => CompactionKeepsInv(s, p);
    case Abandon(p) => FinishKeepsInv(s, p);
    case ResetConversation => IdleKeepsInv(s, AfterReset(s));
    case Close =>
      forall q | q in s.pending ensures Sound(s.(closed := true), q) { assert Sound(s, q); }
      forall q, r | Current(s.(closed := true), q) && Current(s.(closed := true), r) ensures q == r {
        assert Current(s, q) && Current(s, r);
      }
  }

  // ---------- runs ----------

  ghost predicate IsRun(config: Config, states: seq<State>, steps: seq<Step>) {
    && |states| == |steps| + 1
    && Initial(states[0])
    && forall i :: 0 <= i < |steps| ==> Enabled(states[i], steps[i]) && states[i + 1] == Next(config, states[i], steps[i])
  }

  lemma {:induction false} RunKeepsInv(config: Config, states: seq<State>, steps: seq<Step>, n: nat)
    requires IsRun(config, states, steps) && n <= |steps|
    ensures Inv(states[n])
  {
    if n > 0 {
      RunKeepsInv(config, states, steps, n - 1);
      StepKeepsInv(config, states[n - 1], steps[n - 1]);
    }
  }

  /** The steps that open a new generation: an admitted request, a reset, a timeout of the current stream. */
  predicate Disturbs(s: State, step: Step) {
    match step
    case Begin(messages) => IsInput(messages)
    case ResetConversation => true
    case TimedOut(p) => p.generation == s.generation
    case _ => false
  }

  /** What a background candidate relies on. */
  predicate SameChain(s: State, t: State) {
    && s.chain == t.chain && s.prompt == t.prompt && s.packet == t.packet
    && s.completedUserTurns == t.completedUserTurns && s.generation == t.generation
  }

  /** Generations and ids only grow, and a generation grows exactly at a disturbance. */
  predicate Grows(s: State, step: Step, t: State) {
    && s.issued <= t.issued
    && (if Disturbs(s, step) then s.generation < t.generation else s.generation == t.generation)
    && (s.closed ==> t.closed)
  }

  /** A compaction enters the pending set only when its source id is handed out, and becomes the chain then. */
  predicate EntersWithChain(s: State, step: Step, t: State, c: Pending) {
    c.Compacting? && c in t.pending && c !in s.pending ==>
      && step.StreamDone? && s.issued < c.source == t.issued
      && t.chain == Some(c.source) && c.generation == t.generation == s.generation
  }

  /** While a compaction is the current work, only a disturbance can touch the chain. */
  ghost predicate KeepsChainOf(s: State, step: Step, t: State, c: Pending) {
    c.Compacting? && Current(s, c) && c in t.pending && !Disturbs(s, step) ==> SameChain(s, t)
  }

  lemma StepGrows(config: Config, s: State, step: Step)
    requires Enabled(s, step)
    ensures Grows(s, step, Next(config, s, step))
  {
  }

  lemma RequestsSpawnNoCompaction(config: Config, s: State, step: Step, c: Pending)
    requires Enabled(s, step) && !step.StreamDone?
    ensures c.Compacting? && c in Next(config, s, step).pending ==> c in s.pending
  {
  }

  lemma CompactionsAreNew(config: Config, s: State, step: Step, c: Pending)
    requires Enabled(s, step)
    ensures EntersWithChain(s, step, Next(config, s, step), c)
  {
    if !step.StreamDone? {
      RequestsSpawnNoCompaction(config, s, step, c);
    }
  }

  lemma UndisturbedChainStays(config: Config, s: State, step: Step, c: Pending)
    requires Inv(s) && Enabled(s, step)
    ensures KeepsChainOf(s, step, Next(config, s, step), c)
  {
    if c.Compacting? && Current(s, c) && c in Next(config, s, step).pending && !Disturbs(s, step) {
      match step
      case RecoveryDone(p) => assert !Current(s, p);
      case StreamDone(p, _, _) => assert !Current(s, p);
      case ChainRejected(p) => assert !Current(s, p);
      case CompactionDone(p) => assert p != c && !Current(s, p);
      case _ =>
    }
  }

  ghost predicate Growing(states: seq<State>, steps: seq<Step>) {
    |states| == |steps| + 1 && forall k :: 0 <= k < |steps| ==> Grows(states[k], steps[k], states[k + 1])
  }

  ghost predicate Preserving(states: seq<State>, steps: seq<Step>, c: Pending) {
    && Growing(states, steps)
    && forall k :: 0 <= k < |steps| ==>
         EntersWithChain(states[k], steps[k], states[k + 1], c) && KeepsChainOf(states[k], steps[k], states[k + 1], c)
  }

  lemma RunsPreserve(config: Config, states: seq<State>, steps: seq<Step>, c: Pending)
    requires IsRun(config, states, steps)
    ensures Preserving(states, steps, c)
  {
    forall k | 0 <= k < |steps|
      ensures && Grows(states[k], steps[k], states[k + 1])
              && EntersWithChain(states[k], steps[k], states[k + 1], c) && KeepsChainOf(states[k], steps[k], states[k + 1], c)
    {
      RunKeepsInv(config, states, steps, k);
      StepGrows(config, states[k], steps[k]);
      CompactionsAreNew(config, states[k], steps[k], c);
      UndisturbedChainStays(config, states[k], steps[k], c);
    }
  }

  lemma {:induction false} GenerationsGrow(states: seq<State>, steps: seq<Step>, i: nat, j: nat)
    requires Growing(states, steps) && i <= j <= |steps|
    ensures states[i].generation <= states[j].generation && states[i].issued <= states[j].issued
    ensures states[i].closed ==> states[j].closed
    ensures i < j && Disturbs(states[i], steps[i]) ==> states[i].generation < states[j].generation
    decreases j
  {
    if i < j {
      GenerationsGrow(states, steps, i, j - 1);
      assert Grows(states[j - 1], steps[j - 1], states[j]);
    }
  }

  lemma {:induction false} CompactionStaysPending(states: seq<State>, steps: seq<Step>, c: Pending, k: nat, j: nat)
    requires Preserving(states, steps, c) && k <= j <= |steps|
    requires c.Compacting? && c.source <= states[k].issued && c in states[j].pending
    ensures c in states[k].pending
    decreases j
  {
    if k < j {
      GenerationsGrow(states, steps, k, j - 1);
      assert EntersWithChain(states[j - 1], steps[j - 1], states[j], c);
      CompactionStaysPending(states, steps, c, k, j - 1);
    }
  }

  lemma {:induction false} UndisturbedRunKeepsChain(states: seq<State>, steps: seq<Step>, c: Pending, i: nat, j: nat)
    requires Preserving(states, steps, c) && i <= j <= |steps|
    requires c.Compacting? && Current(states[i], c) && c.source <= states[i].issued && c in states[j].pending
    requires forall k :: i <= k < j ==> !Disturbs(states[k], steps[k])
    ensures SameChain(states[i], states[j])
    decreases j
  {
    if i < j {
      GenerationsGrow(states, steps, i, j - 1);
      CompactionStaysPending(states, steps, c, j - 1, j);
      UndisturbedRunKeepsChain(states, steps, c, i, j - 1);
      assert KeepsChainOf(states[j - 1], steps[j - 1], states[j], c);
    }
  }

  /** Between the step that schedules a candidate and the step that completes it: no new generation, and no close. */
  ghost predicate LeftAlone(states: seq<State>, steps: seq<Step>, i: nat, j: nat)
    requires i < j < |steps| && |states| == |steps| + 1
  {
    && (forall k :: i < k < j ==> !Disturbs(states[k], steps[k]))
    && !states[j].closed
  }

  /**
  A candidate scheduled by step i and completed by step j replaces the chain exactly when no request, reset or
  timeout came in between, the client is open, and the history it summarises has as many user turns as the chain.
  */
  lemma InstalledIffLeftAlone(config: Config, states: seq<State>, steps: seq<Step>, c: Pending, i: nat, j: nat)
    requires IsRun(config, states, steps) && i < j < |steps|
    requires c.Compacting? && c !in states[i].pending && c in states[i + 1].pending && steps[j] == CompactionDone(c)
    ensures states[j + 1].chain != states[j].chain
            <==> LeftAlone(states, steps, i, j) && c.userTurns == states[i + 1].completedUserTurns
  {
    RunsPreserve(config, states, steps, c);
    RunKeepsInv(config, states, steps, j);
    assert EntersWithChain(states[i], steps[i], states[i + 1], c);
    assert states[j + 1].chain != states[j].chain <==> StillCurrent(states[j], c);
    if LeftAlone(states, steps, i, j) {
      UndisturbedRunKeepsChain(states, steps, c, i + 1, j);
    } else if !states[j].closed {
      var k :| i < k < j && Disturbs(states[k], steps[k]);
      GenerationsGrow(states, steps, i + 1, k);
      GenerationsGrow(states, steps, k, j);
    }
  }

  /**
  An installed candidate took over from the very chain it was built from, untouched all the while; id, prompt and
  packet change in the one step, and the new chain stands for the same turns, which its packet makes up exactly.
  */
  lemma InstalledCandidateMatches(config: Config, states: seq<State>, steps: seq<Step>, c: Pending, i: nat, j: nat)
    requires IsRun(config, states, steps) && i < j < |steps|
    requires c.Compacting? && c !in states[i].pending && c in states[i + 1].pending && steps[j] == CompactionDone(c)
    requires states[j + 1].chain != states[j].chain
    ensures forall k :: i < k <= j ==> states[k].chain == Some(c.source) && SameChain(states[i + 1], states[k])
    ensures var t := states[j + 1];
            && t.chain.Some? && t.chain.value !in states[j].belief
            && c.source in states[j].belief && states[j].belief[c.source] == c.turns
            && t.belief == states[j].belief[t.chain.value := c.turns]
            && t.packet == Some(c.packet) && Covers(c.packet, c.turns)
            && t.prompt == Some(c.prompt) && t.generation == states[i + 1].generation
  {
    RunsPreserve(config, states, steps, c);
    InstalledIffLeftAlone(config, states, steps, c, i, j);
    assert EntersWithChain(states[i], steps[i], states[i + 1], c);
    forall k | i < k <= j ensures states[k].chain == Some(c.source) && SameChain(states[i + 1], states[k]) {
      GenerationsGrow(states, steps, i + 1, k);
      CompactionStaysPending(states, steps, c, k, j);
      UndisturbedRunKeepsChain(states, steps, c, i + 1, k);
    }
    RunKeepsInv(config, states, steps, j);
    assert Sound(states[j], c);
  }

  /** Work of an overtaken generation changes nothing when it completes, whatever it brings back. */
  lemma OvertakenWorkIsDiscarded(config: Config, states: seq<State>, steps: seq<Step>, p: Pending, i: nat, j: nat)
    requires IsRun(config, states, steps) && i <= j < |steps|
    requires p.generation < states[i].generation
    requires var step := steps[j];
             (step.RecoveryDone? || step.StreamDone? || step.ChainRejected? || step.TimedOut? || step.CompactionDone?)
             && step.work == p
    ensures states[j + 1] == states[j].(pending := states[j].pending - {p})
  {
    RunsPreserve(config, states, steps, p);
    GenerationsGrow(states, steps, i, j);
  }

  /** The packet changes only together with the chain, or while there is none; a new chain has a new id. */
  predicate PacketFollows(s: State, t: State) {
    && (t.packet != s.packet && s.chain.Some? ==> t.chain != s.chain)
    && (t.chain.Some? && t.chain != s.chain ==> s.issued < t.chain.value)
  }

  lemma RequestMovesPacket(config: Config, s: State, step: Step)
    requires Enabled(s, step) && (step.Begin? || step.StreamDone? || step.ChainRejected?)
    ensures PacketFollows(s, Next(config, s, step))
  {
  }

  lemma StepMovesPacket(config: Config, s: State, step: Step)
    requires Inv(s) && Enabled(s, step)
    ensures PacketFollows(s, Next(config, s, step))
  {
    match step
    case RecoveryDone(p) => assert Sound(s, p);
    case CompactionDone(p) => assert Sound(s, p);
    case Begin(_) => RequestMovesPacket(config, s, step);
    case StreamDone(_, _, _) => RequestMovesPacket(config, s, step);
    case ChainRejected(_) => RequestMovesPacket(config, s, step);
    case _ =>
  }

  /** The memory packet never changes under a chain that stays, and chain and prompt are there together or not at all. */
  lemma PacketMovesWithChain(config: Config, states: seq<State>, steps: seq<Step>, j: nat)
    requires IsRun(config, states, steps) && j < |steps|
    ensures states[j + 1].packet != states[j].packet && states[j].chain.Some? ==> states[j + 1].chain != states[j].chain
    ensures states[j + 1].chain.Some? && states[j + 1].chain != states[j].chain ==>
              states[j].issued < states[j + 1].chain.value
    ensures states[j].chain.Some? <==> states[j].prompt.Some?
    ensures states[j].packet.Some? ==> ValidPacket(states[j].packet.value.snapshot, states[j].packet.value.recent)
  {
    RunKeepsInv(config, states, steps, j);
    StepMovesPacket(config, states[j], steps[j]);
  }

  /** A rejected chain is retried with a fresh packet already in place and no chain id beside it. */
  lemma RetryInstallsPacketFirst(s: State, p: Pending)
    requires Inv(s) && p in s.pending && p.Recovering? && p.retry && p.generation == s.generation && !s.closed
    ensures var t := FinishRecovery(s, p); t.packet == Some(p.packet) && t.chain == s.chain == None
  {
    assert Sound(s, p);
  }

  /**
  Without a chain, the steps that touch the packet: the warm recovery of a retry brings another one in, a reset or a
  timeout of the current stream drops it.
  */
  predicate TouchesPacketOnly(s: State, step: Step) {
    && s.chain.None?
    && match step
       case RecoveryDone(p) =>
         p.Recovering? && p.retry && p.generation == s.generation && !s.closed && s.packet != Some(p.packet)
       case ResetConversation => s.packet.Some?
       case TimedOut(p) => p.generation == s.generation && s.packet.Some?
       case _ => false
  }

  predicate MovesPacketAlone(s: State, t: State) {
    t.packet != s.packet && t.chain == s.chain
  }

  lemma RequestsKeepPacket(config: Config, s: State, step: Step)
    requires Enabled(s, step) && (step.Begin? || step.StreamDone? || step.ChainRejected?)
    ensures !MovesPacketAlone(s, Next(config, s, step))
  {
  }

  lemma StepMovesPacketAloneIff(config: Config, s: State, step: Step)
    requires Inv(s) && Enabled(s, step)
    ensures MovesPacketAlone(s, Next(config, s, step)) <==> TouchesPacketOnly(s, step)
  {
    match step
    case RecoveryDone(p) => assert Sound(s, p);
    case CompactionDone(p) => assert Sound(s, p);
    case Begin(_) => RequestsKeepPacket(config, s, step);
    case StreamDone(_, _, _) => RequestsKeepPacket(config, s, step);
    case ChainRejected(_) => RequestsKeepPacket(config, s, step);
    case _ =>
  }

  /** In every run, exactly these steps move the packet and leave the chain id, which is then none. */
  lemma PacketMovesAloneIff(config: Config, states: seq<State>, steps: seq<Step>, j: nat)
    requires IsRun(config, states, steps) && j < |steps|
    ensures states[j + 1].packet != states[j].packet && states[j + 1].chain == states[j].chain
            <==> TouchesPacketOnly(states[j], steps[j])
  {
    RunKeepsInv(config, states, steps, j);
    StepMovesPacketAloneIff(config, states[j], steps[j]);
  }

  // ---------- which histories stay on a chain ----------

  /** The prompt and the number of user turns a chain stands for. */
  datatype Origin = Origin(prompt: string, users: int)

  /**
  What the steps so far have made every response id stand for: the answered request, the history a lost chain was
  rebuilt from, or what its source stood for where it is a compacted chain.
  */
  ghost function Origins(states: seq<State>, steps: seq<Step>, n: nat): map<Id, Origin>
    requires n <= |steps| < |states|
  {
    if n == 0 then map[]
    else
      var o, id := Origins(states, steps, n - 1), states[n].issued;
      if id == states[n - 1].issued then o
      else
        match steps[n - 1]
        case StreamDone(p, _, _) =>
          if p.Streaming? && IsInput(p.messages) then o[id := Origin(PromptOf(p.messages), UserTurns(p.messages))] else o
        case RecoveryDone(p) =>
          if p.Recovering? && IsInput(p.messages) then o[id := Origin(PromptOf(p.messages), UserTurns(p.messages) - 1)]
          else o
        case CompactionDone(p) => if p.Compacting? && p.source in o then o[id := o[p.source]] else o
        case _ => o
  }

  /** Work in flight is of its request, and a candidate has the prompt of the chain it compacts. */
  predicate WorkLabelled(p: Pending, o: map<Id, Origin>) {
    if p.Compacting? then p.source in o && p.prompt == o[p.source].prompt
    else IsInput(p.messages) && p.prompt == PromptOf(p.messages)
  }

  /** The fields beside the chain id say what it stands for. */
  ghost predicate Labelled(s: State, o: map<Id, Origin>) {
    && (forall p :: p in s.pending ==> WorkLabelled(p, o))
    && (s.chain.Some? ==>
          && s.chain.value in o
          && s.prompt == Some(o[s.chain.value].prompt) && s.completedUserTurns == o[s.chain.value].users)
    && (forall id :: id in o ==> id <= s.issued)
  }

  /** A new id leaves the labels of the old ones. */
  lemma NewLabelKeepsWork(p: Pending, o: map<Id, Origin>, id: Id, origin: Origin)
    requires WorkLabelled(p, o) && id !in o
    ensures WorkLabelled(p, o[id := origin])
  {
  }

  lemma BeginKeepsLabels(config: Config, s: State, messages: seq<Message>, o: map<Id, Origin>)
    requires Labelled(s, o)
    ensures Labelled(BeginRequest(config, s, messages), o)
  {
  }

  lemma RejectKeepsLabels(config: Config, s: State, p: Pending, o: map<Id, Origin>)
    requires Labelled(s, o) && p in s.pending && p.Streaming?
    ensures Labelled(RejectChain(config, s, p), o)
  {
    assert WorkLabelled(p, o);
  }

  lemma RequestKeepsLabels(config: Config, s: State, step: Step, o: map<Id, Origin>)
    requires Labelled(s, o) && Enabled(s, step)
    requires step.Begin? || step.ChainRejected? || step.TimedOut? || step.Abandon? || step.ResetConversation? || step.Close?
    ensures Next(config, s, step).issued == s.issued && Labelled(Next(config, s, step), o)
  {
    match step
    case Begin(messages) => BeginKeepsLabels(config, s, messages, o);
    case ChainRejected(p) => RejectKeepsLabels(config, s, p, o);
    case _ =>
  }

  /** What an answer leaves: its chain, and at most one new candidate, for that chain. */
  lemma AnswerLaunches(config: Config, s: State, p: Pending, answer: string, schedule: bool)
    requires p in s.pending && p.Streaming?
    ensures var t := FinishStream(config, s, p, answer, schedule);
            if t.issued == s.issued then t == Finished(s, p)
            else
              && t.issued == s.issued + 1 && t.chain == Some(t.issued)
              && t.prompt == Some(p.prompt) && t.completedUserTurns == UserTurns(p.messages)
              && forall q :: q in t.pending && q !in s.pending ==>
                   q.Compacting? && q.source == t.issued && q.prompt == p.prompt
  {
  }

  lemma AnswerLabels(config: Config, s: State, p: Pending, answer: string, schedule: bool, o: map<Id, Origin>)
    requires Labelled(s, o) && p in s.pending && p.Streaming?
    ensures IsInput(p.messages)
    ensures var t := FinishStream(config, s, p, answer, schedule);
            Labelled(t, if t.issued == s.issued then o
                        else o[t.issued := Origin(PromptOf(p.messages), UserTurns(p.messages))])
  {
    var t := FinishStream(config, s, p, answer, schedule);
    assert WorkLabelled(p, o);
    AnswerLaunches(config, s, p, answer, schedule);
    if t.issued != s.issued {
      LabelsExtend(s, p, t, o);
    }
  }

  lemma LabelsExtend(s: State, p: Pending, t: State, o: map<Id, Origin>)
    requires Labelled(s, o) && WorkLabelled(p, o) && p.Streaming? && t.issued == s.issued + 1
    requires t.chain == Some(t.issued) && t.prompt == Some(p.prompt) && t.completedUserTurns == UserTurns(p.messages)
    requires forall q :: q in t.pending && q !in s.pending ==>
               q.Compacting? && q.source == t.issued && q.prompt == p.prompt
    ensures Labelled(t, o[t.issued := Origin(PromptOf(p.messages), UserTurns(p.messages))])
  {
    var origin := Origin(PromptOf(p.messages), UserTurns(p.messages));
    forall q | q in t.pending ensures WorkLabelled(q, o[t.issued := origin]) {
      if q in s.pending { NewLabelKeepsWork(q, o, t.issued, origin); }
    }
  }

  lemma RecoveryLabels(s: State, p: Pending, o: map<Id, Origin>)
    requires Inv(s) && Labelled(s, o) && p in s.pending && p.Recovering?
    ensures IsInput(p.messages)
    ensures var t := FinishRecovery(s, p);
            Labelled(t, if t.issued == s.issued then o
                        else o[t.issued := Origin(PromptOf(p.messages), UserTurns(p.messages) - 1)])
  {
    var t := FinishRecovery(s, p);
    assert Sound(s, p) && WorkLabelled(p, o);
    if t.issued != s.issued {
      var origin := Origin(PromptOf(p.messages), UserTurns(p.messages) - 1);
      forall q | q in t.pending ensures WorkLabelled(q, o[t.issued := origin]) {
        if q in s.pending { NewLabelKeepsWork(q, o, t.issued, origin); }
      }
    }
  }

  lemma CompactionLabels(s: State, p: Pending, o: map<Id, Origin>)
    requires Labelled(s, o) && p in s.pending && p.Compacting?
    ensures p.source in o
    ensures var t := FinishCompaction(s, p); Labelled(t, if t.issued == s.issued then o else o[t.issued := o[p.source]])
  {
    var t := FinishCompaction(s, p);
    assert WorkLabelled(p, o);
    if t.issued != s.issued {
      forall q | q in t.pending ensures WorkLabelled(q, o[t.issued := o[p.source]]) {
        NewLabelKeepsWork(q, o, t.issued, o[p.source]);
      }
    }
  }

  /** In every reachable state prompt and turn count belong to the chain id beside them. */
  lemma {:induction false} RunIsLabelled(config: Config, states: seq<State>, steps: seq<Step>, n: nat)
    requires IsRun(config, states, steps) && n <= |steps|
    ensures Labelled(states[n], Origins(states, steps, n))
  {
    if n > 0 {
      RunIsLabelled(config, states, steps, n - 1);
      RunKeepsInv(config, states, steps, n - 1);
      var s, o := states[n - 1], Origins(states, steps, n - 1);
      match steps[n - 1]
      case StreamDone(p, answer, schedule) => AnswerLabels(config, s, p, answer, schedule, o);
      case RecoveryDone(p) => RecoveryLabels(s, p, o);
      case CompactionDone(p) => CompactionLabels(s, p, o);
      case _ => RequestKeepsLabels(config, s, steps[n - 1], o);
    }
  }

  /** The request continues the chain of the origin: same prompt, and more user turns than the chain has answered. */
  predicate Continuing(messages: seq<Message>, origin: Origin)
    requires IsInput(messages)
  {
    PromptOf(messages) == origin.prompt && UserTurns(messages) > origin.users
  }

  /** Everything in flight after the step that was not before it. */
  function Launches(s: State, t: State): set<Pending> {
    t.pending - s.pending
  }

  lemma BeginLaunches(config: Config, s: State, messages: seq<Message>)
    requires IsInput(messages) && forall p :: p in s.pending ==> p.generation <= s.generation
    ensures var t := BeginRequest(config, s, messages);
            forall p :: p in Launches(s, t) ==> p.generation == t.generation && IsRequest(p) && p.messages == messages
    ensures var t := BeginRequest(config, s, messages);
            t.chain.Some? ==> Launches(s, t) == {Streaming(t.generation, PromptOf(messages), messages, t.chain, true)}
    ensures var t := BeginRequest(config, s, messages);
            t.chain.None? ==> forall p :: p in Launches(s, t) && p.Streaming? ==> p.chain.None?
  {
  }

  /**
  A request in any run. Where there is a chain, it streams on that chain exactly when it has the prompt of the history
  the chain stands for and strictly more user turns; otherwise chain and memory packet are dropped, no stream uses an old
  id, and two generations pass. Where there is none, it begins without one. What is no input changes nothing.
  */
  lemma RequestStaysOnChainIff(config: Config, states: seq<State>, steps: seq<Step>, j: nat)
    requires IsRun(config, states, steps) && j < |steps| && steps[j].Begin?
    ensures var s, t, messages := states[j], states[j + 1], steps[j].messages;
            && (!IsInput(messages) ==> t == s)
            && (s.chain.Some? ==> s.chain.value in Origins(states, steps, j))
            && (IsInput(messages) ==>
                  if s.chain.None? then
                    && t.chain.None? && t.packet == s.packet && t.generation == s.generation + 1
                    && (forall p :: p in Launches(s, t) && p.Streaming? ==> p.chain.None?)
                  else if Continuing(messages, Origins(states, steps, j)[s.chain.value]) then
                    && t == s.(generation := s.generation + 1, pending := t.pending)
                    && Launches(s, t) == {Streaming(s.generation + 1, PromptOf(messages), messages, s.chain, true)}
                  else
                    && t.chain.None? && t.packet.None? && t.generation == s.generation + 2
                    && (forall p :: p in Launches(s, t) && p.Streaming? ==> p.chain.None?))
  {
    RunIsLabelled(config, states, steps, j);
    RunKeepsInv(config, states, steps, j);
    var s, messages := states[j], steps[j].messages;
    if IsInput(messages) {
      forall p | p in s.pending ensures p.generation <= s.generation { assert Sound(s, p); }
      BeginLaunches(config, s, messages);
    }
  }

  /** A rejected stream is sent again at most once, without the id that was rejected. */
  lemma RejectedOnce(config: Config, s: State, p: Pending)
    requires p in s.pending && p.Streaming?
    ensures var t := RejectChain(config, s, p);
            && (forall q :: q in Launches(s, t) ==>
                  && p.mayRetry && p.chain.Some? && p.generation == s.generation == q.generation
                  && (q.Streaming? ==> !q.mayRetry && q.chain.None?) && (q.Recovering? ==> q.retry) && !q.Compacting?)
            && (t.chain != s.chain ==> p.mayRetry && p.chain.Some? && p.generation == s.generation && t.chain.None?)
  {
  }

  /** The stream a warmed-up recovery starts may be rejected once more only if the recovery was no retry. */
  lemma RecoveredStream(s: State, p: Pending)
    requires p in s.pending && p.Recovering?
    ensures forall q :: q in Launches(s, FinishRecovery(s, p)) ==>
              q == Streaming(p.generation, p.prompt, p.messages, Some(s.issued + 1), !p.retry)
  {
  }

  // ---------- a retry ----------

  function FirstInput(prompt: string, question: string): seq<Message> {
    [Message(System, Some(prompt)), Message(User, Some(question))]
  }

  function SecondInput(prompt: string, question: string, answer: string, next: string): seq<Message> {
    [Message(System, Some(prompt)), Message(User, Some(question)), Message(Assistant, Some(answer)),
     Message(User, Some(next))]
  }

  lemma FirstInputReads(prompt: string, question: string)
    requires prompt != "" && question != ""
    ensures var m := FirstInput(prompt, question); IsInput(m) && PromptOf(m) == prompt && UserTurns(m) == 1
  {
    var m := FirstInput(prompt, question);
    assert m[..1] == [m[0]] && m[..1][..0] == [];
    assert SystemMessages(m[..1]) == [m[0]] && UserTurns(m[..1]) == 0;
  }

  lemma SecondInputReads(prompt: string, question: string, answer: string, next: string)
    requires prompt != "" && question != "" && answer != "" && next != ""
    ensures var m := SecondInput(prompt, question, answer, next);
            IsInput(m) && PromptOf(m) == prompt && UserTurns(m) == 2
  {
    var m := SecondInput(prompt, question, answer, next);
    assert m[..3][..2] == FirstInput(prompt, question);
    FirstInputReads(prompt, question);
    assert SystemMessages(m[..3]) == SystemMessages(FirstInput(prompt, question));
    assert UserTurns(m[..3]) == 1;
  }

  /** The one pair the second input has completed. */
  function FirstPair(clean: Clean, question: string, answer: string): seq<Turn>
    requires clean(question).Some? && clean(answer).Some?
  {
    [Turn(1, User, clean(question).value), Turn(2, Assistant, clean(answer).value)]
  }

  lemma SecondInputPairs(clean: Clean, prompt: string, question: string, answer: string, next: string)
    requires prompt != "" && question != "" && answer != "" && next != ""
    requires clean(question).Some? && clean(answer).Some? && clean(next).Some?
    ensures Normalize(clean, SecondInput(prompt, question, answer, next), None) == Some(FirstPair(clean, question, answer))
  {
    var rest := SecondInput(prompt, question, answer, next)[1..];
    var pair := FirstPair(clean, question, answer);
    assert rest[..2][..1] == rest[..1] && rest[..1][..0] == [];
    assert ScanAll(clean, rest[..1]) == Scanned([pair[0]], Assistant);
    assert ScanAll(clean, rest[..2]) == Scanned(pair, User);
    assert ScanAll(clean, rest) == Scanned(pair + [Turn(3, User, clean(next).value)], Assistant);
  }

  lemma FirstPairMakesPacket(config: Config, turns: seq<Turn>)
    requires |turns| == 2 && Complete(turns)
    ensures RecoveryPacket(config, turns, Snapshot(0, 0)) == Some(Packet(Snapshot(0, 0), turns))
  {
  }

  /** The state after the first answer, apart from what its chain is believed to stand for. */
  predicate Answered(s: State, prompt: string) {
    && s.chain == Some(1) && s.prompt == Some(prompt) && s.completedUserTurns == 1 && s.generation == 1
    && s.packet == None && !s.closed && s.pending == {} && s.issued == 1
  }

  lemma FirstAnswer(config: Config, prompt: string, question: string, answer: string) returns (s: State, t: State)
    requires prompt != "" && question != ""
    ensures var m := FirstInput(prompt, question);
            var asked := Streaming(1, prompt, m, None, true);
            && s == Next(config, State(None, None, 0, 0, None, false, {}, 0, map[]), Begin(m))
            && asked in s.pending && t == Next(config, s, StreamDone(asked, answer, false))
    ensures Answered(t, prompt)
  {
    var m := FirstInput(prompt, question);
    FirstInputReads(prompt, question);
    var asked := Streaming(1, prompt, m, None, true);
    s := State(None, None, 0, 1, None, false, {asked}, 0, map[]);
    assert {} + {asked} == {asked} && {asked} - {asked} == {};
    t := Next(config, s, StreamDone(asked, answer, false));
  }

  lemma RejectedRetry(config: Config, s: State, prompt: string, question: string, answer: string, next: string)
    returns (t: State, u: State)
    requires prompt != "" && question != "" && answer != "" && next != "" && Answered(s, prompt)
    requires config.clean(question).Some? && config.clean(answer).Some? && config.clean(next).Some?
    ensures var m := SecondInput(prompt, question, answer, next);
            var packet := Packet(Snapshot(0, 0), FirstPair(config.clean, question, answer));
            var sent := Streaming(2, prompt, m, Some(1), true);
            && t == Next(config, s, Begin(m)) && sent in t.pending && u == Next(config, t, ChainRejected(sent))
            && u.chain == None && u.packet == None && u.generation == 2 && !u.closed && u.issued == 1
            && u.pending == {Recovering(2, prompt, m, packet, true)}
  {
    var m := SecondInput(prompt, question, answer, next);
    var pair := FirstPair(config.clean, question, answer);
    var sent := Streaming(2, prompt, m, Some(1), true);
    SecondInputReads(prompt, question, answer, next);
    t := s.(generation := 2, pending := {sent});
    assert {} + {sent} == {sent} && {sent} - {sent} == {};
    SecondInputPairs(config.clean, prompt, question, answer, next);
    FirstPairMakesPacket(config, pair);
    u := Cleared(t).(pending := {Recovering(2, prompt, m, Packet(Snapshot(0, 0), pair), true)});
  }

  predicate Steps(config: Config, s: State, step: Step, t: State) {
    Enabled(s, step) && t == Next(config, s, step)
  }

  /** A run continued by one step. */
  lemma OneMoreStep(config: Config, states: seq<State>, steps: seq<Step>, step: Step, t: State)
    requires IsRun(config, states, steps) && Steps(config, states[|steps|], step, t)
    ensures IsRun(config, states + [t], steps + [step])
  {
    var ss, es := states + [t], steps + [step];
    forall i | 0 <= i < |es| ensures Enabled(ss[i], es[i]) && ss[i + 1] == Next(config, ss[i], es[i]) {
      assert i < |steps| ==> ss[i] == states[i] && es[i] == steps[i] && ss[i + 1] == states[i + 1];
    }
  }

  /**
  It happens: a question is answered, the next one is sent on its chain, the server has forgotten that chain, and the
  retry warms up. The packet is then in place and there is no chain.
  */
  lemma RetryIsReachable(config: Config, prompt: string, question: string, answer: string, next: string)
    returns (states: seq<State>, steps: seq<Step>)
    requires prompt != "" && question != "" && answer != "" && next != ""
    requires config.clean(question).Some? && config.clean(answer).Some? && config.clean(next).Some?
    ensures IsRun(config, states, steps) && |steps| == 5
    ensures steps[0] == Begin(FirstInput(prompt, question))
            && steps[1].StreamDone? && steps[1].answer == answer
            && steps[2] == Begin(SecondInput(prompt, question, answer, next))
            && steps[3].ChainRejected? && steps[4].RecoveryDone?
    ensures TouchesPacketOnly(states[4], steps[4])
    ensures states[5].chain == None
            && states[5].packet == Some(Packet(Snapshot(0, 0), FirstPair(config.clean, question, answer)))
  {
    var first, second := FirstInput(prompt, question), SecondInput(prompt, question, answer, next);
    var asked, sent := Streaming(1, prompt, first, None, true), Streaming(2, prompt, second, Some(1), true);
    var warm := Recovering(2, prompt, second, Packet(Snapshot(0, 0), FirstPair(config.clean, question, answer)), true);
    var start := State(None, None, 0, 0, None, false, {}, 0, map[]);
    var one, two := FirstAnswer(config, prompt, question, answer);
    var three, four := RejectedRetry(config, two, prompt, question, answer, next);
    var five := FinishRecovery(four, warm);
    OneMoreStep(config, [start], [], Begin(first), one);
    OneMoreStep(config, [start, one], [Begin(first)], StreamDone(asked, answer, false), two);
    OneMoreStep(config, [start, one, two], [Begin(first), StreamDone(asked, answer, false)], Begin(second), three);
    OneMoreStep(config, [start, one, two, three], [Begin(first), StreamDone(asked, answer, false), Begin(second)],
                ChainRejected(sent), four);
    OneMoreStep(config, [start, one, two, three, four],
                [Begin(first), StreamDone(asked, answer, false), Begin(second), ChainRejected(sent)],
                RecoveryDone(warm), five);
    steps := [Begin(first), StreamDone(asked, answer, false), Begin(second), ChainRejected(sent), RecoveryDone(warm)];
    states := [start, one, two, three, four, five];
  }

  // ---------- the service ----------

  /**
  The chain fields of the service. Each method is the code between two awaits; a server id it is given is new,
  which the ghost counter states.
  */
  class NativeChain {
    const config: Config
    var chain: Option<Id>
    var prompt: Option<string>
    var completedUserTurns: int
    var generation: nat
    var packet: Option<Packet>
    var closed: bool
    ghost var inFlight: set<Pending>
    ghost var issued: nat
    ghost var belief: map<Id, seq<Turn>>

    ghost function View(): State
      reads this
    {
      State(chain, prompt, completedUserTurns, generation, packet, closed, inFlight, issued, belief)
    }

    constructor (config: Config)
      ensures Initial(View()) && this.config == config
    {
      this.config := config;
      chain, prompt, completedUserTurns := None, None, 0;
      generation, packet, closed := 0, None, false;
      inFlight, issued, belief := {}, 0, map[];
    }

    method ResetConversation()
      modifies this
      ensures View() == Next(config, old(View()), Step.ResetConversation)
    {
      generation := generation + 1;
      chain, prompt, completedUserTurns := None, None, 0;
      packet := None;
    }

    method Admit(messages: seq<Message>)
      requires IsInput(messages)
      modifies this
      ensures View() == Admitted(old(View()), messages)
    {
      var contradicts := chain.Some? && (prompt != Some(PromptOf(messages)) || UserTurns(messages) <= completedUserTurns);
      if contradicts {
        ResetConversation();
      }
      generation := generation + 1;
    }

    method Launch(messages: seq<Message>) returns (work: Option<Pending>)
      requires IsInput(messages)
      modifies this`inFlight
      ensures View() == Launched(config, old(View()), messages)
      ensures inFlight == old(inFlight) + if work.Some? then {work.value} else {}
      ensures work.Some? ==> work.value.generation == generation && IsRequest(work.value)
    {
      work := None;
      if chain.None? && UserTurns(messages) > 1 {
        var turns := Normalize(config.clean, messages, None);
        if turns.None? {
          return;
        }
        if turns.value != [] {
          var candidate := RecoveryPacket(config, turns.value, SnapshotOf(packet));
          if candidate.Some? {
            work := Some(Recovering(generation, PromptOf(messages), messages, candidate.value, false));
            inFlight := inFlight + {work.value};
          }
          return;
        }
      }
      work := Some(Streaming(generation, PromptOf(messages), messages, chain, true));
      inFlight := inFlight + {work.value};
    }

    /** Everything up to the first await of a request; None where it fails there. */
    method GetChatCompletions(messages: seq<Message>) returns (work: Option<Pending>)
      modifies this
      ensures View() == Next(config, old(View()), Begin(messages))
      ensures inFlight == old(inFlight) + if work.Some? then {work.value} else {}
      ensures work.Some? ==> work.value.generation == generation && IsRequest(work.value)
    {
      if !IsInput(messages) {
        return None;
      }
      Admit(messages);
      work := Launch(messages);
    }

    /** The recovery candidate is warm: take it, unless it became stale. */
    method CommitRecovery(work: Pending, id: Id) returns (stream: Option<Pending>)
      requires work in inFlight && work.Recovering? && id == issued + 1
      modifies this
      ensures View() == Next(config, old(View()), RecoveryDone(work))
      ensures stream.Some? <==> work.generation == old(generation) && !old(closed)
      ensures stream.Some? ==> stream.value in inFlight && stream.value.Streaming? && stream.value.chain == Some(id)
    {
      inFlight := inFlight - {work};
      if work.generation != generation || closed {
        return None;
      }
      issued := id;
      packet := Some(work.packet);
      if !work.retry {
        chain := Some(id);
        prompt := Some(work.prompt);
        completedUserTurns := UserTurns(work.messages) - 1;
      }
      stream := Some(Streaming(work.generation, work.prompt, work.messages, Some(id), !work.retry));
      inFlight := inFlight + {stream.value};
    }

    method ScheduleCompaction(
        work: Pending, source: Id, turns: seq<Turn>, schedule: bool)
      returns (background: Option<Pending>)
      requires work.Streaming?
      modifies this`inFlight
      ensures View() == Scheduled(config, old(View()), work, source, turns, schedule)
      ensures background.Some? ==> background.value in inFlight && background.value.Compacting?
    {
      background := None;
      var candidate := CompactionPacket(config, turns, SnapshotOf(packet));
      if candidate.Some? && schedule && !closed {
        background := Some(Compacting(work.generation, work.prompt, |turns| / 2, source, candidate.value, turns));
        inFlight := inFlight + {background.value};
      }
    }

    /** The answer has ended well: commit its chain and perhaps schedule a compaction. */
    method CommitAnswer(work: Pending, answer: string, id: Id, schedule: bool) returns (background: Option<Pending>)
      requires work in inFlight && work.Streaming? && id == issued + 1
      modifies this
      ensures View() == Next(config, old(View()), StreamDone(work, answer, schedule))
      ensures background.Some? ==> background.value in inFlight && background.value.Compacting? && chain == Some(id)
    {
      background := None;
      inFlight := inFlight - {work};
      if work.generation != generation {
        return;
      }
      issued := id;
      chain := Some(id);
      prompt := Some(work.prompt);
      completedUserTurns := UserTurns(work.messages);
      var turns := Normalize(config.clean, work.messages, Some(answer));
      if turns.Some? {
        belief := belief[id := turns.value];
        background := ScheduleCompaction(work, id, turns.value, schedule);
      }
    }

    /** The server rejected the chain id of the stream. */
    method RebuildRejected(work: Pending) returns (again: Option<Pending>)
      requires work in inFlight && work.Streaming?
      modifies this
      ensures View() == Next(config, old(View()), ChainRejected(work))
      ensures inFlight == old(inFlight) - {work} + if again.Some? then {again.value} else {}
    {
      again := None;
      inFlight := inFlight - {work};
      if !work.mayRetry || work.chain.None? || work.generation != generation {
        return;
      }
      chain, prompt, completedUserTurns := None, None, 0;
      var turns := Normalize(config.clean, work.messages, None);
      if turns.None? {
        return;
      }
      if turns.value == [] {
        again := Some(Streaming(work.generation, work.prompt, work.messages, None, false));
      } else {
        var candidate := RecoveryPacket(config, turns.value, SnapshotOf(packet));
        if candidate.None? {
          return;
        }
        again := Some(Recovering(work.generation, work.prompt, work.messages, candidate.value, true));
      }
      inFlight := inFlight + {again.value};
    }

    /** The stream timed out while reading. */
    method ReadTimeout(work: Pending)
      requires work in inFlight && work.Streaming?
      modifies this
      ensures View() == Next(config, old(View()), TimedOut(work))
    {
      inFlight := inFlight - {work};
      if work.generation == generation {
        ResetConversation();
      }
    }

    /** The background candidate is warm. */
    method CommitCompaction(work: Pending, id: Id)
      requires work in inFlight && work.Compacting? && id == issued + 1
      modifies this
      ensures View() == Next(config, old(View()), CompactionDone(work))
    {
      inFlight := inFlight - {work};
      var stillCurrent := && work.generation == generation && work.userTurns == completedUserTurns
                          && !closed && chain == Some(work.source);
      if !stillCurrent {
        return;
      }
      issued := id;
      chain := Some(id);
      prompt := Some(work.prompt);
      packet := Some(work.packet);
      belief := belief[id := work.turns];
    }
  }
}

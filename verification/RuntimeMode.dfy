/**
The arbiter of the four exclusive voice workloads: a two-phase prepare / barrier / quiesce / commit protocol
with rollback, forced idle and shutdown.

Every awaited call may return, raise or be cancelled; while a command is suspended a workload may stop on its
own and a concurrent stop() may begin. The owner callback may raise.
*/
module RuntimeMode {
  import opened Wrappers

  datatype Mode = Assistant | Subtitles | Meeting | Idle

  datatype Owner = AssistantPcm | SubtitlesPcm | MeetingPcm | NoPcm

  function OwnerOf(mode: Mode): Owner {
    match mode
    case Assistant => AssistantPcm
    case Subtitles => SubtitlesPcm
    case Meeting => MeetingPcm
    case Idle => NoPcm
  }

  /** Nobody but the workload of the current mode may consume microphone PCM. */
  predicate Safe(mode: Mode, owner: Owner) {
    owner == NoPcm || owner == OwnerOf(mode)
  }

  /** How an awaited call ends. */
  datatype Outcome = Ok | Raised | Cancelled

  /** How a command ends for its caller. */
  datatype Ended = Returned | ModeConflict | NotActive | Unavailable | WorkloadError | CancelledOut

  /** What a command did to the arbiter. */
  datatype Exit =
    | Untouched        // refused, or nothing was prepared
    | CommittedTarget
    | RestoredSource
    | ForcedIdle
    | Abandoned        // cancelled by shutdown, or cancelled again inside its own rollback

  datatype Prepared = Prepared(target: Mode, committed: bool)

  datatype Action = Starts | Stops | Prepares | Commits | Aborts | Interrupts | Announces

  /** A call out of the arbiter: to a workload, with how it ended, or to the owner callback. */
  datatype Call =
    | Act(workload: Mode, action: Action, ended: Outcome)
    | Told(owner: Owner, ok: bool)
    | Retold(owner: Owner) // whatever it answers

  /** Phase one of a switch that succeeds. */
  function PrepareCalls(target: Mode): seq<Call> {
    match target
    case Assistant => [Act(Assistant, Starts, Ok)]
    case Idle => []
    case _ => [Act(target, Prepares, Ok)]
  }

  function StopCalls(source: Mode): seq<Call> {
    if source == Assistant || source == Subtitles then [Act(source, Stops, Ok)] else []
  }

  /** A source is stopped behind the barrier. */
  function QuiesceCalls(source: Mode): seq<Call> {
    if source == Idle then [] else [Told(NoPcm, true)] + StopCalls(source)
  }

  function CommitCalls(target: Mode): seq<Call> {
    if target == Subtitles || target == Meeting then [Act(target, Commits, Ok)] else []
  }

  /** What follows a successful preparation. */
  function AdvanceCalls(target: Mode, source: Mode): seq<Call> {
    QuiesceCalls(source) + CommitCalls(target) + [Told(OwnerOf(target), true)]
  }

  lemma AdvancedCalls(before: seq<Call>, target: Mode, source: Mode)
    ensures before + AdvanceCalls(target, source)
            == (if source == Idle then before else before + [Told(NoPcm, true)])
               + StopCalls(source) + CommitCalls(target) + [Told(OwnerOf(target), true)]
  {
  }

  /** A switch that gets through: prepare, barrier, stop of the source, commit, and the new owner told. */
  function SwitchCalls(target: Mode, source: Mode): seq<Call> {
    PrepareCalls(target) + AdvanceCalls(target, source)
  }

  /** A target undone: committed ones are stopped, prepared ones aborted, the assistant only where it is active. */
  function UndoCalls(target: Mode, committed: bool, active: bool, o: Outcome): seq<Call> {
    match target
    case Assistant => if active then [Act(Assistant, Stops, o)] else []
    case Subtitles => [Act(Subtitles, if committed then Stops else Aborts, o)]
    case Meeting => [Act(Meeting, if committed then Interrupts else Aborts, o)]
    case Idle => []
  }

  /** A source started again. */
  function RestartCalls(source: Mode): seq<Call> {
    match source
    case Assistant => [Act(Assistant, Starts, Ok)]
    case Subtitles => [Act(Subtitles, Prepares, Ok), Act(Subtitles, Commits, Ok)]
    case _ => []
  }

  /** Everything stopped, with how each stop ended. */
  function HaltCalls(interaction: bool, subtitles: bool, meeting: bool, ends: (Outcome, Outcome, Outcome)): seq<Call> {
    (if interaction then [Act(Assistant, Stops, ends.0)] else [])
    + (if subtitles then [Act(Subtitles, Stops, ends.1)] else [])
    + if meeting then [Act(Meeting, Interrupts, ends.2)] else []
  }

  lemma SwitchedCalls(before: seq<Call>, target: Mode, source: Mode)
    ensures before + SwitchCalls(target, source) == before + PrepareCalls(target) + AdvanceCalls(target, source)
  {
  }

  /** What an outcome comes to for a source that has to be active in the end. */
  predicate Came(o: Outcome, x: Outcome, active: bool) {
    o == if x == Ok && !active then Raised else x
  }

  datatype Need = NoSource | Alive | AssistantStart | SubtitlesStart

  /** A source is started again exactly where it needs to be, and its outcome is that of the calls and of the source. */
  ghost predicate Restarted(need: Need, active: bool, before: seq<Call>, after: seq<Call>, o: Outcome) {
    match need
    case NoSource => after == before && o == Raised
    case Alive => after == before && o == Ok
    case AssistantStart => exists x: Outcome :: after == before + [Act(Assistant, Starts, x)] && Came(o, x, active)
    case SubtitlesStart =>
      || (o != Ok && after == before + [Act(Subtitles, Prepares, o)])
      || exists x: Outcome :: after == before + [Act(Subtitles, Prepares, Ok), Act(Subtitles, Commits, x)] && Came(o, x, active)
  }

  /** The target was undone, then the source started again where it was not active, and its owner told. */
  predicate RestoredBy(before: seq<Call>, undo: seq<Call>, source: Mode, after: seq<Call>) {
    || after == before + undo + [Told(OwnerOf(source), true)]
    || after == before + undo + RestartCalls(source) + [Told(OwnerOf(source), true)]
  }

  /**
  A run of a meeting's end fixed in advance: whether the owner callback lets the barrier be set, whether it accepts the
  commit that follows, and whether the stop of the subtitles is cancelled if everything has to be stopped.
  */
  datatype Script = Script(barrier: bool, accepted: bool, cut: bool)

  class Coordinator {
    const hasSubtitles: bool
    const hasMeeting: bool
    /** Assumption on the workloads: stops, aborts and failed starts release the workload even when they raise. */
    const releases: bool

    var mode: Mode
    var owner: Owner
    var activeMeeting: Option<nat>
    var prepared: Option<Prepared>
    var revision: nat
    var closing: bool
    var stopped: bool
    var revisionAtClose: Option<nat>
    /** The one shutdown has ended with an error, which every later stop raises again. */
    var shutdownFailed: bool

    // what the workloads report about themselves
    var interactionActive: bool
    var subtitlesActive: bool
    var meetingActive: bool

    /** A cancellation was delivered while the command was already rolling back. */
    ghost var stray: bool
    /** The owner last passed to the owner callback. */
    ghost var announced: Owner
    /** Every call out of the arbiter so far, and how many of them failed. */
    ghost var calls: seq<Call>
    ghost var failures: nat

    /** Holds at every suspension point, inside and outside of commands. */
    ghost predicate Valid()
      reads this
    {
      && Safe(mode, owner)
      && announced == owner
      && (!hasSubtitles ==> !subtitlesActive)
      && (!hasMeeting ==> !meetingActive)
    }

    /** Only the workload of the current mode may be active. */
    predicate Exclusive()
      reads this
    {
      && (interactionActive ==> mode == Assistant)
      && (subtitlesActive ==> mode == Subtitles)
      && (meetingActive ==> mode == Meeting)
    }

    /** Holds between commands. */
    predicate Settled()
      reads this
    {
      && owner == OwnerOf(mode)
      && (mode == Meeting <==> activeMeeting.Some?)
      && (prepared.Some? ==> mode == Idle)
      && (releases ==> Exclusive())
    }

    constructor (initial: Mode, hasSubtitles: bool, hasMeeting: bool, releases: bool)
      requires initial != Meeting && (initial == Subtitles ==> hasSubtitles)
      ensures Valid() && Settled() && mode == initial && revision == 0 && !closing && !stopped && !shutdownFailed
    {
      this.hasSubtitles, this.hasMeeting, this.releases := hasSubtitles, hasMeeting, releases;
      mode, owner, announced := initial, OwnerOf(initial), OwnerOf(initial);
      activeMeeting, prepared, revision, closing, stopped, revisionAtClose := None, None, 0, false, false, None;
      shutdownFailed := false;
      interactionActive := initial == Assistant;
      subtitlesActive := initial == Subtitles;
      meetingActive := false;
      stray, calls, failures := false, [], 0;
    }

    // ---------- suspension ----------

    /** Nothing was started while suspended, and shutdown is never revoked. */
    twostate predicate Interleaved()
      reads this
    {
      && (interactionActive ==> old(interactionActive))
      && (subtitlesActive ==> old(subtitlesActive))
      && (meetingActive ==> old(meetingActive))
      && (old(closing) ==> closing)
    }

    /** What others may do meanwhile: workloads end on their own, and shutdown begins. */
    method OthersRun()
      requires Valid()
      modifies this`closing, this`revisionAtClose, this`interactionActive, this`subtitlesActive, this`meetingActive
      ensures Valid() && Interleaved()
    {
      var interactionEnds, subtitlesEnd, meetingEnds, shutdownBegins, shutdownRuns := *, *, *, *, *;
      interactionActive := interactionActive && !interactionEnds;
      subtitlesActive := subtitlesActive && !subtitlesEnd;
      meetingActive := meetingActive && !meetingEnds;
      closing := closing || shutdownBegins;
      if closing && revisionAtClose.None? && shutdownRuns {
        revisionAtClose := Some(revision);
      }
    }

    /** Await something: others run, then the await returns, raises or is cancelled; cut asks for the last. */
    method Suspend(rollback: bool, cut: bool := false) returns (o: Outcome)
      requires Valid()
      modifies this`closing, this`revisionAtClose, this`interactionActive, this`subtitlesActive, this`meetingActive
      modifies this`stray
      ensures Valid() && Interleaved()
      ensures stray == (old(stray) || (rollback && o == Cancelled))
      ensures cut ==> o == Cancelled
    {
      OthersRun();
      o := *;
      if cut {
        o := Cancelled;
      }
      stray := stray || (rollback && o == Cancelled);
    }

    /** The synchronous owner callback, called with the current owner; an answer may be fixed in advance. */
    method OwnerCallback(answer: Option<bool> := None) returns (ok: bool)
      requires Safe(mode, owner)
      modifies this`announced, this`calls, this`failures
      ensures announced == owner && (answer.Some? ==> ok == answer.value)
      ensures calls == old(calls) + [Told(owner, ok)] && failures == old(failures) + if ok then 0 else 1
    {
      announced := owner;
      ok := *;
      if answer.Some? {
        ok := answer.value;
      }
      calls, failures := calls + [Told(owner, ok)], failures + if ok then 0 else 1;
    }

    /** The callback told again, or told where its answer does not matter. */
    method Retell()
      requires Safe(mode, owner)
      modifies this`announced, this`calls
      ensures announced == owner && calls == old(calls) + [Retold(owner)]
    {
      announced, calls := owner, calls + [Retold(owner)];
    }

    // ---------- the workloads ----------

    method StartInteraction(rollback: bool) returns (o: Outcome)
      requires Valid()
      modifies this`closing, this`revisionAtClose, this`interactionActive, this`subtitlesActive, this`meetingActive
      modifies this`stray, this`calls, this`failures
      ensures Valid()
      ensures subtitlesActive ==> old(subtitlesActive)
      ensures meetingActive ==> old(meetingActive)
      ensures old(closing) ==> closing
      ensures stray == (old(stray) || (rollback && o == Cancelled))
      ensures releases && o == Cancelled ==> !interactionActive
      ensures calls == old(calls) + [Act(Assistant, Starts, o)]
      ensures failures == old(failures) + if o == Ok then 0 else 1
    {
      o := Suspend(rollback);
      calls, failures := calls + [Act(Assistant, Starts, o)], failures + if o == Ok then 0 else 1;
      interactionActive := *;
      if releases && o == Cancelled {
        interactionActive := false;
      }
    }

    method StopInteraction(rollback: bool) returns (o: Outcome)
      requires Valid()
      modifies this`closing, this`revisionAtClose, this`interactionActive, this`subtitlesActive, this`meetingActive
      modifies this`stray, this`calls, this`failures
      ensures Valid() && Interleaved()
      ensures stray == (old(stray) || (rollback && o == Cancelled))
      ensures o == Ok || (releases && o == Raised) ==> !interactionActive
      ensures calls == old(calls) + [Act(Assistant, Stops, o)]
      ensures failures == old(failures) + if o == Ok then 0 else 1
    {
      o := Suspend(rollback);
      calls, failures := calls + [Act(Assistant, Stops, o)], failures + if o == Ok then 0 else 1;
      if o == Ok || (releases && o == Raised) {
        interactionActive := false;
      }
    }

    method PrepareSubtitles(rollback: bool) returns (o: Outcome)
      requires Valid()
      modifies this`closing, this`revisionAtClose, this`interactionActive, this`subtitlesActive, this`meetingActive
      modifies this`stray, this`calls, this`failures
      ensures Valid() && Interleaved()
      ensures stray == (old(stray) || (rollback && o == Cancelled))
      ensures calls == old(calls) + [Act(Subtitles, Prepares, o)]
      ensures failures == old(failures) + if o == Ok then 0 else 1
    {
      o := Suspend(rollback);
      calls, failures := calls + [Act(Subtitles, Prepares, o)], failures + if o == Ok then 0 else 1;
    }

    /** The synchronous part may raise; what it returns, if anything, is awaited. */
    method CommitSubtitles(rollback: bool) returns (o: Outcome)
      requires Valid() && hasSubtitles
      modifies this`closing, this`revisionAtClose, this`interactionActive, this`subtitlesActive, this`meetingActive
      modifies this`stray, this`calls, this`failures
      ensures Valid()
      ensures interactionActive ==> old(interactionActive)
      ensures meetingActive ==> old(meetingActive)
      ensures old(closing) ==> closing
      ensures stray == (old(stray) || (rollback && o == Cancelled))
      ensures calls == old(calls) + [Act(Subtitles, Commits, o)]
      ensures failures == old(failures) + if o == Ok then 0 else 1
    {
      if * {
        o := Raised;
        calls, failures := calls + [Act(Subtitles, Commits, o)], failures + if o == Ok then 0 else 1;
        return;
      }
      subtitlesActive := *;
      if * {
        o := Ok;
        calls, failures := calls + [Act(Subtitles, Commits, o)], failures + if o == Ok then 0 else 1;
        return;
      }
      o := Suspend(rollback);
      calls, failures := calls + [Act(Subtitles, Commits, o)], failures + if o == Ok then 0 else 1;
    }

    method AbortSubtitles(rollback: bool) returns (o: Outcome)
      requires Valid()
      modifies this`closing, this`revisionAtClose, this`interactionActive, this`subtitlesActive, this`meetingActive
      modifies this`stray, this`calls, this`failures
      ensures Valid() && Interleaved()
      ensures stray == (old(stray) || (rollback && o == Cancelled))
      ensures o == Ok ==> !subtitlesActive
      ensures calls == old(calls) + [Act(Subtitles, Aborts, o)]
      ensures failures == old(failures) + if o == Ok then 0 else 1
    {
      o := Suspend(rollback);
      calls, failures := calls + [Act(Subtitles, Aborts, o)], failures + if o == Ok then 0 else 1;
      if o == Ok {
        subtitlesActive := false;
      }
    }

    method DeactivateSubtitles(rollback: bool, cut: bool := false) returns (o: Outcome)
      requires Valid()
      modifies this`closing, this`revisionAtClose, this`interactionActive, this`subtitlesActive, this`meetingActive
      modifies this`stray, this`calls, this`failures
      ensures Valid() && Interleaved()
      ensures stray == (old(stray) || (rollback && o == Cancelled))
      ensures o == Ok || (releases && o == Raised) ==> !subtitlesActive
      ensures cut ==> o == Cancelled
      ensures calls == old(calls) + [Act(Subtitles, Stops, o)]
      ensures failures == old(failures) + if o == Ok then 0 else 1
    {
      o := Suspend(rollback, cut);
      calls, failures := calls + [Act(Subtitles, Stops, o)], failures + if o == Ok then 0 else 1;
      if o == Ok || (releases && o == Raised) {
        subtitlesActive := false;
      }
    }

    method PrepareMeeting() returns (o: Outcome)
      requires Valid()
      modifies this`closing, this`revisionAtClose, this`interactionActive, this`subtitlesActive, this`meetingActive
      modifies this`stray, this`calls, this`failures
      ensures Valid() && Interleaved() && stray == old(stray)
      ensures calls == old(calls) + [Act(Meeting, Prepares, o)]
      ensures failures == old(failures) + if o == Ok then 0 else 1
    {
      o := Suspend(false);
      calls, failures := calls + [Act(Meeting, Prepares, o)], failures + if o == Ok then 0 else 1;
    }

    /** Synchronous: it records the meeting or raises. */
    method CommitMeeting(id: nat) returns (o: Outcome)
      requires Valid() && hasMeeting
      modifies this`meetingActive, this`activeMeeting, this`calls, this`failures
      ensures Valid() && o != Cancelled
      ensures activeMeeting == if o == Ok then Some(id) else old(activeMeeting)
      ensures calls == old(calls) + [Act(Meeting, Commits, o)]
      ensures failures == old(failures) + if o == Ok then 0 else 1
    {
      meetingActive := *;
      if * {
        calls, failures := calls + [Act(Meeting, Commits, Raised)], failures + if Raised == Ok then 0 else 1;
        return Raised;
      }
      activeMeeting := Some(id);
      calls, failures := calls + [Act(Meeting, Commits, Ok)], failures + if Ok == Ok then 0 else 1;
      return Ok;
    }

    method AbortMeeting(rollback: bool) returns (o: Outcome)
      requires Valid()
      modifies this`closing, this`revisionAtClose, this`interactionActive, this`subtitlesActive, this`meetingActive
      modifies this`stray, this`calls, this`failures
      ensures Valid() && Interleaved()
      ensures stray == (old(stray) || (rollback && o == Cancelled))
      ensures o == Ok ==> !meetingActive
      ensures calls == old(calls) + [Act(Meeting, Aborts, o)]
      ensures failures == old(failures) + if o == Ok then 0 else 1
    {
      o := Suspend(rollback);
      calls, failures := calls + [Act(Meeting, Aborts, o)], failures + if o == Ok then 0 else 1;
      if o == Ok {
        meetingActive := false;
      }
    }

    method InterruptMeeting(rollback: bool) returns (o: Outcome)
      requires Valid()
      modifies this`closing, this`revisionAtClose, this`interactionActive, this`subtitlesActive, this`meetingActive
      modifies this`stray, this`calls, this`failures
      ensures Valid() && Interleaved()
      ensures stray == (old(stray) || (rollback && o == Cancelled))
      ensures o == Ok || (releases && o == Raised) ==> !meetingActive
      ensures calls == old(calls) + [Act(Meeting, Interrupts, o)]
      ensures failures == old(failures) + if o == Ok then 0 else 1
    {
      o := Suspend(rollback);
      calls, failures := calls + [Act(Meeting, Interrupts, o)], failures + if o == Ok then 0 else 1;
      if o == Ok || (releases && o == Raised) {
        meetingActive := false;
      }
    }

    /** The started event, published after the commit. */
    method AnnounceMeeting() returns (o: Outcome)
      requires Valid()
      modifies this`closing, this`revisionAtClose, this`interactionActive, this`subtitlesActive, this`meetingActive
      modifies this`stray, this`calls, this`failures
      ensures Valid() && Interleaved() && stray == old(stray)
      ensures calls == old(calls) + [Act(Meeting, Announces, o)] && failures == old(failures) + if o == Ok then 0 else 1
    {
      o := Suspend(false);
      calls, failures := calls + [Act(Meeting, Announces, o)], failures + if o == Ok then 0 else 1;
    }

    /** A meeting is only stopped behind the barrier. */
    method StopMeeting() returns (o: Outcome)
      requires Valid() && owner == NoPcm
      modifies this`closing, this`revisionAtClose, this`interactionActive, this`subtitlesActive, this`meetingActive
      modifies this`stray, this`calls, this`failures
      ensures Valid() && Interleaved() && stray == old(stray)
      ensures o == Ok || releases ==> !meetingActive
      ensures calls == old(calls) + [Act(Meeting, Stops, o)]
      ensures failures == old(failures) + if o == Ok then 0 else 1
    {
      o := Suspend(false);
      calls, failures := calls + [Act(Meeting, Stops, o)], failures + if o == Ok then 0 else 1;
      if o == Ok || releases {
        meetingActive := false;
      }
    }

    // ---------- barrier and commit ----------

    method SetBarrier(answer: Option<bool> := None) returns (ok: bool)
      requires Valid()
      modifies this`owner, this`announced, this`calls, this`failures
      ensures Valid() && (answer.Some? ==> ok == answer.value)
      ensures owner == if ok then NoPcm else old(owner)
      ensures calls == if ok then old(calls) + [Told(NoPcm, true)] else old(calls) + [Told(NoPcm, false), Retold(old(owner))]
      ensures failures == old(failures) + if ok then 0 else 1
    {
      var previous := owner;
      owner := NoPcm;
      ok := OwnerCallback(answer);
      if !ok {
        owner := previous;
        Retell();
      }
    }

    method CommitState(target: Mode, answer: Option<bool> := None) returns (ok: bool)
      requires Valid()
      modifies this`mode, this`owner, this`revision, this`announced, this`calls, this`failures
      ensures Valid() && (answer.Some? ==> ok == answer.value)
      ensures ok ==> mode == target && owner == OwnerOf(target) && revision == old(revision) + 1
      ensures !ok ==> mode == old(mode) && owner == old(owner) && revision == old(revision)
      ensures calls == if ok then old(calls) + [Told(OwnerOf(target), true)]
                        else old(calls) + [Told(OwnerOf(target), false), Retold(old(owner))]
      ensures failures == old(failures) + if ok then 0 else 1
    {
      var previousMode, previousOwner := mode, owner;
      mode, owner := target, OwnerOf(target);
      ok := OwnerCallback(answer);
      if !ok {
        mode, owner := previousMode, previousOwner;
        Retell();
        return;
      }
      revision := revision + 1;
    }

    method ForceCommitIdle()
      requires Valid()
      modifies this`mode, this`owner, this`revision, this`announced, this`calls
      ensures Valid() && mode == Idle && owner == NoPcm && revision == old(revision) + 1
      ensures calls == old(calls) + [Retold(NoPcm)]
    {
      mode, owner := Idle, NoPcm;
      Retell();
      revision := revision + 1;
    }

    function NeedOf(source: Mode, interaction: bool, subtitles: bool): Need {
      match source
      case Assistant => if interaction then Alive else AssistantStart
      case Subtitles => if !hasSubtitles then NoSource else if subtitles then Alive else SubtitlesStart
      case _ => Alive
    }

    /** The workload was given to the arbiter. */
    predicate Has(target: Mode) {
      (target == Subtitles ==> hasSubtitles) && (target == Meeting ==> hasMeeting)
    }

    // ---------- aborting and stopping ----------

    /** The target workload is not active. */
    predicate Released(target: Mode)
      reads this
    {
      match target
      case Assistant => !interactionActive
      case Subtitles => !subtitlesActive
      case Meeting => !meetingActive
      case Idle => true
    }

    method DeactivateTarget(target: Mode) returns (o: Outcome)
      requires Valid()
      modifies this`closing, this`revisionAtClose, this`interactionActive, this`subtitlesActive, this`meetingActive
      modifies this`stray, this`calls, this`failures, this`activeMeeting
      ensures Valid() && Interleaved()
      ensures stray == (old(stray) || o == Cancelled)
      ensures o == Ok ==> Released(target)
      ensures activeMeeting == if o == Ok && target == Meeting && hasMeeting then None else old(activeMeeting)
      ensures calls == old(calls) + if Has(target) then UndoCalls(target, true, old(interactionActive), o) else []
      ensures failures == old(failures) + if o == Ok then 0 else 1
    {
      o := Ok;
      if target == Assistant {
        if interactionActive {
          o := StopInteraction(true);
        }
      } else if target == Subtitles {
        if hasSubtitles {
          o := DeactivateSubtitles(true);
        }
      } else if target == Meeting && hasMeeting {
        o := InterruptMeeting(true);
        if o == Ok {
          activeMeeting := None;
        }
      }
    }

    method AbortPreparation(target: Mode) returns (o: Outcome)
      requires Valid()
      modifies this`closing, this`revisionAtClose, this`interactionActive, this`subtitlesActive, this`meetingActive
      modifies this`stray, this`calls, this`failures
      ensures Valid() && Interleaved()
      ensures stray == (old(stray) || o == Cancelled)
      ensures o == Ok ==> Released(target)
      ensures calls == old(calls) + if Has(target) then UndoCalls(target, false, old(interactionActive), o) else []
      ensures failures == old(failures) + if o == Ok then 0 else 1
    {
      o := Ok;
      if target == Subtitles && hasSubtitles {
        o := AbortSubtitles(true);
      } else if target == Meeting && hasMeeting {
        o := AbortMeeting(true);
      } else if target == Assistant && interactionActive {
        o := StopInteraction(true);
      }
    }

    /** Undo a prepared or committed target; a failure is handed back to the caller. */
    method AbortTarget(target: Mode, committed: bool) returns (o: Outcome)
      requires Valid()
      modifies this`closing, this`revisionAtClose, this`interactionActive, this`subtitlesActive, this`meetingActive
      modifies this`stray, this`calls, this`failures, this`activeMeeting, this`prepared
      ensures Valid() && Interleaved()
      ensures stray == (old(stray) || o == Cancelled)
      ensures o == Ok ==> Released(target)
      ensures prepared == if o == Ok then None else old(prepared)
      ensures activeMeeting == if o == Ok && committed && target == Meeting && hasMeeting then None else old(activeMeeting)
      ensures calls == old(calls) + if Has(target) then UndoCalls(target, committed, old(interactionActive), o) else []
      ensures failures == old(failures) + if o == Ok then 0 else 1
    {
      if committed {
        o := DeactivateTarget(target);
      } else {
        o := AbortPreparation(target);
      }
      if o == Ok {
        prepared := None;
      }
    }

    /** Abort whatever is prepared, logging a failure. */
    method AbortPreparedSafely() returns (o: Outcome)
      requires Valid()
      modifies this`closing, this`revisionAtClose, this`interactionActive, this`subtitlesActive, this`meetingActive
      modifies this`stray, this`calls, this`failures, this`activeMeeting, this`prepared
      ensures Valid() && Interleaved()
      ensures o != Raised && stray == (old(stray) || o == Cancelled)
      ensures prepared == old(prepared) || prepared == None
      ensures activeMeeting == old(activeMeeting) || (activeMeeting == None && old(prepared).Some?)
      ensures old(prepared).None? ==>
                && o == Ok && closing == old(closing) && revisionAtClose == old(revisionAtClose)
                && interactionActive == old(interactionActive) && subtitlesActive == old(subtitlesActive)
                && meetingActive == old(meetingActive)
      ensures old(prepared).None? ==> calls == old(calls)
      ensures old(failures) <= failures
      ensures old(calls) <= calls
      ensures o == Cancelled ==> failures > old(failures)
    {
      if prepared.None? {
        return Ok;
      }
      o := AbortTarget(prepared.value.target, prepared.value.committed);
      if o == Raised {
        o := Ok;
      }
    }

    /**
     Every workload is stopped, swallowing failures; only a cancellation gets out. The assistant is stopped where it is
     active, subtitles wherever there are any, a meeting where one is known or running.
     */
    method StopEach(cut: bool) returns (o: Outcome, ghost met: bool, ghost ends: (Outcome, Outcome, Outcome))
      requires Valid()
      modifies this`closing, this`revisionAtClose, this`interactionActive, this`subtitlesActive, this`meetingActive
      modifies this`stray, this`calls, this`failures
      ensures Valid() && Interleaved()
      ensures o != Raised && stray == (old(stray) || o == Cancelled)
      ensures o == Ok && releases ==> !interactionActive && !subtitlesActive && !meetingActive
      ensures cut && hasSubtitles ==> o == Cancelled
      ensures old(failures) <= failures && (o == Cancelled ==> failures > old(failures))
      ensures old(calls) <= calls
      ensures hasMeeting && activeMeeting.Some? ==> met
      ensures met ==> hasMeeting && (activeMeeting.Some? || old(meetingActive))
      ensures o == Ok ==> calls == old(calls) + HaltCalls(old(interactionActive), hasSubtitles, met, ends)
    {
      o, met, ends := Ok, hasMeeting && activeMeeting.Some?, (Ok, Ok, Ok);
      if interactionActive {
        o := StopInteraction(true);
        ends := (o, Ok, Ok);
        if o == Cancelled {
          return;
        }
      }
      if hasSubtitles {
        o := DeactivateSubtitles(true, cut);
        ends := (ends.0, o, Ok);
        if o == Cancelled {
          return;
        }
      }
      if hasMeeting && (activeMeeting.Some? || meetingActive) {
        o := InterruptMeeting(true);
        met, ends := true, (ends.0, ends.1, o);
        if o == Cancelled {
          return;
        }
      }
      o := Ok;
    }

    /** What is prepared is aborted, then everything stopped. */
    method StopAll(cut: bool := false) returns (o: Outcome)
      requires Valid()
      modifies this`closing, this`revisionAtClose, this`interactionActive, this`subtitlesActive, this`meetingActive
      modifies this`stray, this`calls, this`failures, this`activeMeeting, this`prepared
      ensures Valid() && Interleaved()
      ensures o != Raised && stray == (old(stray) || o == Cancelled)
      ensures o == Ok && releases ==> !interactionActive && !subtitlesActive && !meetingActive
      ensures activeMeeting.Some? ==> activeMeeting == old(activeMeeting)
      ensures old(prepared).None? ==> activeMeeting == old(activeMeeting)
      ensures cut && hasSubtitles ==> o == Cancelled
      ensures old(failures) <= failures
      ensures old(calls) <= calls
      ensures o == Cancelled ==> failures > old(failures)
    {
      o := AbortPreparedSafely();
      if o == Cancelled {
        return;
      }
      ghost var met, ends;
      o, met, ends := StopEach(cut);
    }

    /** The last resort of a rollback: everything stopped, idle, nobody owns the microphone. */
    method ForceIdle(cut: bool := false) returns (exit: Exit)
      requires Valid()
      modifies this`closing, this`revisionAtClose, this`interactionActive, this`subtitlesActive, this`meetingActive
      modifies this`stray, this`calls, this`failures, this`activeMeeting, this`prepared, this`mode, this`owner, this`revision
      modifies this`announced
      ensures Valid()
      ensures old(closing) ==> closing
      ensures exit == ForcedIdle || (exit == Abandoned && stray)
      ensures exit == ForcedIdle ==> stray == old(stray)
      ensures exit == ForcedIdle ==> mode == Idle && revision == old(revision) + 1 && Settled()
      ensures exit == Abandoned ==> mode == old(mode) && owner == old(owner) && revision == old(revision)
      ensures activeMeeting.Some? ==> activeMeeting == old(activeMeeting)
      ensures exit == Abandoned && old(prepared).None? ==> activeMeeting == old(activeMeeting)
      ensures cut && hasSubtitles ==> exit == Abandoned
      ensures old(failures) <= failures
      ensures old(calls) <= calls
    {
      var o := StopAll(cut);
      if o == Cancelled {
        return Abandoned;
      }
      activeMeeting := None;
      ForceCommitIdle();
      return ForcedIdle;
    }

    // ---------- switching ----------

    /** The source is only stopped behind the barrier. */
    method QuiesceSource(source: Mode) returns (o: Outcome)
      requires Valid() && (source != Idle ==> owner == NoPcm)
      modifies this`closing, this`revisionAtClose, this`interactionActive, this`subtitlesActive, this`meetingActive
      modifies this`stray, this`calls, this`failures
      ensures Valid() && Interleaved() && stray == old(stray)
      ensures o == Ok && source != Meeting ==> Released(source)
      ensures if source == Assistant || (source == Subtitles && hasSubtitles) then
                calls == old(calls) + [Act(source, Stops, o)] && failures == old(failures) + if o == Ok then 0 else 1
              else calls == old(calls) && failures == old(failures) && o == if source == Subtitles then Raised else Ok
    {
      o := Ok;
      if source == Assistant {
        o := StopInteraction(false);
      } else if source == Subtitles {
        if !hasSubtitles {
          return Raised;
        }
        o := DeactivateSubtitles(false);
      }
    }

    method RestoreSource(source: Mode) returns (o: Outcome)
      requires Valid()
      modifies this`closing, this`revisionAtClose, this`interactionActive, this`subtitlesActive, this`meetingActive
      modifies this`stray, this`calls, this`failures
      ensures Valid()
      ensures old(closing) ==> closing
      ensures stray == (old(stray) || o == Cancelled)
      ensures source != Assistant && interactionActive ==> old(interactionActive)
      ensures source != Subtitles && subtitlesActive ==> old(subtitlesActive)
      ensures meetingActive ==> old(meetingActive)
      ensures o == Ok && (source == Assistant || source == Subtitles) ==> !Released(source)
      ensures Restarted(NeedOf(source, old(interactionActive), old(subtitlesActive)), !Released(source), old(calls), calls, o)
      ensures old(failures) <= failures
      ensures old(calls) <= calls
    {
      o := Ok;
      if source == Assistant {
        if !interactionActive {
          o := StartInteraction(true);
          if o != Ok {
            return;
          }
        }
        if !interactionActive {
          return Raised;
        }
      } else if source == Subtitles {
        if !hasSubtitles {
          return Raised;
        }
        if !subtitlesActive {
          o := PrepareSubtitles(true);
          if o != Ok {
            return;
          }
          o := CommitSubtitles(true);
          if o != Ok {
            return;
          }
        }
        if !subtitlesActive {
          return Raised;
        }
      }
    }

    /** Phase one. The assistant is stopped again if its start raised after activating it. */
    method Prepare(target: Mode) returns (o: Outcome)
      requires Valid() && !stray
      modifies this`closing, this`revisionAtClose, this`interactionActive, this`subtitlesActive, this`meetingActive
      modifies this`stray, this`calls, this`failures
      ensures Valid()
      ensures old(closing) ==> closing
      ensures target != Assistant && interactionActive ==> old(interactionActive)
      ensures subtitlesActive ==> old(subtitlesActive)
      ensures meetingActive ==> old(meetingActive)
      ensures stray ==> o == Cancelled
      ensures releases && o != Ok && !stray && target == Assistant ==> !interactionActive
      ensures o == Ok ==> calls == old(calls) + PrepareCalls(target)
      ensures if o == Ok then failures == old(failures) else failures > old(failures)
      ensures target == Assistant ==>
                || calls == old(calls) + [Act(Assistant, Starts, o)]
                || (o != Ok && exists y: Outcome ::
                      && calls == old(calls) + [Act(Assistant, Starts, Raised), Act(Assistant, Stops, y)]
                      && (o == Cancelled <==> y == Cancelled))
    {
      o := Ok;
      if target == Assistant {
        o := StartInteraction(false);
        if o == Raised && interactionActive {
          var stopped := StopInteraction(true);
          if stopped == Cancelled {
            return Cancelled;
          }
        }
      } else if target == Subtitles {
        o := PrepareSubtitles(false);
      } else if target == Meeting {
        o := PrepareMeeting();
      }
    }

    /** Phase two: behind the barrier, with the source released. */
    method CommitTarget(target: Mode, ghost source: Mode, id: nat) returns (o: Outcome)
      requires Valid() && (target == Subtitles ==> hasSubtitles) && (target == Meeting ==> hasMeeting)
      requires source != Idle ==> owner == NoPcm && Released(source)
      modifies this`closing, this`revisionAtClose, this`interactionActive, this`subtitlesActive, this`meetingActive
      modifies this`stray, this`calls, this`failures, this`activeMeeting
      ensures Valid()
      ensures old(closing) ==> closing
      ensures stray == old(stray)
      ensures interactionActive ==> old(interactionActive)
      ensures target != Subtitles && subtitlesActive ==> old(subtitlesActive)
      ensures target != Meeting && meetingActive ==> old(meetingActive)
      ensures activeMeeting == if o == Ok && target == Meeting then Some(id) else old(activeMeeting)
      ensures o == Ok ==> calls == old(calls) + CommitCalls(target)
      ensures failures == old(failures) + if o == Ok then 0 else 1
    {
      o := Ok;
      if target == Subtitles {
        o := CommitSubtitles(false);
      } else if target == Meeting {
        o := CommitMeeting(id);
      }
    }

    /** Between the barrier and the new owner: the source is stopped, then the target committed. */
    method Exchange(target: Mode, source: Mode, id: nat) returns (o: Outcome)
      requires Valid() && Has(target) && source != Meeting && (source != Idle ==> owner == NoPcm)
      modifies this`closing, this`revisionAtClose, this`interactionActive, this`subtitlesActive, this`meetingActive
      modifies this`stray, this`calls, this`failures, this`activeMeeting
      ensures Valid() && stray == old(stray)
      ensures old(closing) ==> closing
      ensures o == Ok ==> calls == old(calls) + StopCalls(source) + CommitCalls(target)
      ensures if o == Ok then failures == old(failures) else failures > old(failures) || !Has(source)
      ensures o == Ok && source != target ==> Released(source)
      ensures interactionActive ==> old(interactionActive)
      ensures target != Subtitles && subtitlesActive ==> old(subtitlesActive)
      ensures target != Meeting && meetingActive ==> old(meetingActive)
      ensures activeMeeting == if o == Ok && target == Meeting then Some(id) else old(activeMeeting)
      ensures old(failures) <= failures
    {
      o := QuiesceSource(source);
      if o == Ok {
        o := CommitTarget(target, source, id);
      }
    }

    /** Barrier, quiesce, commit: the part of a switch that is rolled back when it does not return. */
    method Advance(target: Mode, source: Mode, id: nat) returns (o: Outcome, committed: bool, ghost barrier: bool)
      requires Valid() && (target == Subtitles ==> hasSubtitles) && (target == Meeting ==> hasMeeting)
      requires source != Meeting
      modifies this`closing, this`revisionAtClose, this`interactionActive, this`subtitlesActive, this`meetingActive
      modifies this`stray, this`calls, this`failures, this`activeMeeting, this`prepared, this`mode, this`owner, this`revision
      modifies this`announced
      ensures Valid() && stray == old(stray)
      ensures old(closing) ==> closing
      ensures o == Ok ==> mode == target && owner == OwnerOf(target) && revision == old(revision) + 1
                          && prepared == None && (source != target ==> Released(source))
      ensures o != Ok ==> mode == old(mode) && revision == old(revision)
                          && prepared == Some(Prepared(target, committed))
                          && owner == if barrier then NoPcm else old(owner)
      ensures barrier ==> source != Idle
      ensures target != Assistant && interactionActive ==> old(interactionActive)
      ensures target == Assistant && interactionActive ==> old(interactionActive)
      ensures target != Subtitles && subtitlesActive ==> old(subtitlesActive)
      ensures target != Meeting && meetingActive ==> old(meetingActive)
      ensures activeMeeting == if target == Meeting && committed then Some(id) else old(activeMeeting)
      ensures o == Ok ==> committed
      ensures o == Ok ==> calls == old(calls) + AdvanceCalls(target, source)
      ensures if o == Ok then failures == old(failures) else failures > old(failures) || !Has(source)
      ensures old(failures) <= failures
    {
      committed, barrier := false, false;
      prepared := Some(Prepared(target, false));
      if source != Idle {
        var held := SetBarrier();
        if !held {
          return Raised, false, false;
        }
        barrier := true;
      }
      o := Exchange(target, source, id);
      if o != Ok {
        return;
      }
      committed := true;
      prepared := Some(Prepared(target, true));
      var done := CommitState(target);
      if !done {
        return Raised, true, barrier;
      }
      AdvancedCalls(old(calls), target, source);
      prepared := None;
    }

    /** Only these two workloads may be active. */
    predicate OnlyActive(a: Mode, b: Mode)
      reads this
    {
      && (interactionActive ==> a == Assistant || b == Assistant)
      && (subtitlesActive ==> a == Subtitles || b == Subtitles)
      && (meetingActive ==> a == Meeting || b == Meeting)
    }

    /** With the target undone: restore the source, or force idle. */
    method Recover(source: Mode, ghost orderly: bool) returns (exit: Exit)
      requires Valid() && !stray && source != Meeting && mode != Meeting && prepared.None?
      requires orderly ==> activeMeeting.None? && (releases ==> OnlyActive(source, source))
      modifies this`closing, this`revisionAtClose, this`interactionActive, this`subtitlesActive, this`meetingActive
      modifies this`stray, this`calls, this`failures, this`activeMeeting, this`prepared, this`mode, this`owner, this`revision
      modifies this`announced
      ensures Valid() && (old(closing) ==> closing) && old(failures) <= failures
      ensures exit == RestoredSource || exit == ForcedIdle || exit == Abandoned
      ensures exit == RestoredSource ==>
                mode == source && owner == OwnerOf(source) && revision == old(revision) + 1 && prepared == None
      ensures exit == RestoredSource ==>
                || calls == old(calls) + [Told(OwnerOf(source), true)]
                || calls == old(calls) + RestartCalls(source) + [Told(OwnerOf(source), true)]
      ensures exit == ForcedIdle ==> mode == Idle && owner == NoPcm && revision == old(revision) + 1
      ensures orderly && exit != Abandoned ==> Settled()
      ensures exit == Abandoned <==> stray
      ensures exit == Abandoned ==> mode == old(mode) && owner == old(owner) && revision == old(revision)
    {
      var restored := RestoreSource(source);
      if restored == Cancelled {
        return Abandoned;
      }
      if restored == Ok {
        var done := CommitState(source);
        if done {
          return RestoredSource;
        }
      }
      exit := ForceIdle();
    }

    /** Undo a switch that did not get through: abort the target, restore the source, or force idle. */
    method Rollback(target: Mode, source: Mode, committed: bool, cancelled: bool, ghost orderly: bool)
      returns (exit: Exit, ghost shutdown: bool)
      requires Valid() && !stray && source != Meeting && mode != Meeting
      requires orderly ==> (activeMeeting.Some? ==> target == Meeting && committed && hasMeeting)
      requires orderly ==> (releases ==> OnlyActive(source, target))
      modifies this`closing, this`revisionAtClose, this`interactionActive, this`subtitlesActive, this`meetingActive
      modifies this`stray, this`calls, this`failures, this`activeMeeting, this`prepared, this`mode, this`owner, this`revision
      modifies this`announced
      ensures Valid() && (old(closing) ==> closing)
      ensures exit == RestoredSource || exit == ForcedIdle || exit == Abandoned
      ensures exit == RestoredSource ==>
                mode == source && owner == OwnerOf(source) && revision == old(revision) + 1 && prepared == None
      ensures exit == ForcedIdle ==> mode == Idle && owner == NoPcm && revision == old(revision) + 1
      ensures orderly && exit != Abandoned ==> Settled()
      ensures exit == Abandoned <==> stray || shutdown
      ensures exit == Abandoned ==> mode == old(mode) && owner == old(owner) && revision == old(revision)
      ensures shutdown ==> cancelled && closing
      ensures exit == RestoredSource && Has(target) ==>
                RestoredBy(old(calls), UndoCalls(target, committed, old(interactionActive), Ok), source, calls)
      ensures old(failures) <= failures
      ensures cancelled && old(closing) ==> exit == Abandoned
    {
      shutdown := false;
      var aborted := AbortTarget(target, committed);
      if aborted == Cancelled {
        return Abandoned, false;
      }
      if cancelled && closing {
        return Abandoned, true;
      }
      if aborted == Raised {
        exit := ForceIdle();
        return;
      }
      exit := Recover(source, orderly);
    }

    /**
     A whole switch. Once the target is prepared it ends in the target committed, the source restored or forced
     idle, each raising the revision by exactly one; the exceptions are shutdown and a cancellation that hits
     the rollback itself. The owner differs from that of the mode exactly where one of these came after the barrier.
     */
    method SwitchWorkload(target: Mode, source: Mode, id: nat)
      returns (exit: Exit, ended: Ended, ghost barrier: bool, ghost shutdown: bool)
      requires Valid() && target != Idle && source != Meeting && mode != Meeting && !stray
      requires (target == Subtitles ==> hasSubtitles) && (target == Meeting ==> hasMeeting)
      requires source == mode || (source == Idle && mode == target)
      modifies this`closing, this`revisionAtClose, this`interactionActive, this`subtitlesActive, this`meetingActive
      modifies this`stray, this`calls, this`failures, this`activeMeeting, this`prepared, this`mode, this`owner, this`revision
      modifies this`announced
      ensures Valid() && (old(closing) ==> closing)
      ensures (exit == CommittedTarget <==> ended == Returned) && ended != NotActive && ended != ModeConflict
      ensures exit == Untouched ==>
                mode == old(mode) && owner == old(owner) && revision == old(revision)
                && activeMeeting == old(activeMeeting) && prepared == old(prepared)
      ensures exit == CommittedTarget ==>
                mode == target && owner == OwnerOf(target) && revision == old(revision) + 1 && prepared == None
      ensures exit == RestoredSource ==>
                mode == source && owner == OwnerOf(source) && revision == old(revision) + 1 && prepared == None
      ensures exit == ForcedIdle ==> mode == Idle && owner == NoPcm && revision == old(revision) + 1
      ensures exit == Abandoned <==> exit != Untouched && (stray || shutdown)
      ensures shutdown ==> closing && ended == CancelledOut
      ensures exit == Abandoned ==> mode == old(mode) && revision == old(revision)
                                    && owner == if barrier then NoPcm else old(owner)
      ensures old(owner == OwnerOf(mode)) ==> (owner != OwnerOf(mode) <==> exit == Abandoned && barrier)
      ensures barrier ==> source != Idle
      ensures old(Settled()) && exit != Abandoned && !stray ==> Settled()
      ensures exit == CommittedTarget ==> calls == old(calls) + SwitchCalls(target, source)
      ensures exit != CommittedTarget && Has(source) ==> failures > old(failures)
      ensures old(failures) <= failures
    {
      barrier, shutdown := false, false;
      var o := Prepare(target);
      if o != Ok {
        return Untouched, if o == Cancelled then CancelledOut else WorkloadError, false, false;
      }
      var committed;
      o, committed, barrier := Advance(target, source, id);
      if o == Ok {
        SwitchedCalls(old(calls), target, source);
        return CommittedTarget, Returned, barrier, false;
      }
      exit, shutdown := Rollback(target, source, committed, o == Cancelled, old(Settled()));
      ended := if o == Cancelled || exit == Abandoned then CancelledOut
               else if exit == ForcedIdle then Unavailable else WorkloadError;
    }

    // ---------- commands ----------

    /** What a stop of the meeting leaves behind when its rollback is cancelled: the mode without a meeting. */
    predicate Stuck()
      reads this
    {
      mode == Meeting && activeMeeting.None?
    }

    /** A public command found the arbiter shut down or shutting down and did nothing. */
    twostate predicate Refused(exit: Exit, ended: Ended)
      reads this
    {
      && exit == Untouched
      && ended == Unavailable
      && Shown() == old(Shown())
    }

    /** What every command guarantees. */
    twostate predicate Completed(exit: Exit)
      reads this
    {
      && CommandStep(old(Shown()), exit, Shown())
      && (exit == Abandoned ==> stray || closing)
      && (old(Settled()) && !stray && exit != Abandoned ==> Settled())
    }

    function Shown(): View
      reads this
    {
      View.View(mode, owner, revision, closing, stopped)
    }

    /** A cancelled command aborts what is still prepared before the cancellation reaches the caller. */
    method Finish(ended: Ended)
      requires Valid()
      modifies this`closing, this`revisionAtClose, this`interactionActive, this`subtitlesActive, this`meetingActive
      modifies this`stray, this`calls, this`failures, this`activeMeeting, this`prepared
      ensures Valid() && (old(closing) ==> closing) && (old(stray) ==> stray)
      ensures ended != CancelledOut ==> closing == old(closing) && stray == old(stray)
      ensures ended != CancelledOut || old(prepared).None? ==>
                && interactionActive == old(interactionActive) && subtitlesActive == old(subtitlesActive)
                && activeMeeting == old(activeMeeting) && prepared == old(prepared)
      ensures activeMeeting == old(activeMeeting) || activeMeeting == None
      ensures old(Settled()) && !stray ==> Settled()
      ensures ended != CancelledOut ==> calls == old(calls)
      ensures old(failures) <= failures
    {
      if ended == CancelledOut {
        var ignored := AbortPreparedSafely();
      }
    }

    /** A switch run as a command: where it is cancelled, what is still prepared is aborted. */
    method RunSwitch(target: Mode, source: Mode, id: nat) returns (exit: Exit, ended: Ended)
      requires Valid() && target != Idle && source != Meeting && mode != Meeting && !stray && !closing
      requires (target == Subtitles ==> hasSubtitles) && (target == Meeting ==> hasMeeting)
      requires source == mode || (source == Idle && mode == target)
      modifies this`closing, this`revisionAtClose, this`interactionActive, this`subtitlesActive, this`meetingActive
      modifies this`stray, this`calls, this`failures, this`activeMeeting, this`prepared, this`mode, this`owner, this`revision
      modifies this`announced
      ensures Valid() && Completed(exit)
      ensures exit == CommittedTarget <==> ended == Returned
      ensures exit == CommittedTarget ==> mode == target && calls == old(calls) + SwitchCalls(target, source)
      ensures exit != CommittedTarget && Has(source) ==> failures > old(failures)
      ensures ended != NotActive && ended != ModeConflict && old(failures) <= failures
    {
      ghost var barrier, shutdown;
      exit, ended, barrier, shutdown := SwitchWorkload(target, source, id);
      Finish(ended);
    }

    method StartAssistant() returns (exit: Exit, ended: Ended)
      requires Valid()
      modifies this
      ensures Valid() && stopped == old(stopped)
      ensures old(Stuck()) ==> Stuck() && exit == Untouched && ended != Returned && Shown() == old(Shown())
      ensures old(closing) ==> Refused(exit, ended)
      ensures !old(closing) && old(mode) == Meeting ==> ended == ModeConflict && exit == Untouched
      ensures Completed(exit)
      ensures exit == CommittedTarget ==> mode == Assistant && ended == Returned
      ensures ended == Returned ==> mode == Assistant
      ensures exit == CommittedTarget ==>
                calls == old(calls) + SwitchCalls(Assistant, if old(mode) == Assistant then Idle else old(mode))
      ensures ended == Returned && exit == Untouched ==> old(mode == Assistant && interactionActive) && calls == old(calls)
      ensures !old(closing) && old(mode == Assistant && interactionActive) ==> exit == Untouched && ended == Returned
      ensures !old(closing) && old(mode) != Meeting && Has(old(mode)) && failures == old(failures) ==> ended == Returned
    {
      stray := false;
      if closing {
        return Untouched, Unavailable;
      }
      if mode == Meeting {
        return Untouched, ModeConflict;
      }
      if mode == Assistant && interactionActive {
        return Untouched, Returned;
      }
      exit, ended := RunSwitch(Assistant, if mode == Assistant then Idle else mode, 0);
    }

    method StartSubtitles(captureDiffers: bool) returns (exit: Exit, ended: Ended)
      requires Valid()
      modifies this
      ensures Valid() && stopped == old(stopped)
      ensures old(Stuck()) ==> Stuck() && exit == Untouched && ended != Returned && Shown() == old(Shown())
      ensures old(closing) ==> Refused(exit, ended)
      ensures !old(closing) && old(mode) == Meeting ==> ended == ModeConflict && exit == Untouched
      ensures Completed(exit)
      ensures !old(closing) && old(mode) != Meeting && !hasSubtitles ==> ended == Unavailable && exit == Untouched
      ensures !old(closing) && hasSubtitles && old(mode) == Subtitles && old(subtitlesActive) ==>
                exit == Untouched && ended == if captureDiffers then ModeConflict else Returned
      ensures exit == CommittedTarget ==> mode == Subtitles && ended == Returned
      ensures ended == Returned ==> mode == Subtitles
      ensures exit == CommittedTarget ==>
                calls == old(calls) + SwitchCalls(Subtitles, if old(mode) == Subtitles then Idle else old(mode))
      ensures ended == Returned && exit == Untouched ==>
                old(mode == Subtitles && subtitlesActive) && !captureDiffers && calls == old(calls)
      ensures !old(closing) && hasSubtitles && old(mode) != Meeting && failures == old(failures) ==>
                ended == Returned || (captureDiffers && old(mode == Subtitles && subtitlesActive))
    {
      stray := false;
      if closing {
        return Untouched, Unavailable;
      }
      if mode == Meeting {
        return Untouched, ModeConflict;
      }
      if !hasSubtitles {
        return Untouched, Unavailable;
      }
      if mode == Subtitles && subtitlesActive {
        return Untouched, if captureDiffers then ModeConflict else Returned;
      }
      exit, ended := RunSwitch(Subtitles, if mode == Subtitles then Idle else mode, 0);
    }

    /** The started event is published after the commit, so a cancellation there leaves the meeting running. */
    method StartMeeting(id: nat) returns (exit: Exit, ended: Ended)
      requires Valid()
      modifies this
      ensures Valid() && stopped == old(stopped)
      ensures old(Stuck()) ==> Stuck() && exit == Untouched && ended != Returned && Shown() == old(Shown())
      ensures old(closing) ==> exit == Untouched && ended == Unavailable && Shown() == old(Shown())
      ensures !old(closing) && hasMeeting && old(mode) == Meeting ==> ended == ModeConflict && exit == Untouched
      ensures Completed(exit)
      ensures exit == CommittedTarget ==> mode == Meeting && (ended == Returned || ended == CancelledOut)
      ensures ended == Returned ==> exit == CommittedTarget
      ensures exit == CommittedTarget ==>
                exists o :: calls == old(calls) + SwitchCalls(Meeting, old(mode)) + [Act(Meeting, Announces, o)]
                            && ended == if o == Cancelled then CancelledOut else Returned
      ensures !old(closing) && hasMeeting && old(mode) != Meeting && Has(old(mode)) && failures == old(failures) ==>
                ended == Returned
    {
      stray := false;
      if !hasMeeting || closing {
        return Untouched, Unavailable;
      }
      if mode == Meeting {
        return Untouched, ModeConflict;
      }
      exit, ended := RunSwitch(Meeting, mode, id);
      if exit == CommittedTarget {
        var published := AnnounceMeeting();
        if published == Cancelled {
          ended := CancelledOut;
        }
      }
    }

    method RestartAssistant() returns (exit: Exit, ended: Ended)
      requires Valid()
      modifies this
      ensures Valid() && stopped == old(stopped)
      ensures old(Stuck()) ==> Stuck() && exit == Untouched && ended != Returned && Shown() == old(Shown())
      ensures old(closing) ==> Refused(exit, ended)
      ensures exit == Untouched && Completed(exit)
      ensures ended == Returned ==> mode == Assistant && owner == AssistantPcm
      ensures ended == Returned ==> calls == old(calls) + [Act(Assistant, Starts, Ok)]
      ensures old(!closing && mode == Assistant && owner == AssistantPcm) && failures == old(failures) ==> ended == Returned
    {
      stray := false;
      if closing {
        return Untouched, Unavailable;
      }
      if mode != Assistant || owner != AssistantPcm {
        return Untouched, ModeConflict;
      }
      exit := Untouched;
      var restarted := StartInteraction(false);
      ended := if restarted == Ok then Returned else if restarted == Raised then WorkloadError else CancelledOut;
      Finish(ended);
    }

    /** The barrier could not be set: the meeting goes on, or, where the owner callback refuses that too, idle is forced. */
    method KeepMeeting(answer: Option<bool>, cut: bool) returns (exit: Exit, ended: Ended, ghost accepted: bool)
      requires Valid() && !stray && mode == Meeting
      modifies this`closing, this`revisionAtClose, this`interactionActive, this`subtitlesActive, this`meetingActive
      modifies this`stray, this`calls, this`failures, this`activeMeeting, this`prepared, this`mode, this`owner, this`revision
      modifies this`announced
      ensures Valid() && (old(closing) ==> closing)
      ensures exit == if accepted then RestoredSource else if stray then Abandoned else ForcedIdle
      ensures ended == if accepted then WorkloadError else if stray then CancelledOut else Unavailable
      ensures CommandStep(old(Shown()), exit, Shown())
      ensures accepted || stray ==> mode == Meeting && (owner == if accepted then MeetingPcm else old(owner))
      ensures accepted || (stray && old(prepared).None?) ==> activeMeeting == old(activeMeeting)
      ensures accepted ==> prepared == old(prepared) && (old(Exclusive()) ==> Exclusive())
      ensures exit == ForcedIdle ==> mode == Idle && Settled()
      ensures answer.Some? ==> accepted == answer.value
      ensures cut && hasSubtitles && !accepted ==> stray
      ensures accepted ==> calls == old(calls) + [Told(MeetingPcm, true)]
      ensures !accepted ==> failures > old(failures)
      ensures old(failures) <= failures
    {
      var back := CommitState(Meeting, answer);
      accepted := back;
      if back {
        return RestoredSource, WorkloadError, true;
      }
      exit := ForceIdle(cut);
      ended := if exit == Abandoned then CancelledOut else Unavailable;
    }

    /** Behind the barrier: the meeting is stopped and forgotten, however its stop ends, and idle is committed. */
    method LeaveMeeting(answer: Option<bool>, cut: bool) 
      returns (exit: Exit, ended: Ended, ghost accepted: bool, ghost halted: Outcome)
      requires Valid() && !stray && mode == Meeting && owner == NoPcm
      modifies this`closing, this`revisionAtClose, this`interactionActive, this`subtitlesActive, this`meetingActive
      modifies this`stray, this`calls, this`failures, this`activeMeeting, this`prepared, this`mode, this`owner, this`revision
      modifies this`announced
      ensures Valid() && (old(closing) ==> closing) && activeMeeting.None?
      ensures exit == if accepted then CommittedTarget else if stray then Abandoned else ForcedIdle
      ensures ended == Returned ==> accepted
      ensures exit == Abandoned ==> ended == CancelledOut
      ensures ended != NotActive && CommandStep(old(Shown()), exit, Shown())
      ensures if exit == Abandoned then mode == Meeting && owner == NoPcm else mode == Idle && owner == NoPcm
      ensures exit == ForcedIdle || (accepted && old(releases ==> Exclusive())) ==> Settled()
      ensures answer.Some? ==> accepted == answer.value
      ensures cut && hasSubtitles && !accepted ==> stray
      ensures ended == Returned ==> halted == Ok
      ensures accepted ==> calls == old(calls) + [Act(Meeting, Stops, halted), Told(NoPcm, true)]
      ensures old(failures) <= failures && (ended != Returned ==> failures > old(failures))
    {
      var stopped := StopMeeting();
      halted := stopped;
      activeMeeting := None;
      var done := CommitState(Idle, answer);
      accepted := done;
      if done {
        exit := CommittedTarget;
      } else {
        exit := ForceIdle(cut);
      }
      if exit == Abandoned || stopped == Cancelled {
        ended := CancelledOut;
      } else if stopped == Raised {
        ended := WorkloadError;
      } else {
        ended := if done then Returned else Unavailable;
      }
    }

    /**
     The end of the meeting. Its result is told by three things: whether the barrier was set, whether the owner callback
     accepted the commit behind it, and whether stopping everything was cancelled.
     */
    method EndMeetingLocked(id: Option<nat>, script: Option<Script> := None)
      returns (exit: Exit, ended: Ended, ghost barrier: bool, ghost accepted: bool)
      requires Valid() && !stray
      modifies this`closing, this`revisionAtClose, this`interactionActive, this`subtitlesActive, this`meetingActive
      modifies this`stray, this`calls, this`failures, this`activeMeeting, this`prepared, this`mode, this`owner, this`revision
      modifies this`announced
      ensures Valid() && (old(closing) ==> closing)
      ensures exit == Untouched <==> ended == NotActive
      ensures exit == Untouched <==>
                (old(mode) != Meeting || !hasMeeting || old(activeMeeting).None? || (id.Some? && id != old(activeMeeting)))
      ensures exit == Untouched ==> old(Settled()) == Settled() && activeMeeting == old(activeMeeting) && Shown() == old(Shown())
      ensures Completed(exit)
      ensures exit == CommittedTarget ==> mode == Idle
      ensures ended == Returned ==> exit == CommittedTarget
      ensures exit != Untouched ==>
                exit == if accepted then (if barrier then CommittedTarget else RestoredSource)
                        else if stray then Abandoned else ForcedIdle
      ensures exit == Abandoned ==> ended == CancelledOut && owner == if barrier then NoPcm else old(owner)
      ensures exit != Untouched && old(prepared).None? ==> (Stuck() <==> barrier && !accepted && stray)
      ensures exit != Untouched && script.Some? ==>
                && barrier == script.value.barrier && accepted == script.value.accepted
                && (script.value.cut && hasSubtitles && !accepted ==> stray)
      ensures exit == CommittedTarget ==>
                exists o :: calls == old(calls) + [Told(NoPcm, true), Act(Meeting, Stops, o), Told(NoPcm, true)]
                            && (ended == Returned ==> o == Ok)
      ensures exit == RestoredSource ==> calls == old(calls) + [Told(NoPcm, false), Retold(old(owner)), Told(MeetingPcm, true)]
      ensures exit == Untouched ==> calls == old(calls)
      ensures exit != Untouched && failures == old(failures) ==> ended == Returned
      ensures old(failures) <= failures
    {
      barrier, accepted := false, false;
      if mode != Meeting || activeMeeting.None? || !hasMeeting {
        return Untouched, NotActive, false, false;
      }
      if id.Some? && id != activeMeeting {
        return Untouched, NotActive, false, false;
      }
      var cut := script.Some? && script.value.cut;
      var held := SetBarrier(if script.Some? then Some(script.value.barrier) else None);
      barrier := held;
      var answer := if script.Some? then Some(script.value.accepted) else None;
      if !held {
        exit, ended, accepted := KeepMeeting(answer, cut);
        return;
      }
      ghost var halted;
      exit, ended, accepted, halted := LeaveMeeting(answer, cut);
    }

    /** The command found a settled meeting to end, and there are subtitles. */
    twostate predicate Ending(id: Option<nat>)
      reads this
    {
      && old(Settled()) && old(mode) == Meeting && old(!closing) && hasMeeting && hasSubtitles
      && (id.Some? ==> id == old(activeMeeting))
    }

    method EndMeeting(id: Option<nat>, script: Option<Script> := None) returns (exit: Exit, ended: Ended)
      requires Valid()
      modifies this
      ensures Valid() && stopped == old(stopped)
      ensures old(Stuck()) ==> Stuck() && exit == Untouched && ended != Returned && Shown() == old(Shown())
      ensures old(closing) ==> Refused(exit, ended)
      ensures !old(closing) && (old(mode) != Meeting || old(activeMeeting).None?) ==> ended == NotActive && exit == Untouched
      ensures Completed(exit)
      ensures exit == CommittedTarget ==> mode == Idle
      ensures ended == Returned ==> mode == Idle
      ensures script == Some(Script(true, false, true)) && Ending(id) ==>
                exit == Abandoned && ended == CancelledOut && Stuck() && owner == NoPcm && revision == old(revision)
      ensures !old(closing) && old(mode) == Meeting && hasMeeting && failures == old(failures) ==>
                ended == Returned || old(activeMeeting).None? || (id.Some? && id != old(activeMeeting))
    {
      stray := false;
      if closing {
        return Untouched, Unavailable;
      }
      ghost var barrier, accepted;
      exit, ended, barrier, accepted := EndMeetingLocked(id, script);
      Finish(ended);
    }

    /**
     It happens: in a settled meeting the owner callback refuses the commit of idle, and the stop of the subtitles that
     follows is cancelled. The mode is still meeting, there is no meeting, and nobody owns the microphone.
     */
    method EndMeetingSticks(id: Option<nat>) returns (exit: Exit, ended: Ended)
      requires Valid() && Settled() && mode == Meeting && hasMeeting && hasSubtitles && !closing
      requires id.Some? ==> id == activeMeeting
      modifies this
      ensures Valid() && exit == Abandoned && ended == CancelledOut
      ensures Stuck() && owner == NoPcm && revision == old(revision)
    {
      exit, ended := EndMeeting(id, Some(Script(true, false, true)));
    }

    predicate SourceActive(source: Mode)
      reads this
    {
      match source
      case Assistant => interactionActive
      case Subtitles => hasSubtitles && subtitlesActive
      case Meeting => activeMeeting.Some?
      case Idle => false
    }

    method StopActiveMode() returns (exit: Exit, ended: Ended)
      requires Valid()
      modifies this
      ensures Valid() && stopped == old(stopped)
      ensures old(Stuck()) ==> Stuck() && exit == Untouched && ended != Returned && Shown() == old(Shown())
      ensures old(closing) ==> Refused(exit, ended)
      ensures !old(closing) && old(Stuck()) ==> ended == NotActive && exit == Untouched && Stuck()
      ensures Completed(exit)
      ensures exit == CommittedTarget ==> mode == Idle
      ensures ended == Returned ==> mode == Idle
      ensures exit == RestoredSource && old(mode) != Meeting && old(prepared).None? ==>
                mode == old(mode) && SourceActive(mode)
      ensures old(mode) == Idle && !old(closing) ==> exit == Untouched && ended == Returned && calls == old(calls)
      ensures !old(closing) && failures == old(failures) && Has(old(mode)) && old(mode == Meeting ==> activeMeeting.Some?) ==>
                ended == Returned
    {
      stray := false;
      if closing {
        return Untouched, Unavailable;
      }
      if mode == Idle {
        return Untouched, Returned;
      }
      if mode == Meeting {
        ghost var barrier, accepted;
        exit, ended, barrier, accepted := EndMeetingLocked(None);
      } else {
        ghost var barrier, shutdown, halted;
        exit, ended, barrier, shutdown, halted := StopSource(mode);
      }
      Finish(ended);
    }

    /** A cancelled stop of the active mode puts the source back, unless shutdown is under way. */
    method RestoreAfterCancellation(source: Mode, ghost orderly: bool) returns (exit: Exit)
      requires Valid() && !stray && mode == source && (source == Assistant || source == Subtitles)
      requires orderly ==> activeMeeting.None? && prepared.None? && (releases ==> Exclusive())
      modifies this`closing, this`revisionAtClose, this`interactionActive, this`subtitlesActive, this`meetingActive
      modifies this`stray, this`calls, this`failures, this`activeMeeting, this`prepared, this`mode, this`owner, this`revision
      modifies this`announced
      ensures Valid() && (old(closing) ==> closing)
      ensures exit != Untouched && exit != CommittedTarget && CommandStep(old(Shown()), exit, Shown())
      ensures exit == Abandoned <==> stray || old(closing)
      ensures exit == Abandoned ==> owner == old(owner)
      ensures orderly && exit != Abandoned ==> Settled()
      ensures exit == RestoredSource ==> mode == source && SourceActive(source) && prepared == old(prepared)
      ensures old(failures) <= failures
      ensures old(calls) <= calls
    {
      if closing {
        return Abandoned;
      }
      var restored := RestoreSource(source);
      if restored == Cancelled {
        return Abandoned;
      }
      if restored == Ok {
        var back := CommitState(source);
        if back {
          return RestoredSource;
        }
      }
      exit := ForceIdle();
    }

    /**
     A failed stop of the active mode keeps the source if it is still active. An active source is given up only where
     the owner callback refuses it, which the caller sees as unavailable.
     */
    method KeepAfterError(source: Mode, ghost orderly: bool) returns (exit: Exit, ended: Ended)
      requires Valid() && !stray && mode == source && (source == Assistant || source == Subtitles)
      requires orderly ==> activeMeeting.None? && prepared.None? && (releases ==> Exclusive())
      modifies this`closing, this`revisionAtClose, this`interactionActive, this`subtitlesActive, this`meetingActive
      modifies this`stray, this`calls, this`failures, this`activeMeeting, this`prepared, this`mode, this`owner, this`revision
      modifies this`announced
      ensures Valid() && (old(closing) ==> closing)
      ensures exit != Untouched && exit != CommittedTarget && CommandStep(old(Shown()), exit, Shown())
      ensures exit == Abandoned <==> stray
      ensures exit == Abandoned ==> owner == old(owner)
      ensures orderly && exit != Abandoned ==> Settled()
      ensures ended != Returned && ended != NotActive
      ensures exit == RestoredSource <==> ended == WorkloadError && old(SourceActive(source))
      ensures exit == RestoredSource ==> mode == source && SourceActive(source) && prepared == old(prepared)
      ensures !old(SourceActive(source)) ==> exit == ForcedIdle || exit == Abandoned
      ensures exit == ForcedIdle ==> ended == if old(SourceActive(source)) then Unavailable else WorkloadError
      ensures old(failures) <= failures
      ensures old(calls) <= calls
      ensures ended == CancelledOut <==> exit == Abandoned
    {
      var active := SourceActive(source);
      if active {
        var back := CommitState(source);
        if back {
          return RestoredSource, WorkloadError;
        }
      }
      exit := ForceIdle();
      ended := if exit == Abandoned then CancelledOut else if active then Unavailable else WorkloadError;
    }

    /** Behind the barrier: the source is stopped and idle committed, or mode and revision stay. */
    method LeaveSource(source: Mode) returns (o: Outcome, ghost halted: Outcome)
      requires Valid() && owner == NoPcm && (source == Assistant || source == Subtitles)
      modifies this`closing, this`revisionAtClose, this`interactionActive, this`subtitlesActive, this`meetingActive
      modifies this`stray, this`calls, this`failures, this`mode, this`owner, this`revision, this`announced
      ensures Valid() && Interleaved() && stray == old(stray)
      ensures if o == Ok then mode == Idle && owner == NoPcm && revision == old(revision) + 1 && Released(source)
              else mode == old(mode) && owner == NoPcm && revision == old(revision)
      ensures o == Ok ==> calls == old(calls) + [Act(source, Stops, Ok), Told(NoPcm, true)]
      ensures if o == Ok then failures == old(failures) else failures > old(failures) || !Has(source)
      ensures Has(source) ==> old(calls) + [Act(source, Stops, halted)] <= calls
      ensures o == (if Has(source) && halted != Ok then halted else o) && (o == Cancelled <==> halted == Cancelled)
      ensures !Has(source) ==> o == Raised
      ensures old(failures) <= failures
    {
      o := QuiesceSource(source);
      halted := o;
      if o == Ok {
        var done := CommitState(Idle);
        if !done {
          o := Raised;
        }
      }
    }

    /** The stop of the source did not get through. */
    method KeepSource(source: Mode, cancelled: bool, ghost orderly: bool)
      returns (exit: Exit, ended: Ended, ghost shutdown: bool)
      requires Valid() && !stray && mode == source && (source == Assistant || source == Subtitles)
      requires orderly ==> activeMeeting.None? && prepared.None? && (releases ==> Exclusive())
      modifies this`closing, this`revisionAtClose, this`interactionActive, this`subtitlesActive, this`meetingActive
      modifies this`stray, this`calls, this`failures, this`activeMeeting, this`prepared, this`mode, this`owner, this`revision
      modifies this`announced
      ensures Valid() && (old(closing) ==> closing)
      ensures exit != Untouched && exit != CommittedTarget && CommandStep(old(Shown()), exit, Shown())
      ensures shutdown == (cancelled && old(closing)) && (exit == Abandoned <==> stray || shutdown)
      ensures exit == Abandoned ==> owner == old(owner)
      ensures orderly && exit != Abandoned ==> Settled()
      ensures exit == RestoredSource ==> mode == source && SourceActive(source) && prepared == old(prepared)
      ensures ended != Returned && (ended == CancelledOut <==> exit == Abandoned || cancelled)
      ensures !cancelled ==> (exit == RestoredSource <==> ended == WorkloadError && old(SourceActive(source)))
      ensures old(failures) <= failures
      ensures old(calls) <= calls
    {
      shutdown := cancelled && closing;
      if cancelled {
        exit := RestoreAfterCancellation(source, orderly);
        ended := CancelledOut;
      } else {
        exit, ended := KeepAfterError(source, orderly);
      }
    }

    method StopSource(source: Mode)
      returns (exit: Exit, ended: Ended, ghost barrier: bool, ghost shutdown: bool, ghost halted: Outcome)
      requires Valid() && !stray && mode == source && (source == Assistant || source == Subtitles)
      modifies this`closing, this`revisionAtClose, this`interactionActive, this`subtitlesActive, this`meetingActive
      modifies this`stray, this`calls, this`failures, this`activeMeeting, this`prepared, this`mode, this`owner, this`revision
      modifies this`announced
      ensures Valid() && (old(closing) ==> closing)
      ensures exit != Untouched && Completed(exit)
      ensures exit == CommittedTarget ==> mode == Idle
      ensures ended == Returned ==> exit == CommittedTarget
      ensures exit == RestoredSource ==> mode == source && SourceActive(source) && prepared == old(prepared)
      ensures exit == Abandoned <==> stray || shutdown
      ensures shutdown ==> closing && ended == CancelledOut
      ensures old(owner == OwnerOf(mode)) ==> (owner != OwnerOf(mode) <==> exit == Abandoned && barrier)
      ensures ended == Returned ==> calls == old(calls) + [Told(NoPcm, true), Act(source, Stops, Ok), Told(NoPcm, true)]
      ensures failures == old(failures) && Has(source) ==> ended == Returned
      ensures old(failures) <= failures
      ensures barrier && Has(source) ==> old(calls) + [Told(NoPcm, true), Act(source, Stops, halted)] <= calls
      ensures !barrier ==> halted == Raised
      ensures ended == CancelledOut <==> exit == Abandoned || halted == Cancelled
    {
      var o := Raised;
      var held := SetBarrier();
      barrier, shutdown, halted := held, false, Raised;
      if held {
        o, halted := LeaveSource(source);
        if o == Ok {
          return CommittedTarget, Returned, barrier, false, halted;
        }
      }
      exit, ended, shutdown := KeepSource(source, o == Cancelled, old(Settled()));
    }

    /** A stuck arbiter refuses whatever command it gets, and stays stuck: only shutdown is left. */
    method AnyCommand(id: nat, ended: Option<nat>, captureDiffers: bool) returns (exit: Exit, how: Ended)
      requires Valid()
      modifies this
      ensures Valid() && Completed(exit)
      ensures old(Stuck()) ==> Stuck() && exit == Untouched && how != Returned && Shown() == old(Shown())
    {
      if * {
        exit, how := StartAssistant();
      } else if * {
        exit, how := StartSubtitles(captureDiffers);
      } else if * {
        exit, how := StartMeeting(id);
      } else if * {
        exit, how := RestartAssistant();
      } else if * {
        exit, how := EndMeeting(ended);
      } else {
        exit, how := StopActiveMode();
      }
    }

    /**
     Shutdown. The command in flight has been cancelled and awaited; if it ended with an error other than the
     cancellation, that error ends the shutdown as well, which is not tried a second time.
     */
    method Stop(inFlight: Outcome) returns (normal: bool)
      requires Valid() && (stopped ==> ShutDown())
      modifies this
      ensures Valid() && (closing || old(shutdownFailed))
      ensures normal ==> ShutDown()
      ensures normal && !old(stopped) && releases ==> !interactionActive && !subtitlesActive && !meetingActive
      ensures normal && !old(stopped) && old(revisionAtClose).None? ==> revision == old(revision) + 1
      ensures normal && !old(stopped) && old(revisionAtClose).Some? ==>
                revision == if old(mode == Idle && owner == NoPcm && revision > revisionAtClose.value) then old(revision)
                            else old(revision) + 1
      ensures !normal ==> stopped == old(stopped) && (stopped || shutdownFailed)
      ensures old(shutdownFailed && !stopped) ==> !normal && Shown() == old(Shown())
      ensures old(stopped) ==> normal && Shown() == old(Shown()) && calls == old(calls)
      ensures old(!stopped && !shutdownFailed) && inFlight == Raised ==> !normal && shutdownFailed && calls == old(calls)
      ensures normal && !old(stopped) ==> activeMeeting.None?
      ensures !normal && old(!shutdownFailed) ==> inFlight == Raised || failures > old(failures)
    {
      if stopped {
        return true;
      }
      if shutdownFailed {
        return false;
      }
      closing := true;
      if revisionAtClose.None? {
        revisionAtClose := Some(revision);
      }
      if inFlight == Raised {
        shutdownFailed := true;
        return false;
      }
      var before := revisionAtClose.value;
      var o := StopAll();
      if o == Cancelled {
        shutdownFailed := true;
        return false;
      }
      activeMeeting := None;
      if !(mode == Idle && owner == NoPcm && revision > before) {
        ForceCommitIdle();
      }
      stopped := true;
      return true;
    }

    predicate ShutDown()
      reads this
    {
      closing && stopped && mode == Idle && owner == NoPcm
    }
  }

  // ---------- runs of commands ----------

  datatype View = View(mode: Mode, owner: Owner, revision: nat, closing: bool, stopped: bool)

  /** The effect of one command on what the arbiter shows. */
  predicate CommandStep(a: View, exit: Exit, b: View) {
    && (a.closing ==> b.closing)
    && b.stopped == a.stopped
    && match exit
       case Untouched => b.mode == a.mode && b.owner == a.owner && b.revision == a.revision
       case CommittedTarget => b.owner == OwnerOf(b.mode) && b.revision == a.revision + 1
       case RestoredSource =>
         (b.mode == a.mode || b.mode == Idle) && b.owner == OwnerOf(b.mode) && b.revision == a.revision + 1
       case ForcedIdle => b.mode == Idle && b.owner == NoPcm && b.revision == a.revision + 1
       case Abandoned => b.mode == a.mode && (b.owner == a.owner || b.owner == NoPcm) && b.revision == a.revision
  }

  function Settlements(exits: seq<Exit>): nat {
    if exits == [] then 0
    else Settlements(exits[..|exits| - 1])
         + if exits[|exits| - 1] == Untouched || exits[|exits| - 1] == Abandoned then 0 else 1
  }

  /** From k on no command took effect. */
  predicate NoneSettles(exits: seq<Exit>, k: nat) {
    forall i :: k <= i < |exits| ==> exits[i] == Untouched || exits[i] == Abandoned
  }

  /** A command was abandoned, and none has taken effect since. */
  predicate LeftAbandoned(exits: seq<Exit>) {
    exists k: nat {:trigger exits[k]} :: k < |exits| && exits[k] == Abandoned && NoneSettles(exits, k)
  }

  /**
   Over any run of commands the revision counts the switches, ends and rollbacks that took effect, the owner
   is none or that of the mode, and it is exactly that of the mode again after the last one that took effect: it can
   differ only where a command was abandoned and none has taken effect since.
   */
  lemma {:induction false} RevisionCountsSettlements(views: seq<View>, exits: seq<Exit>)
    requires |views| == |exits| + 1 && views[0].owner == OwnerOf(views[0].mode)
    requires forall i :: 0 <= i < |exits| ==> CommandStep(views[i], exits[i], views[i + 1])
    ensures var end := views[|exits|];
            && end.revision == views[0].revision + Settlements(exits)
            && Safe(end.mode, end.owner)
            && (end.owner != OwnerOf(end.mode) ==> LeftAbandoned(exits))
  {
    if exits != [] {
      var n := |exits| - 1;
      RevisionCountsSettlements(views[..n + 1], exits[..n]);
      assert CommandStep(views[n], exits[n], views[n + 1]);
      if exits[n] == Abandoned {
        assert NoneSettles(exits, n);
      } else if exits[n] == Untouched && LeftAbandoned(exits[..n]) {
        var k: nat :| k < n && exits[..n][k] == Abandoned && NoneSettles(exits[..n], k);
        assert exits[k] == Abandoned;
        forall i | k <= i < |exits| ensures exits[i] == Untouched || exits[i] == Abandoned {
          if i < n { assert exits[..n][i] == exits[i]; }
        }
      }
    }
  }
}

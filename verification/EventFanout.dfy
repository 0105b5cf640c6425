/**
Event fan-out to browser clients: a gate that lets only contiguous revisions through, and one bounded queue per
client that turns a lost durable event into a request to resynchronise.

The log records what was broadcast, and where a cursor was seeded outside the queues. A queue item carries the
position of its broadcast in the log, which nothing but the statements below reads.
*/
module EventFanout {
  import opened Wrappers

  datatype Kind = MeetingSnapshot | TranscriptReconciled | SpeakerUpdated | ResyncRequired | OtherDurable | Volatile

  datatype Field = TranscriptRevision | ContentRevision

  datatype Reason = NoReason | RevisionGap(expected: int) | QueueOverflow(revision: Option<int>)

  /** inner is the id of the meeting in the payload; revisions holds the payload fields that are integers. */
  datatype Event = Event(kind: Kind, meeting: string, inner: string, revisions: map<Field, int>, reason: Reason)

  type Cursor = map<Field, int>

  datatype Verdict = Stale | Accepted | Gap(expected: int)

  datatype Entry = Broadcast(event: Event) | Observed(event: Event)

  datatype Item = Item(event: Event, at: nat)

  datatype Client = Client(size: nat, queue: seq<Item>, closed: bool, received: seq<Item>, joined: nat)

  type ClientId = nat

  datatype State = State(
    cursors: map<string, Cursor>,
    latest: Option<Event>,
    clients: map<ClientId, Client>,
    log: seq<Entry>)

  predicate IsDurable(k: Kind) {
    k != MeetingSnapshot && k != Volatile
  }

  // ---------- the revision gate ----------

  function FieldsOf(k: Kind): seq<Field> {
    match k
    case TranscriptReconciled => [TranscriptRevision, ContentRevision]
    case SpeakerUpdated => [ContentRevision]
    case _ => []
  }

  function Incoming(e: Event): map<Field, int> {
    map f | f in e.revisions && f in FieldsOf(e.kind) :: e.revisions[f]
  }

  function CursorOf(cursors: map<string, Cursor>, meeting: string): Cursor {
    if meeting in cursors then cursors[meeting] else map[]
  }

  predicate Jumps(c: Cursor, e: Event, f: Field) {
    f in Incoming(e) && f in c && Incoming(e)[f] > c[f] + 1
  }

  predicate Lags(c: Cursor, e: Event, f: Field) {
    f in Incoming(e) && f in c && Incoming(e)[f] < c[f]
  }

  /** A jump in any field asks for a resync; else an old value in any field drops the event. */
  function Judge(c: Cursor, e: Event): Verdict {
    if Jumps(c, e, TranscriptRevision) then Gap(c[TranscriptRevision] + 1)
    else if Jumps(c, e, ContentRevision) then Gap(c[ContentRevision] + 1)
    else if Lags(c, e, TranscriptRevision) || Lags(c, e, ContentRevision) then Stale
    else Accepted
  }

  function SeedTarget(e: Event): string {
    if e.meeting != "" then e.meeting else e.inner
  }

  /** What an event writes into the cursor of a meeting. */
  function Assigned(e: Event, meeting: string): map<Field, int> {
    if e.kind == MeetingSnapshot then (if meeting != "" && SeedTarget(e) == meeting then e.revisions else map[])
    else if e.meeting == meeting then Incoming(e) else map[]
  }

  function Seeded(cursors: map<string, Cursor>, e: Event): map<string, Cursor> {
    if SeedTarget(e) == "" then cursors
    else cursors[SeedTarget(e) := CursorOf(cursors, SeedTarget(e)) + e.revisions]
  }

  function Named(meeting: string): string {
    if meeting == "" then "unknown" else meeting
  }

  function GapNotice(e: Event, expected: int): Event {
    Event(ResyncRequired, Named(e.meeting), "", map[], RevisionGap(expected))
  }

  /** The cursors after the gate, and what is broadcast, if anything is. */
  function Gate(cursors: map<string, Cursor>, e: Event): (map<string, Cursor>, Option<Event>) {
    if e.kind == MeetingSnapshot then (Seeded(cursors, e), Some(e))
    else if Incoming(e) == map[] then (cursors, Some(e))
    else
      var c := CursorOf(cursors, e.meeting);
      match Judge(c, e)
      case Gap(expected) => (cursors[e.meeting := c], Some(GapNotice(e, expected)))
      case Stale => (cursors[e.meeting := c], None)
      case Accepted => (cursors[e.meeting := c + Incoming(e)], Some(e))
  }

  // ---------- the queues ----------

  /** The revision an overflow notice asks for: the first of the two fields that is there and not zero. */
  function RevisionHint(e: Event): Option<int> {
    if TranscriptRevision in e.revisions && e.revisions[TranscriptRevision] != 0 then Some(e.revisions[TranscriptRevision])
    else if ContentRevision in e.revisions then Some(e.revisions[ContentRevision])
    else None
  }

  function OverflowNotice(e: Event): Event {
    Event(ResyncRequired, e.meeting, "", map[], QueueOverflow(RevisionHint(e)))
  }

  function Enqueue(c: Client, e: Event, at: nat): Client {
    if |c.queue| < c.size then c.(queue := c.queue + [Item(e, at)])
    else if !IsDurable(e.kind) then c
    else if e.kind == ResyncRequired then c.(queue := [Item(e, at)])
    else c.(queue := [Item(OverflowNotice(e), at)])
  }

  function Delivered(s: State, e: Event): State {
    s.(latest := if e.kind == ResyncRequired then s.latest else Some(e),
       clients := map id | id in s.clients && !s.clients[id].closed :: Enqueue(s.clients[id], e, |s.log|),
       log := s.log + [Broadcast(e)])
  }

  function Publish(s: State, e: Event): State {
    var (cursors, sent) := Gate(s.cursors, e);
    var t := s.(cursors := cursors);
    if sent.None? then t else Delivered(t, sent.value)
  }

  function Max(a: int, b: int): int { if a >= b then a else b }

  datatype Step =
    | PublishEvent(event: Event)
    | ObserveSnapshot(event: Event)
    | AddClient(id: ClientId, size: int)
    | Receive(id: ClientId)
    | CloseClient(id: ClientId)
    | RemoveClient(id: ClientId)

  predicate Enabled(s: State, step: Step) {
    match step
    case ObserveSnapshot(e) => e.kind == MeetingSnapshot
    case AddClient(id, _) => id !in s.clients
    case Receive(id) => id in s.clients && s.clients[id].queue != []
    case CloseClient(id) => id in s.clients
    case _ => true
  }

  function Next(s: State, step: Step): State
    requires Enabled(s, step)
  {
    match step
    case PublishEvent(e) => Publish(s, e)
    case ObserveSnapshot(e) => s.(cursors := Seeded(s.cursors, e), log := s.log + [Observed(e)])
    case AddClient(id, size) => s.(clients := s.clients[id := Client(Max(1, size), [], false, [], |s.log|)])
    case Receive(id) =>
      var c := s.clients[id];
      s.(clients := s.clients[id := c.(queue := c.queue[1..], received := c.received + [c.queue[0]])])
    case CloseClient(id) => s.(clients := s.clients[id := s.clients[id].(closed := true, queue := [])])
    case RemoveClient(id) => s.(clients := map i | i in s.clients && i != id :: s.clients[i])
  }

  // ---------- the gate over a run ----------

  /** The value the log last assigned to a field of a meeting. */
  function LastValue(log: seq<Entry>, meeting: string, f: Field): Option<int> {
    if log == [] then None
    else
      var a := Assigned(log[|log| - 1].event, meeting);
      if f in a then Some(a[f]) else LastValue(log[..|log| - 1], meeting, f)
  }

  /** The cursors say what the log last assigned. */
  ghost predicate CursorsFollow(s: State) {
    forall m, f ::
      LastValue(s.log, m, f) == if f in CursorOf(s.cursors, m) then Some(CursorOf(s.cursors, m)[f]) else None
  }

  predicate IsRevision(entry: Entry) {
    entry.Broadcast? && FieldsOf(entry.event.kind) != []
  }

  /** Each revision broadcast repeats the last value of its field, or is the next one, unless it is the first. */
  ghost predicate Contiguous(log: seq<Entry>) {
    forall j, f :: 0 <= j < |log| && IsRevision(log[j]) && f in Incoming(log[j].event) ==>
      var last := LastValue(log[..j], log[j].event.meeting, f);
      last.None? || last.value <= Incoming(log[j].event)[f] <= last.value + 1
  }

  lemma AppendKeepsContiguous(log: seq<Entry>, entry: Entry)
    requires Contiguous(log)
    requires forall f :: IsRevision(entry) && f in Incoming(entry.event) ==>
               var last := LastValue(log, entry.event.meeting, f);
               last.None? || last.value <= Incoming(entry.event)[f] <= last.value + 1
    ensures Contiguous(log + [entry])
  {
    var t := log + [entry];
    forall j, f | 0 <= j < |t| && IsRevision(t[j]) && f in Incoming(t[j].event)
      ensures var last := LastValue(t[..j], t[j].event.meeting, f);
              last.None? || last.value <= Incoming(t[j].event)[f] <= last.value + 1
    {
      if j == |log| {
        assert t[..j] == log;
      } else {
        assert t[..j] == log[..j] && t[j] == log[j];
      }
    }
  }

  lemma AppendAssigns(log: seq<Entry>, entry: Entry, m: string, f: Field)
    ensures LastValue(log + [entry], m, f)
            == if f in Assigned(entry.event, m) then Some(Assigned(entry.event, m)[f]) else LastValue(log, m, f)
  {
    assert (log + [entry])[..|log|] == log;
  }

  /** The gate moves the cursors by exactly what it lets out. */
  lemma GateAssigns(cursors: map<string, Cursor>, e: Event, m: string)
    ensures var (after, sent) := Gate(cursors, e);
            CursorOf(after, m) == CursorOf(cursors, m) + if sent.Some? then Assigned(sent.value, m) else map[]
  {
    var (after, sent) := Gate(cursors, e);
    if e.kind != MeetingSnapshot && Incoming(e) != map[] {
      match Judge(CursorOf(cursors, e.meeting), e)
      case Gap(expected) => assert Assigned(GapNotice(e, expected), m) == map[];
      case _ =>
    }
  }

  lemma GateBounds(cursors: map<string, Cursor>, e: Event, f: Field)
    requires var (_, sent) := Gate(cursors, e); sent.Some? && f in Incoming(sent.value)
    ensures var sent := Gate(cursors, e).1.value; var c := CursorOf(cursors, sent.meeting);
            f in c ==> c[f] <= Incoming(sent)[f] <= c[f] + 1
  {
    assert f == TranscriptRevision || f == ContentRevision;
  }

  lemma PublishKeepsGate(s: State, e: Event)
    requires CursorsFollow(s) && Contiguous(s.log)
    ensures CursorsFollow(Publish(s, e)) && Contiguous(Publish(s, e).log)
  {
    var (cursors, sent) := Gate(s.cursors, e);
    if sent.Some? {
      var entry := Broadcast(sent.value);
      forall m, f ensures LastValue(s.log + [entry], m, f)
                          == if f in CursorOf(cursors, m) then Some(CursorOf(cursors, m)[f]) else None {
        AppendAssigns(s.log, entry, m, f);
        GateAssigns(s.cursors, e, m);
      }
      forall f | IsRevision(entry) && f in Incoming(entry.event)
        ensures var last := LastValue(s.log, entry.event.meeting, f);
                last.None? || last.value <= Incoming(entry.event)[f] <= last.value + 1
      {
        GateBounds(s.cursors, e, f);
      }
      AppendKeepsContiguous(s.log, entry);
    } else {
      forall m ensures CursorOf(cursors, m) == CursorOf(s.cursors, m) { GateAssigns(s.cursors, e, m); }
    }
  }

  lemma StepKeepsGate(s: State, step: Step)
    requires CursorsFollow(s) && Contiguous(s.log) && Enabled(s, step)
    ensures CursorsFollow(Next(s, step)) && Contiguous(Next(s, step).log)
  {
    match step
    case PublishEvent(e) => PublishKeepsGate(s, e);
    case ObserveSnapshot(e) =>
      var t := Next(s, step);
      forall m, f ensures LastValue(t.log, m, f)
                          == if f in CursorOf(t.cursors, m) then Some(CursorOf(t.cursors, m)[f]) else None {
        AppendAssigns(s.log, Observed(e), m, f);
      }
      AppendKeepsContiguous(s.log, Observed(e));
    case _ =>
  }

  // ---------- what a client sees ----------

  function SeenBy(c: Client): seq<Item> {
    c.received + c.queue
  }

  predicate DurableAt(log: seq<Entry>, k: int) {
    0 <= k < |log| && log[k].Broadcast? && IsDurable(log[k].event.kind)
  }

  /** The item is the broadcast itself, or a resync request in its place. */
  predicate Genuine(log: seq<Entry>, i: Item) {
    && i.at < |log| && log[i.at].Broadcast?
    && (i.event == log[i.at].event || (i.event.kind == ResyncRequired && IsDurable(log[i.at].event.kind)))
  }

  /** Where the n-th item has to account for everything durable from. */
  function From(seen: seq<Item>, joined: nat, n: nat): nat
    requires n <= |seen|
  {
    if n == 0 then joined else seen[n - 1].at + 1
  }

  ghost predicate NoDurable(log: seq<Entry>, lo: nat, hi: nat) {
    forall k :: lo <= k < hi ==> !DurableAt(log, k)
  }

  /** The n-th item is genuine, follows the one before, and only a resync request stands for missing durable ones. */
  ghost predicate Follows(seen: seq<Item>, joined: nat, log: seq<Entry>, n: nat)
    requires n < |seen|
  {
    && Genuine(log, seen[n]) && From(seen, joined, n) <= seen[n].at
    && (seen[n].event.kind == ResyncRequired || NoDurable(log, From(seen, joined, n), seen[n].at))
  }

  ghost predicate Tracks(seen: seq<Item>, joined: nat, log: seq<Entry>) {
    && joined <= |log|
    && (forall n {:trigger Follows(seen, joined, log, n)} :: 0 <= n < |seen| ==> Follows(seen, joined, log, n))
    && NoDurable(log, From(seen, joined, |seen|), |log|)
  }

  ghost predicate Informed(c: Client, log: seq<Entry>) {
    |c.queue| <= c.size && c.size >= 1 && Tracks(SeenBy(c), c.joined, log)
  }

  /** A client that is shown nothing of an entry that is not a durable broadcast stays informed. */
  lemma SkippingStaysInformed(c: Client, log: seq<Entry>, entry: Entry)
    requires Informed(c, log) && !(entry.Broadcast? && IsDurable(entry.event.kind))
    ensures Informed(c, log + [entry])
  {
    var t, seen := log + [entry], SeenBy(c);
    assert forall k :: DurableAt(t, k) <==> DurableAt(log, k);
    forall n | 0 <= n < |seen| ensures Follows(seen, c.joined, t, n) {
      assert Follows(seen, c.joined, log, n);
    }
  }

  /** A prefix of what was seen, and behind it the new broadcast or a resync request for all that is missing. */
  lemma ExtendingTracks(seen: seq<Item>, joined: nat, log: seq<Entry>, kept: nat, entry: Entry, e: Event)
    requires Tracks(seen, joined, log) && kept <= |seen| && entry.Broadcast?
    requires Genuine(log + [entry], Item(e, |log|)) && (kept == |seen| || e.kind == ResyncRequired)
    ensures Tracks(seen[..kept] + [Item(e, |log|)], joined, log + [entry])
  {
    var t, d := log + [entry], seen[..kept] + [Item(e, |log|)];
    assert forall k :: k != |log| ==> (DurableAt(t, k) <==> DurableAt(log, k));
    forall n | 0 <= n < |d| ensures Follows(d, joined, t, n) {
      assert From(d, joined, n) == From(seen, joined, n);
      if n < kept {
        assert d[n] == seen[n] && Follows(seen, joined, log, n);
      } else if kept > 0 {
        assert Follows(seen, joined, log, kept - 1);
      }
    }
  }

  lemma EnqueueStaysInformed(c: Client, log: seq<Entry>, e: Event)
    requires Informed(c, log)
    ensures Informed(Enqueue(c, e, |log|), log + [Broadcast(e)])
  {
    var d, seen := Enqueue(c, e, |log|), SeenBy(c);
    if |c.queue| < c.size {
      ExtendingTracks(seen, c.joined, log, |seen|, Broadcast(e), e);
      assert SeenBy(d) == seen[..|seen|] + [Item(e, |log|)];
    } else if !IsDurable(e.kind) {
      SkippingStaysInformed(c, log, Broadcast(e));
    } else {
      ExtendingTracks(seen, c.joined, log, |c.received|, Broadcast(e), d.queue[0].event);
      assert SeenBy(d) == seen[..|c.received|] + [d.queue[0]];
    }
  }

  ghost predicate Inv(s: State) {
    && CursorsFollow(s) && Contiguous(s.log)
    && (forall k :: 0 <= k < |s.log| && s.log[k].Observed? ==> s.log[k].event.kind == MeetingSnapshot)
    && forall id :: id in s.clients && !s.clients[id].closed ==> Informed(s.clients[id], s.log)
  }

  predicate Initial(s: State) {
    s == State(map[], None, map[], [])
  }

  lemma StepKeepsInformed(s: State, step: Step, id: ClientId)
    requires Inv(s) && Enabled(s, step)
    requires id in Next(s, step).clients && !Next(s, step).clients[id].closed
    ensures Informed(Next(s, step).clients[id], Next(s, step).log)
  {
    match step
    case PublishEvent(e) =>
      var sent := Gate(s.cursors, e).1;
      if sent.Some? { EnqueueStaysInformed(s.clients[id], s.log, sent.value); }
    case ObserveSnapshot(e) => SkippingStaysInformed(s.clients[id], s.log, Observed(e));
    case Receive(r) =>
      if r == id {
        var c, d := s.clients[id], Next(s, step).clients[id];
        assert SeenBy(d) == SeenBy(c);
      }
    case _ =>
  }

  lemma StepKeepsInv(s: State, step: Step)
    requires Inv(s) && Enabled(s, step)
    ensures Inv(Next(s, step))
  {
    StepKeepsGate(s, step);
    forall id | id in Next(s, step).clients && !Next(s, step).clients[id].closed
      ensures Informed(Next(s, step).clients[id], Next(s, step).log)
    {
      StepKeepsInformed(s, step, id);
    }
  }

  function Run(s: State, steps: seq<Step>): Option<State> {
    if steps == [] then Some(s)
    else
      match Run(s, steps[..|steps| - 1])
      case None => None
      case Some(t) => if Enabled(t, steps[|steps| - 1]) then Some(Next(t, steps[|steps| - 1])) else None
  }

  lemma {:induction false} RunKeepsInv(s: State, steps: seq<Step>)
    requires Inv(s) && Run(s, steps).Some?
    ensures Inv(Run(s, steps).value)
  {
    if steps != [] {
      RunKeepsInv(s, steps[..|steps| - 1]);
      StepKeepsInv(Run(s, steps[..|steps| - 1]).value, steps[|steps| - 1]);
    }
  }

  // ---------- end to end ----------

  predicate NoResync(seen: seq<Item>, a: int, b: int)
    requires 0 <= a <= b <= |seen|
  {
    forall n :: a <= n < b ==> seen[n].event.kind != ResyncRequired
  }

  lemma {:induction false} SeenAreOrdered(seen: seq<Item>, joined: nat, log: seq<Entry>, a: nat, b: nat)
    requires Tracks(seen, joined, log) && a < b < |seen|
    ensures seen[a].at < seen[b].at
    decreases b
  {
    assert Follows(seen, joined, log, b);
    if a < b - 1 { SeenAreOrdered(seen, joined, log, a, b - 1); }
  }

  /** Between two items with no resync request after the first, every durable broadcast was seen. */
  lemma {:induction false} DurableBetweenIsSeen(seen: seq<Item>, joined: nat, log: seq<Entry>, a: nat, b: nat, k: nat)
    returns (n: nat)
    requires Tracks(seen, joined, log) && a < b < |seen| && NoResync(seen, a + 1, b + 1)
    requires DurableAt(log, k) && seen[a].at < k <= seen[b].at
    ensures a < n <= b && seen[n] == Item(log[k].event, k)
    decreases b
  {
    assert Follows(seen, joined, log, b);
    if k == seen[b].at {
      n := b;
    } else {
      assert k < From(seen, joined, b);
      n := DurableBetweenIsSeen(seen, joined, log, a, b - 1, k);
    }
  }

  /** No entry strictly between the two positions assigns the field of the meeting. */
  predicate Untouched(log: seq<Entry>, lo: nat, hi: nat, m: string, f: Field)
    requires hi <= |log|
  {
    forall k :: lo < k < hi ==> f !in Assigned(log[k].event, m)
  }

  lemma {:induction false} UntouchedKeepsValue(log: seq<Entry>, lo: nat, hi: nat, m: string, f: Field)
    requires lo < hi <= |log| && Untouched(log, lo, hi, m, f) && f in Assigned(log[lo].event, m)
    ensures LastValue(log[..hi], m, f) == Some(Assigned(log[lo].event, m)[f])
    decreases hi
  {
    assert log[..hi][..hi - 1] == log[..hi - 1];
    if lo < hi - 1 { UntouchedKeepsValue(log, lo, hi - 1, m, f); }
  }

  /** No snapshot touched the field of the meeting strictly between the two positions. */
  predicate NoSeed(log: seq<Entry>, lo: nat, hi: nat, m: string, f: Field)
    requires hi <= |log|
  {
    forall k :: lo < k < hi && log[k].event.kind == MeetingSnapshot ==> f !in Assigned(log[k].event, m)
  }

  /** Two items with neither a resync request nor another value of the field between them, in what the client sees. */
  predicate Successive(seen: seq<Item>, a: nat, b: nat, m: string, f: Field)
    requires a < b < |seen|
  {
    && NoResync(seen, a, b + 1)
    && seen[a].event.meeting == m == seen[b].event.meeting
    && f in Incoming(seen[a].event) && f in Incoming(seen[b].event)
    && forall n :: a < n < b && seen[n].event.meeting == m ==> f !in Incoming(seen[n].event)
  }

  lemma NothingBetween(seen: seq<Item>, joined: nat, log: seq<Entry>, a: nat, b: nat, m: string, f: Field, k: nat)
    requires Tracks(seen, joined, log) && a < b < |seen| && Successive(seen, a, b, m, f)
    requires seen[a].at < k < seen[b].at && seen[b].at < |log| && NoSeed(log, seen[a].at, seen[b].at, m, f)
    requires log[k].Observed? ==> log[k].event.kind == MeetingSnapshot
    ensures f !in Assigned(log[k].event, m)
  {
    if f in Assigned(log[k].event, m) {
      assert DurableAt(log, k);
      var n := DurableBetweenIsSeen(seen, joined, log, a, b, k);
    }
  }

  lemma SuccessiveAreContiguous(seen: seq<Item>, joined: nat, log: seq<Entry>, a: nat, b: nat, m: string, f: Field)
    requires Tracks(seen, joined, log) && Contiguous(log) && a < b < |seen| && Successive(seen, a, b, m, f)
    requires forall k :: 0 <= k < |log| && log[k].Observed? ==> log[k].event.kind == MeetingSnapshot
    requires seen[b].at <= |log| && NoSeed(log, seen[a].at, seen[b].at, m, f)
    ensures Incoming(seen[a].event)[f] <= Incoming(seen[b].event)[f] <= Incoming(seen[a].event)[f] + 1
  {
    assert Follows(seen, joined, log, a) && Follows(seen, joined, log, b);
    assert Genuine(log, seen[a]) && Genuine(log, seen[b]);
    SeenAreOrdered(seen, joined, log, a, b);
    forall k | seen[a].at < k < seen[b].at ensures f !in Assigned(log[k].event, m) {
      NothingBetween(seen, joined, log, a, b, m, f, k);
    }
    UntouchedKeepsValue(log, seen[a].at, seen[b].at, m, f);
    assert IsRevision(log[seen[b].at]);
  }

  /**
  A client that sees two revisions of a meeting in a row, with no resync request after the first, sees the same
  revision again or the next one: a revision is never skipped silently, by the gate or by its own queue.
  */
  lemma SeenRevisionsAreContiguous(steps: seq<Step>, s: State, id: ClientId, a: nat, b: nat, m: string, f: Field)
    requires Run(State(map[], None, map[], []), steps) == Some(s)
    requires id in s.clients && !s.clients[id].closed
    requires a < b < |SeenBy(s.clients[id])| && Successive(SeenBy(s.clients[id]), a, b, m, f)
    requires var seen := SeenBy(s.clients[id]);
             seen[b].at <= |s.log| && NoSeed(s.log, seen[a].at, seen[b].at, m, f)
    ensures var seen := SeenBy(s.clients[id]);
            Incoming(seen[a].event)[f] <= Incoming(seen[b].event)[f] <= Incoming(seen[a].event)[f] + 1
  {
    var start := State(map[], None, map[], []);
    assert Inv(start);
    RunKeepsInv(start, steps);
    SuccessiveAreContiguous(SeenBy(s.clients[id]), s.clients[id].joined, s.log, a, b, m, f);
  }

  lemma InformedAfterResync(c: Client, log: seq<Entry>, r: nat, k: nat) returns (n: nat)
    requires Informed(c, log) && r < |SeenBy(c)| && NoResync(SeenBy(c), r + 1, |SeenBy(c)|)
    requires DurableAt(log, k) && SeenBy(c)[r].at < k
    ensures r < n < |SeenBy(c)| && SeenBy(c)[n] == Item(log[k].event, k)
  {
    var seen := SeenBy(c);
    assert k < From(seen, c.joined, |seen|);
    n := DurableBetweenIsSeen(seen, c.joined, log, r, |seen| - 1, k);
  }

  /** After the last resync request it has seen, a client lacks no durable broadcast at all. */
  lemma LastResyncCompletes(steps: seq<Step>, s: State, id: ClientId, r: nat, k: nat)
    requires Run(State(map[], None, map[], []), steps) == Some(s)
    requires id in s.clients && !s.clients[id].closed
    requires r < |SeenBy(s.clients[id])| && NoResync(SeenBy(s.clients[id]), r + 1, |SeenBy(s.clients[id])|)
    requires DurableAt(s.log, k) && SeenBy(s.clients[id])[r].at < k
    ensures exists n :: r < n < |SeenBy(s.clients[id])| && SeenBy(s.clients[id])[n] == Item(s.log[k].event, k)
  {
    var start := State(map[], None, map[], []);
    assert Inv(start);
    RunKeepsInv(start, steps);
    var n := InformedAfterResync(s.clients[id], s.log, r, k);
  }

  // ---------- what each publish and each snapshot does ----------

  /** The revision of the event in this field, where its kind is gated by the field. */
  function Carried(e: Event, f: Field): Option<int> {
    if f in e.revisions && (e.kind == TranscriptReconciled || (e.kind == SpeakerUpdated && f == ContentRevision)) then
      Some(e.revisions[f])
    else None
  }

  /** The field lies more than one ahead of what was last broadcast or seeded for the meeting. */
  predicate Ahead(log: seq<Entry>, e: Event, f: Field) {
    Carried(e, f).Some? && LastValue(log, e.meeting, f).Some?
    && Carried(e, f).value > LastValue(log, e.meeting, f).value + 1
  }

  predicate Behind(log: seq<Entry>, e: Event, f: Field) {
    Carried(e, f).Some? && LastValue(log, e.meeting, f).Some?
    && Carried(e, f).value < LastValue(log, e.meeting, f).value
  }

  /** What a publish puts on the log, told by what the log says was broadcast before. */
  function Verdicts(log: seq<Entry>, e: Event): Option<Event> {
    if Ahead(log, e, TranscriptRevision) then Some(ResyncFor(e, LastValue(log, e.meeting, TranscriptRevision).value + 1))
    else if Ahead(log, e, ContentRevision) then Some(ResyncFor(e, LastValue(log, e.meeting, ContentRevision).value + 1))
    else if Behind(log, e, TranscriptRevision) || Behind(log, e, ContentRevision) then None
    else Some(e)
  }

  function ResyncFor(e: Event, expected: int): Event {
    Event(ResyncRequired, if e.meeting != "" then e.meeting else "unknown", "", map[], RevisionGap(expected))
  }

  /** The queue of an open client behind one event. */
  function QueueAfter(c: Client, e: Event, at: nat): seq<Item> {
    if |c.queue| < c.size then c.queue + [Item(e, at)]
    else if e.kind == Volatile || e.kind == MeetingSnapshot then c.queue
    else if e.kind == ResyncRequired then [Item(e, at)]
    else [Item(Event(ResyncRequired, e.meeting, "", map[], QueueOverflow(OrElse(e))), at)]
  }

  /** The transcript revision, unless there is none or it is zero; else the content revision. */
  function OrElse(e: Event): Option<int> {
    var transcript := if TranscriptRevision in e.revisions then e.revisions[TranscriptRevision] else 0;
    if transcript != 0 then Some(transcript)
    else if ContentRevision in e.revisions then Some(e.revisions[ContentRevision])
    else None
  }

  lemma IncomingIsCarried(e: Event, f: Field)
    ensures f in Incoming(e) <==> Carried(e, f).Some?
    ensures f in Incoming(e) ==> Incoming(e)[f] == Carried(e, f).value
  {
  }

  lemma GateFollowsLog(s: State, e: Event)
    requires CursorsFollow(s)
    ensures Gate(s.cursors, e).1 == Verdicts(s.log, e)
  {
    forall f ensures (f in Incoming(e) <==> Carried(e, f).Some?)
                     && (Jumps(CursorOf(s.cursors, e.meeting), e, f) <==> Ahead(s.log, e, f))
                     && (Lags(CursorOf(s.cursors, e.meeting), e, f) <==> Behind(s.log, e, f))
    {
      IncomingIsCarried(e, f);
      assert LastValue(s.log, e.meeting, f)
             == if f in CursorOf(s.cursors, e.meeting) then Some(CursorOf(s.cursors, e.meeting)[f]) else None;
    }
    if Incoming(e) == map[] {
      assert TranscriptRevision !in Incoming(e) && ContentRevision !in Incoming(e);
    }
  }

  /**
  A publish in any reachable state. The event goes out exactly when each revision it carries repeats or follows the last
  one broadcast or seeded for its meeting; a jump goes out as a resync request for the revision that was missed, the
  transcript's before the content's; an old revision goes out not at all. What goes out reaches every open client, in its
  queue, as the one request in place of a full queue, or, where it is not durable, not; closed clients are dropped, and
  anything but a resync request becomes the latest event.
  */
  lemma PublishedIffContiguous(steps: seq<Step>, s: State, e: Event)
    requires Run(State(map[], None, map[], []), steps) == Some(s)
    ensures var t := Next(s, PublishEvent(e));
            match Verdicts(s.log, e)
            case None => t.log == s.log && t.clients == s.clients && t.latest == s.latest
            case Some(sent) =>
              && t.log == s.log + [Broadcast(sent)]
              && t.latest == (if sent.kind == ResyncRequired then s.latest else Some(sent))
              && (forall id :: id in t.clients <==> id in s.clients && !s.clients[id].closed)
              && forall id :: id in t.clients ==>
                   t.clients[id] == s.clients[id].(queue := QueueAfter(s.clients[id], sent, |s.log|))
  {
    var start := State(map[], None, map[], []);
    assert Inv(start);
    RunKeepsInv(start, steps);
    GateFollowsLog(s, e);
  }

  /** The meeting a snapshot is of: named by the event, or else by its payload. */
  predicate SnapshotOf(e: Event, meeting: string) {
    meeting != "" && (e.meeting == meeting || (e.meeting == "" && e.inner == meeting))
  }

  /** A snapshot, observed or broadcast, sets exactly the values it carries for its meeting, be they lower or higher. */
  lemma SnapshotSeeds(log: seq<Entry>, e: Event, meeting: string, f: Field)
    requires e.kind == MeetingSnapshot
    ensures forall entry :: entry == Observed(e) || entry == Broadcast(e) ==>
              LastValue(log + [entry], meeting, f)
              == if SnapshotOf(e, meeting) && f in e.revisions then Some(e.revisions[f]) else LastValue(log, meeting, f)
  {
    AppendAssigns(log, Observed(e), meeting, f);
    AppendAssigns(log, Broadcast(e), meeting, f);
  }

  // ---------- the broadcaster ----------

  class MeetingEventBroadcaster {
    var cursors: map<string, Cursor>
    var latest: Option<Event>
    var clients: map<ClientId, Client>
    var log: seq<Entry>

    ghost function View(): State
      reads this
    {
      State(cursors, latest, clients, log)
    }

    constructor ()
      ensures Initial(View()) && Inv(View())
    {
      cursors, latest, clients, log := map[], None, map[], [];
    }

    /** The event to broadcast, if any: the event itself, or a resync request in its place. */
    method AcceptRevisionEvent(e: Event) returns (sent: Option<Event>)
      modifies this`cursors
      ensures (cursors, sent) == Gate(old(cursors), e)
    {
      if e.kind == MeetingSnapshot {
        cursors := Seeded(cursors, e);
        return Some(e);
      }
      var incoming := Incoming(e);
      if incoming == map[] {
        return Some(e);
      }
      var cursor := CursorOf(cursors, e.meeting);
      var fields, i, stale := FieldsOf(e.kind), 0, false;
      var expected: Option<int> := None;
      while i < |fields| && expected.None?
        invariant 0 <= i <= |fields|
        invariant expected.None? ==> forall k :: 0 <= k < i ==> !Jumps(cursor, e, fields[k])
        invariant stale <==> exists k :: 0 <= k < i && Lags(cursor, e, fields[k])
        invariant expected.Some? ==>
                    i > 0 && Jumps(cursor, e, fields[i - 1]) && expected.value == cursor[fields[i - 1]] + 1
                    && forall k :: 0 <= k < i - 1 ==> !Jumps(cursor, e, fields[k])
      {
        var f := fields[i];
        if f in incoming && f in cursor {
          if incoming[f] > cursor[f] + 1 {
            expected := Some(cursor[f] + 1);
          } else if incoming[f] < cursor[f] {
            stale := true;
          }
        }
        i := i + 1;
      }
      assert fields == [TranscriptRevision, ContentRevision] || fields == [ContentRevision];
      assert fields == [ContentRevision] ==> TranscriptRevision !in incoming;
      if expected.Some? {
        cursors := cursors[e.meeting := cursor];
        return Some(GapNotice(e, expected.value));
      }
      assert i == |fields|;
      assert fields[|fields| - 1] == ContentRevision;
      assert stale <==> Lags(cursor, e, TranscriptRevision) || Lags(cursor, e, ContentRevision);
      if stale {
        cursors := cursors[e.meeting := cursor];
        return None;
      }
      cursors := cursors[e.meeting := cursor + incoming];
      sent := Some(e);
    }

    method EnqueueFor(c: Client, e: Event, at: nat) returns (d: Client)
      ensures d == Enqueue(c, e, at)
    {
      if |c.queue| < c.size {
        return c.(queue := c.queue + [Item(e, at)]);
      }
      if !IsDurable(e.kind) {
        return c;
      }
      var item := Item(if e.kind == ResyncRequired then e else OverflowNotice(e), at);
      d := c.(queue := [item]);
    }

    /** Hand the event to every client; clients found closed are dropped. */
    method DeliverToAll(e: Event, at: nat)
      modifies this`clients
      ensures clients == map id | id in old(clients) && !old(clients)[id].closed :: Enqueue(old(clients)[id], e, at)
    {
      var todo := clients.Keys;
      while todo != {}
        invariant todo <= clients.Keys <= old(clients).Keys
        invariant forall id :: id in todo ==> clients[id] == old(clients)[id]
        invariant forall id :: id in old(clients) && id !in todo ==> (id in clients <==> !old(clients)[id].closed)
        invariant forall id :: id in clients && id !in todo ==> clients[id] == Enqueue(old(clients)[id], e, at)
        decreases todo
      {
        var id :| id in todo;
        todo := todo - {id};
        if clients[id].closed {
          clients := clients - {id};
        } else {
          var d := EnqueueFor(clients[id], e, at);
          clients := clients[id := d];
        }
      }
    }

    method PublishEvent(e: Event)
      modifies this
      ensures View() == Next(old(View()), Step.PublishEvent(e))
    {
      var sent := AcceptRevisionEvent(e);
      if sent.None? {
        return;
      }
      if sent.value.kind != ResyncRequired {
        latest := sent;
      }
      DeliverToAll(sent.value, |log|);
      log := log + [Broadcast(sent.value)];
    }

    /** A snapshot that is sent outside the queues; false where the event is no snapshot. */
    method ObserveSnapshot(e: Event) returns (ok: bool)
      modifies this
      ensures ok <==> e.kind == MeetingSnapshot
      ensures View() == (if ok then Next(old(View()), Step.ObserveSnapshot(e)) else old(View()))
    {
      if e.kind != MeetingSnapshot {
        return false;
      }
      cursors := Seeded(cursors, e);
      log := log + [Observed(e)];
      ok := true;
    }

    method AddClient(id: ClientId, size: int)
      requires id !in clients
      modifies this
      ensures View() == Next(old(View()), Step.AddClient(id, size))
      ensures clients == old(clients)[id := Client(if size < 1 then 1 else size, [], false, [], |log|)]
    {
      clients := clients[id := Client(Max(1, size), [], false, [], |log|)];
    }

    /** The next event of the queue; None where the client is closed, which is the cancellation. */
    method ReceiveNext(id: ClientId) returns (event: Option<Event>)
      requires id in clients && (clients[id].closed || clients[id].queue != [])
      modifies this
      ensures old(clients[id].queue) == [] ==> event == None && View() == old(View())
      ensures old(clients[id].queue) != [] ==>
                event == Some(old(clients[id].queue[0].event)) && View() == Next(old(View()), Receive(id))
    {
      var c := clients[id];
      if c.closed && c.queue == [] {
        return None;
      }
      event := Some(c.queue[0].event);
      clients := clients[id := c.(queue := c.queue[1..], received := c.received + [c.queue[0]])];
    }

    method RemoveClient(id: ClientId)
      modifies this
      ensures View() == Next(old(View()), Step.RemoveClient(id)) && clients == old(clients) - {id}
    {
      clients := map i | i in clients && i != id :: clients[i];
    }
  }
}

/**
 What `_pipeline` and the command handlers do to one round of one run: its flags, its two queues, and
 its records. A turn of the loop may be preceded by arrivals, a cancel and sweeps; one database call of
 its handler may raise, which ends that handler and nothing else.
 */
module PipelineSpec {
  import opened Basics
  import opened Events
  import opened Statuses
  import Reduce

  datatype Entry = Entry(seqNo: nat, event: Event)

  datatype Item = Streamed(event: Event) | EndOfStream

  datatype Round = Round(
    claimed: bool,
    cancelRequested: bool,
    inQueue: seq<Command>,
    out: seq<Item>,
    seqNo: nat,
    startingSeq: nat,
    sawFinished: bool,
    sawError: bool,
    pause: Option<seq<string>>,
    row: Row,
    log: seq<Entry>,
    replies: seq<seq<Reduce.Message>>,   // the batches handed to the thread
    notified: nat,                       // how often the claimant was asked to stop
    ended: bool)

  /** Which of a handler's database calls raises, if any. */
  type Fault = Option<nat>

  const UNFINISHED_MESSAGE := "the agent's stream ended without finishing"

  function MarkedRow(row: Row, to: Status, now: Time): Row {
    if Legal(row.status, to) then Marked(row, to, now) else row
  }

  /** The handler raised at its database call number `call`, counted from zero, or at one before it. */
  predicate Raises(fault: Fault, call: nat) {
    fault.Some? && fault.value <= call
  }

  function Claiming(s: Round, fault: Fault, now: Time): Round {
    s.(row := if Raises(fault, 0) then s.row else MarkedRow(s.row, Running, now))
  }

  /** The flags are set before anything is stored; then append (committed on its own), touch, commit,
      forward. */
  function Relaying(s: Round, event: Event, fault: Fault, now: Time): Round {
    s.(sawFinished := s.sawFinished || event.RunFinished?,
       sawError := s.sawError || event.RunError?,
       pause := if InterruptOutcomeOf(event).Some? then InterruptOutcomeOf(event) else s.pause,
       seqNo := s.seqNo + 1,
       log := if Raises(fault, 0) then s.log else s.log + [Entry(s.seqNo + 1, event)],
       row := if Raises(fault, 2) then s.row else s.row.(lastActivity := now),
       out := if Raises(fault, 2) then s.out else s.out + [Streamed(event)])
  }

  /** Everything queued behind a malformed event is dropped and a `Fail` takes its place. */
  function Rejecting(s: Round): Round {
    s.(inQueue := [Fail(MALFORMED_REASON)])
  }

  function Target(s: Round): Status {
    if s.pause.Some? then InputRequired
    else if s.sawFinished then Completed
    else if s.cancelRequested then Cancelled
    else Failed
  }

  predicate OwesError(s: Round) {
    Target(s) == Failed && !s.sawError
  }

  /** The mark is applied and the round has an answer to keep. */
  predicate OwesReply(s: Round) {
    Legal(s.row.status, Target(s)) && (Target(s) == Completed || Target(s) == InputRequired)
  }

  /** The events stored with a seq greater than `since`, as `get_run_events` reads them back. */
  function EventsSince(log: seq<Entry>, since: nat): seq<Event> {
    if log == [] then []
    else
      var last := log[|log| - 1];
      EventsSince(log[..|log| - 1], since) + if last.seqNo > since then [last.event] else []
  }

  /** The batches with the reduction of this round's events added, if it reduces to anything. */
  function Replied(replies: seq<seq<Reduce.Message>>, log: seq<Entry>, since: nat): seq<seq<Reduce.Message>> {
    var messages := Reduce.Messages(EventsSince(log, since));
    if messages == [] then replies else replies + [messages]
  }

  /** Mark (committed on its own), then fold and append the reply or append the error owed, commit, forward. */
  function Finishing(s: Round, fault: Fault, now: Time): Round {
    s.(row := if Raises(fault, 0) then s.row else MarkedRow(s.row, Target(s), now),
       replies := if OwesReply(s) && !Raises(fault, 2) then Replied(s.replies, s.log, s.startingSeq) else s.replies,
       seqNo := if OwesError(s) && !Raises(fault, 0) then s.seqNo + 1 else s.seqNo,
       log := if OwesError(s) && !Raises(fault, 1) then s.log + [Entry(s.seqNo + 1, RunError(UNFINISHED_MESSAGE))]
              else s.log,
       out := if OwesError(s) && !Raises(fault, 2) then s.out + [Streamed(RunError(UNFINISHED_MESSAGE))] else s.out)
  }

  /** An unclaimed run is cancelled; the claimant of a claimed one is asked, whatever the table says to the mark. */
  function Cancelling(s: Round, fault: Fault, now: Time): Round {
    s.(row := if Raises(fault, 0) then s.row
              else MarkedRow(s.row, if s.claimed then Status.Cancelling else Cancelled, now),
       notified := if s.claimed && !Raises(fault, 0) then s.notified + 1 else s.notified)
  }

  /** Append (committed on its own), mark, forward. */
  function Failing(s: Round, reason: string, fault: Fault, now: Time): Round {
    s.(seqNo := s.seqNo + 1,
       log := if Raises(fault, 0) then s.log else s.log + [Entry(s.seqNo + 1, RunError(reason))],
       row := if Raises(fault, 1) then s.row else MarkedRow(s.row, Failed, now),
       out := if Raises(fault, 1) then s.out else s.out + [Streamed(RunError(reason))])
  }

  function Handled(s: Round, cmd: Command, fault: Fault, now: Time): Round {
    match cmd
    case Claim => Claiming(s, fault, now)
    case RelayEvent(event) => if event.Invalid? then Rejecting(s) else Relaying(s, event, fault, now)
    case FinishStream => Finishing(s, fault, now)
    case RequestCancel => Cancelling(s, fault, now)
    case Fail(reason) => Failing(s, reason, fault, now)
  }

  /** The event a command adds to the log and the stream, if any. */
  function Emitted(s: Round, cmd: Command): Option<Event> {
    match cmd
    case RelayEvent(event) => if event.Invalid? then None else Some(event)
    case FinishStream => if OwesError(s) then Some(RunError(UNFINISHED_MESSAGE)) else None
    case Fail(reason) => Some(RunError(reason))
    case _ => None
  }

  /** What a handler may do to the log and the stream: nothing, number an event, store it, or also send it. */
  lemma HandlerEmits(s: Round, cmd: Command, fault: Fault, now: Time)
    ensures var t, event := Handled(s, cmd, fault, now), Emitted(s, cmd);
      && t.claimed == s.claimed && t.startingSeq == s.startingSeq && t.ended == s.ended
      && t.cancelRequested == s.cancelRequested
      && t.inQueue == (if Malformed(cmd) then [Fail(MALFORMED_REASON)] else s.inQueue)
      && (t.seqNo == s.seqNo ==> t.log == s.log && t.out == s.out)
      && (t.seqNo != s.seqNo ==> event.Some? && t.seqNo == s.seqNo + 1 && EmitsPartly(s, t, event.value))
      && (fault.None? ==> (event.Some? <==> t.seqNo != s.seqNo))
      && (fault.None? && event.Some? ==> t.log != s.log && t.out != s.out)
  {
    hide MarkedRow, Replied, OwesReply, InterruptOutcomeOf, Target;
    match cmd
    case FinishStream => hide Relaying, Failing;
    case Fail(_) => hide Relaying, Finishing;
    case _ => hide Finishing, Failing;
  }

  predicate EmitsPartly(s: Round, t: Round, event: Event) {
    || (t.log == s.log && t.out == s.out)
    || (t.log == s.log + [Entry(t.seqNo, event)] && (t.out == s.out || t.out == s.out + [Streamed(event)]))
  }

  function Ended(s: Round): Round {
    s.(out := s.out + [EndOfStream], ended := true)
  }

  /** What happens around one `get` of the loop: before it, and to its handler. */
  datatype Turn = Turn(arrivals: seq<Command>, cancelled: bool, sweeps: seq<Clause>, fault: Fault, now: Time)

  function Swept(row: Row, sweeps: seq<Clause>, now: Time): Row {
    if sweeps == [] then row
    else Written(Swept(row, sweeps[..|sweeps| - 1], now), FailIf("", sweeps[|sweeps| - 1]), now)
  }

  function Interfered(s: Round, turn: Turn): Round {
    s.(inQueue := s.inQueue + turn.arrivals, cancelRequested := s.cancelRequested || turn.cancelled,
       row := Swept(s.row, turn.sweeps, turn.now))
  }

  /** One command taken and handled. */
  function Taken(s: Round, turn: Turn): Round
    requires s.inQueue != []
  {
    var cmd := s.inQueue[0];
    var handled := Handled(s.(inQueue := s.inQueue[1..]), cmd, turn.fault, turn.now);
    if Closes(cmd, s.claimed) then Ended(handled) else handled
  }

  /** The loop has left once the round has ended; on an empty queue it waits. */
  function AfterTurn(s: Round, turn: Turn): Round {
    if s.ended then s
    else
      var ready := Interfered(s, turn);
      if ready.inQueue == [] then ready else Taken(ready, turn)
  }

  function Run(s: Round, turns: seq<Turn>): Round {
    if turns == [] then s else AfterTurn(Run(s, turns[..|turns| - 1]), turns[|turns| - 1])
  }

  lemma RunOneMore(s: Round, turns: seq<Turn>, turn: Turn)
    ensures Run(s, turns + [turn]) == AfterTurn(Run(s, turns), turn)
  {
    assert (turns + [turn])[..|turns|] == turns;
  }

  lemma RunNothing(s: Round)
    ensures Run(s, []) == s
  {
  }

  function OneShot(s: Round, cmd: Command, fault: Fault, now: Time): Round {
    Ended(Handled(s, cmd, fault, now))
  }

  predicate Increasing(log: seq<Entry>) {
    forall i, j :: 0 <= i < j < |log| ==> log[i].seqNo < log[j].seqNo
  }

  /** A round as `enqueue_run` makes it: nothing seen, nothing sent, the log ending at `startingSeq`. */
  predicate Begins(s: Round) {
    && !s.ended && s.inQueue == [] && s.out == [] && s.seqNo == s.startingSeq
    && !s.sawFinished && !s.sawError && s.pause.None? && !s.cancelRequested
    && Increasing(s.log)
    && (forall i :: 0 <= i < |s.log| ==> s.log[i].seqNo <= s.startingSeq)
  }

  predicate Clean(turns: seq<Turn>) {
    forall turn :: turn in turns ==> turn.fault.None?
  }

  /** What the log has grown by. */
  function NewEntries(s: Round, t: Round): seq<Entry> {
    if |s.log| <= |t.log| then t.log[|s.log|..] else []
  }

  function EventsOf(entries: seq<Entry>): (events: seq<Event>)
    ensures |events| == |entries|
  {
    seq(|entries|, i requires 0 <= i < |entries| => entries[i].event)
  }

  function AsItems(events: seq<Event>): (items: seq<Item>)
    ensures |items| == |events|
  {
    seq(|events|, i requires 0 <= i < |events| => Streamed(events[i]))
  }
}

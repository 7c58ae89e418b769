/**
 The way of an event out of a provider: every task of its runtime puts its events on one output queue, and one
 loop reports them to funduq in turn, where each that is heard becomes a command of its own run's pipeline.
 */
module Wires {
  import opened Basics
  import opened Events
  import opened BrokerSpec
  import opened Broker
  import opened PipelineMeaning
  import opened PipelineSpec
  import opened Statuses
  import Gates

  /** What a task puts on the output queue: an event, or the marker its `finally` always adds. */
  datatype Report = Yielded(event: Event) | EndMark

  /** The command `report_event` or `finish_run` pushes. */
  function CommandFor(report: Report): Command {
    match report
    case Yielded(event) => RelayEvent(event)
    case EndMark => FinishStream
  }

  /** What a report from the provider `claimant` does to the broker. */
  function Delivered(c: Config, s: State, id: RunId, report: Report, claimant: Key, now: Time): (t: State)
    requires WellFormed(s)
    ensures WellFormed(t)
  {
    match report
    case Yielded(event) => Gates.Reported(c, s, id, event, claimant, now)
    case EndMark => Gates.Finished(c, s, id, claimant, now)
  }

  /** The reports still waiting for this run. */
  function Mine(output: seq<(RunId, Report)>, run: RunId): seq<Report> {
    if output == [] then []
    else
      var (id, report) := output[0];
      (if id == run then [report] else []) + Mine(output[1..], run)
  }

  /** The reports among a run's commands. */
  function ReportsOf(commands: seq<Command>): seq<Report> {
    if commands == [] then []
    else
      var last := commands[|commands| - 1];
      ReportsOf(commands[..|commands| - 1])
      + if last.RelayEvent? then [Yielded(last.event)] else if last.FinishStream? then [EndMark] else []
  }

  function EventsIn(reports: seq<Report>): seq<Event> {
    if reports == [] then []
    else
      var last := reports[|reports| - 1];
      EventsIn(reports[..|reports| - 1]) + if last.Yielded? then [last.event] else []
  }

  predicate Honest(commands: seq<Command>) {
    forall c :: c in commands ==> !c.Fail? && !Malformed(c)
  }

  lemma {:induction false} MineOneMore(output: seq<(RunId, Report)>, run: RunId, id: RunId, report: Report)
    ensures Mine(output + [(id, report)], run) == Mine(output, run) + if id == run then [report] else []
  {
    if output == [] {
      assert (output + [(id, report)])[1..] == [];
    } else {
      MineOneMore(output[1..], run, id, report);
      assert (output + [(id, report)])[1..] == output[1..] + [(id, report)];
    }
  }

  lemma ReportsOneMore(commands: seq<Command>, cmd: Command)
    ensures ReportsOf(commands + [cmd])
         == if cmd.RelayEvent? then ReportsOf(commands) + [Yielded(cmd.event)]
            else if cmd.FinishStream? then ReportsOf(commands) + [EndMark] else ReportsOf(commands)
  {
    assert (commands + [cmd])[..|commands|] == commands;
  }

  lemma NoReports()
    ensures ReportsOf([]) == []
  {
  }

  lemma {:induction false} ReportsJoin(a: seq<Command>, b: seq<Command>)
    ensures ReportsOf(a + b) == ReportsOf(a) + ReportsOf(b)
  {
    hide ReportsOf;
    if b == [] {
      assert a + b == a;
      assert ReportsOf(b) == [] by { NoReports(); }
    } else {
      var before, last := b[..|b| - 1], b[|b| - 1];
      ReportsJoin(a, before);
      assert a + b == (a + before) + [last] && b == before + [last];
      ReportsOneMore(a + before, last);
      ReportsOneMore(before, last);
    }
  }

  predicate EndsLast(yielded: seq<Report>) {
    forall i :: 0 <= i < |yielded| && yielded[i].EndMark? ==> i == |yielded| - 1
  }

  /** Honest commands close with the finish that the end marker became, and nothing was put after it. */
  lemma ClosedByTheMark(commands: seq<Command>, waiting: seq<Report>, yielded: seq<Report>)
    requires Honest(commands) && EndsLast(yielded) && ReportsOf(commands) + waiting == yielded
    requires FirstDeciding(commands) < |commands|
    ensures waiting == [] && yielded == ReportsOf(commands[..FirstDeciding(commands)]) + [EndMark]
  {
    hide ReportsOf, FirstDeciding;
    var n := FirstDeciding(commands);
    assert commands[n] in commands && commands[n].FinishStream?;
    assert commands == commands[..n] + [commands[n]] + commands[n + 1..];
    ReportsJoin(commands[..n] + [commands[n]], commands[n + 1..]);
    ReportsOneMore(commands[..n], commands[n]);
    assert yielded[|ReportsOf(commands[..n])|] == EndMark;
  }

  lemma MineFirst(output: seq<(RunId, Report)>, run: RunId)
    requires output != []
    ensures Mine(output, run)
         == if output[0].0 == run then [output[0].1] + Mine(output[1..], run) else Mine(output[1..], run)
  {
  }

  /** Among honest commands without a finish, the reports are the relayed events. */
  lemma {:induction false} RelayedAreReported(commands: seq<Command>, n: nat)
    requires n <= FirstDeciding(commands)
    ensures EventsIn(ReportsOf(commands[..n])) == Relayed(commands[..n])
    ensures EndMark !in ReportsOf(commands[..n])
  {
    if n > 0 {
      RelayedAreReported(commands, n - 1);
      assert commands[..n] == commands[..n - 1] + [commands[n - 1]];
      assert commands[..n][..n - 1] == commands[..n - 1];
      ReportsOneMore(commands[..n - 1], commands[n - 1]);
      var reports := ReportsOf(commands[..n]);
      if commands[n - 1].RelayEvent? {
        assert reports[..|reports| - 1] == ReportsOf(commands[..n - 1]);
      }
    } else {
      assert commands[..0] == [];
    }
  }

  lemma {:induction false} EventsInJoin(a: seq<Report>, b: seq<Report>)
    ensures EventsIn(a + b) == EventsIn(a) + EventsIn(b)
  {
    if b == [] {
      assert a + b == a;
    } else {
      var before, last := b[..|b| - 1], b[|b| - 1];
      EventsInJoin(a, before);
      assert (a + b)[..|a + b| - 1] == a + before;
    }
  }

  /** The one error funduq may add to a stream that never said how it ended. */
  function Owed(events: seq<Event>, cancelled: bool): (owed: seq<Event>)
    ensures |owed| <= 1
  {
    if Deserved(events, cancelled) == Failed && !AnyError(events) then [RunError(UNFINISHED_MESSAGE)] else []
  }

  lemma NoEventInTheMark()
    ensures EventsIn([EndMark]) == []
  {
    assert [EndMark][..0] == [];
  }

  lemma HonestIsNotDoomed(start: Round, t: Round, commands: seq<Command>)
    requires Honest(commands)
    ensures !Doomed(start, t, commands)
  {
    var n := FirstDeciding(commands);
    if n < |commands| {
      assert commands[n] in commands;
    }
  }

  // ----------------------------------------------------------------------- the queue as an object

  function Yields(events: seq<Event>): (reports: seq<Report>)
    ensures |reports| == |events|
  {
    seq(|events|, i requires 0 <= i < |events| => Yielded(events[i]))
  }

  predicate NoneOf(puts: seq<(RunId, Report)>, id: RunId) {
    forall i :: 0 <= i < |puts| ==> puts[i].0 != id
  }

  lemma {:induction false} MineJoin(a: seq<(RunId, Report)>, b: seq<(RunId, Report)>, id: RunId)
    ensures Mine(a + b, id) == Mine(a, id) + Mine(b, id)
  {
    if a == [] {
      assert a + b == b;
    } else {
      MineJoin(a[1..], b, id);
      assert (a + b)[1..] == a[1..] + b;
    }
  }

  lemma {:induction false} NoneIsMine(puts: seq<(RunId, Report)>, id: RunId)
    requires NoneOf(puts, id)
    ensures Mine(puts, id) == []
  {
    if puts != [] {
      assert forall i :: 0 <= i < |puts| - 1 ==> puts[1..][i] == puts[i + 1];
      NoneIsMine(puts[1..], id);
    }
  }

  class OutputQueue {
    var output: seq<(RunId, Report)>

    constructor ()
      ensures output == []
    {
      output := [];
    }

    method Put(id: RunId, report: Report)
      modifies this
      ensures output == old(output) + [(id, report)]
    {
      output := output + [(id, report)];
    }

    /** One task's `_execute`: the agent yields `events` and then returns or raises, while other tasks put
        `others[i]` before its i-th report. The task's own reports keep their order and end with the marker. */
    method Execute(id: RunId, events: seq<Event>, others: seq<seq<(RunId, Report)>>)
      requires |others| == |events| + 1
      requires forall i :: 0 <= i < |others| ==> NoneOf(others[i], id)
      modifies this
      ensures Mine(output, id) == old(Mine(output, id)) + Yields(events) + [EndMark]
      ensures old(output) <= output
    {
      hide Mine;
      for i := 0 to |events|
        invariant Mine(output, id) == old(Mine(output, id)) + Yields(events[..i])
        invariant old(output) <= output
      {
        assert Yields(events[..i + 1]) == Yields(events[..i]) + [Yielded(events[i])];
        OthersPut(id, others[i]);
        MineOneMore(output, id, id, Yielded(events[i]));
        Put(id, Yielded(events[i]));
      }
      assert events[..|events|] == events;
      OthersPut(id, others[|events|]);
      MineOneMore(output, id, id, EndMark);
      Put(id, EndMark);
    }

    method OthersPut(id: RunId, puts: seq<(RunId, Report)>)
      requires NoneOf(puts, id)
      modifies this
      ensures output == old(output) + puts && Mine(output, id) == old(Mine(output, id))
    {
      MineJoin(output, puts, id);
      NoneIsMine(puts, id);
      output := output + puts;
    }

    /** One turn of `_report_output`: the head is reported over the provider's link, whoever holds its run. */
    method ReportNext(broker: RunBroker, claimant: Key, now: Time)
      requires output != [] && broker.Valid()
      modifies this, broker`pending, broker`capacity, broker`unservedSince, broker.live
      modifies if output[0].0 in broker.runs then {broker.runs[output[0].0]} else {}
      ensures output == old(output)[1..] && broker.Valid()
      ensures var (id, report) := old(output)[0];
        broker.Abstract() == Delivered(broker.config, old(broker.Abstract()), id, report, claimant, now)
    {
      hide Gates.Reported, Gates.Finished, RecordsOf, Handles;
      var (id, report) := output[0];
      output := output[1..];
      match report
      case Yielded(event) => var _ := Gates.ReportEvent(broker, id, event, claimant, now);
      case EndMark => var _ := Gates.FinishRun(broker, id, claimant, now);
    }
  }
}

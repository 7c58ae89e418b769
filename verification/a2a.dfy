/**
 `a2a_translate.py`: one run's event log read three ways. The live stream translates event by event,
 the task snapshot merges the whole log, and the thread keeps reduced messages.
 */
module A2A {
  import opened Basics
  import opened Events
  import opened Statuses
  import Reduce

  datatype TaskState = Submitted | Working | InputRequired | Completed | Failed | Canceled | Unspecified

  datatype Update =
    | StatusUpdate(state: TaskState, message: Option<string>, interrupts: Option<seq<string>>, aguiEvent: Option<Event>)
    | ArtifactUpdate(artifactId: string, text: string)   // always an append

  datatype Artifact = Artifact(id: string, text: string)

  datatype Task = Task(state: TaskState, artifacts: seq<Artifact>, aguiEvents: seq<Event>)

  /** "cancelling" has no A2A equivalent. */
  function StateFor(status: Status): TaskState {
    match status
    case Queued => Submitted
    case Running => Working
    case InputRequired => TaskState.InputRequired
    case Completed => TaskState.Completed
    case Failed => TaskState.Failed
    case Cancelled => Canceled
    case Cancelling => Unspecified
  }

  function Or(first: string, second: string): string {
    if first != "" then first else second
  }

  function Given(text: Option<string>): string {
    if text.Some? then text.value else ""
  }

  /** The artifact a text-content event adds to, and the text it adds. */
  function TextDeltaOf(event: Event): Option<(string, string)> {
    match event
    case TextMessageContent(id, delta, content) => Some((Or(id, "text"), Or(delta, Given(content))))
    case TextMessageChunk(id, delta, content) => Some((Or(Given(id), "text"), Or(Given(delta), Given(content))))
    case _ => None
  }

  predicate IsMapped(event: Event) {
    event.RunStarted? || event.RunFinished? || event.RunError? || event.TextMessageContent? || event.TextMessageChunk?
  }

  function UpdateFor(event: Event): Update {
    if event.RunStarted? then StatusUpdate(Working, None, None, None)
    else if event.RunFinished? then
      var interrupts := InterruptOutcomeOf(event);
      if interrupts.Some? then StatusUpdate(TaskState.InputRequired, None, interrupts, None)
      else StatusUpdate(TaskState.Completed, None, None, None)
    else if event.RunError? then StatusUpdate(TaskState.Failed, Some(event.message), None, None)
    else
      var delta := TextDeltaOf(event);
      if delta.Some? then ArtifactUpdate(delta.value.0, delta.value.1)
      else StatusUpdate(Working, None, None, Some(event))
  }

  /** Text adds its delta, or failing that its content, to the artifact of its id, or of "text" if it names none; and
      an event that is neither text nor about the run as a whole is sent as it came. */
  lemma TextInFields(event: Event)
    ensures event.TextMessageContent? ==>
      UpdateFor(event) == ArtifactUpdate(if event.messageId == "" then "text" else event.messageId,
                                         if event.delta != "" then event.delta
                                         else match event.content case None => "" case Some(text) => text)
    ensures event.TextMessageChunk? ==>
      UpdateFor(event) == ArtifactUpdate(if event.chunkId in {None, Some("")} then "text" else event.chunkId.value,
                                         if event.chunkDelta !in {None, Some("")} then event.chunkDelta.value
                                         else match event.content case None => "" case Some(text) => text)
    ensures event.Unmapped? || event.TextMessageStart? || event.ToolCallStart? || event.ToolCallArgs?
            || event.ToolCallResult? || event.Invalid? ==>
      UpdateFor(event) == StatusUpdate(Working, None, None, Some(event))
  {
  }

  function Updates(events: seq<Event>): (updates: seq<Update>)
    ensures |updates| == |events|
  {
    seq(|events|, i requires 0 <= i < |events| => UpdateFor(events[i]))
  }

  // ------------------------------------------------------------------------------- the snapshot

  /** The artifact ids in order of first appearance, the text of one of them, and the unmapped events. */
  function ArtifactIds(events: seq<Event>): seq<string> {
    if events == [] then []
    else
      var before, delta := ArtifactIds(events[..|events| - 1]), TextDeltaOf(events[|events| - 1]);
      if delta.None? || delta.value.0 in before then before else before + [delta.value.0]
  }

  function ArtifactText(events: seq<Event>, id: string): string {
    if events == [] then ""
    else
      var delta := TextDeltaOf(events[|events| - 1]);
      ArtifactText(events[..|events| - 1], id) + if delta.Some? && delta.value.0 == id then delta.value.1 else ""
  }

  function Overflow(events: seq<Event>): seq<Event> {
    if events == [] then []
    else
      var last := events[|events| - 1];
      Overflow(events[..|events| - 1]) + if IsMapped(last) then [] else [last]
  }

  function Artifacts(events: seq<Event>): (artifacts: seq<Artifact>)
    ensures |artifacts| == |ArtifactIds(events)|
  {
    var ids := ArtifactIds(events);
    seq(|ids|, i requires 0 <= i < |ids| => Artifact(ids[i], ArtifactText(events, ids[i])))
  }

  function TaskOf(status: Status, events: seq<Event>): Task {
    Task(StateFor(status), Artifacts(events), Overflow(events))
  }

  function Joined(chunks: seq<string>): string {
    if chunks == [] then "" else Joined(chunks[..|chunks| - 1]) + chunks[|chunks| - 1]
  }

  lemma JoinedOneMore(chunks: seq<string>, chunk: string)
    ensures Joined(chunks + [chunk]) == Joined(chunks) + chunk
  {
    assert (chunks + [chunk])[..|chunks|] == chunks;
  }

  lemma JoinedOne(chunk: string)
    ensures Joined([chunk]) == chunk
  {
    assert [chunk][..0] == [];
    assert "" + chunk == chunk;
  }

  lemma {:induction false} NoTextNoArtifact(events: seq<Event>, id: string)
    requires id !in ArtifactIds(events)
    ensures ArtifactText(events, id) == ""
  {
    if events != [] {
      NoTextNoArtifact(events[..|events| - 1], id);
    }
  }

  lemma NothingYet()
    ensures ArtifactIds([]) == [] && Overflow([]) == []
  {
  }

  lemma TextIsMapped(event: Event)
    ensures TextDeltaOf(event).Some? ==> IsMapped(event)
  {
  }

  /** What one more event does to the snapshot. */
  lemma SnapshotOneMore(events: seq<Event>, n: nat)
    requires n < |events|
    ensures var before, after, delta := events[..n], events[..n + 1], TextDeltaOf(events[n]);
      && ArtifactIds(after) == (if delta.None? || delta.value.0 in ArtifactIds(before) then ArtifactIds(before)
                                else ArtifactIds(before) + [delta.value.0])
      && Overflow(after) == Overflow(before) + (if IsMapped(events[n]) then [] else [events[n]])
      && forall id :: ArtifactText(after, id)
                      == ArtifactText(before, id) + if delta.Some? && delta.value.0 == id then delta.value.1 else ""
  {
    assert events[..n + 1][..n] == events[..n];
    hide TextDeltaOf, IsMapped;
  }

  /** Merges each message's text deltas into one artifact and keeps what A2A has no word for. */
  method BuildTask(status: Status, events: seq<Event>) returns (task: Task)
    ensures task == TaskOf(status, events)
  {
    hide ArtifactIds, ArtifactText, Overflow, Joined, IsMapped;
    var ids: seq<string>, merged: map<string, seq<string>>, overflow: seq<Event> := [], map[], [];
    assert events[..0] == [];
    NothingYet();
    for i := 0 to |events|
      invariant ids == ArtifactIds(events[..i]) && overflow == Overflow(events[..i])
      invariant forall id :: id in merged <==> id in ids
      invariant forall id :: id in merged ==> Joined(merged[id]) == ArtifactText(events[..i], id)
    {
      SnapshotOneMore(events, i);
      var delta := TextDeltaOf(events[i]);
      TextIsMapped(events[i]);
      if delta.Some? {
        var (id, text) := delta.value;
        if id !in merged {
          NoTextNoArtifact(events[..i], id);
          JoinedOne(text);
          ids, merged := ids + [id], merged[id := [text]];
        } else {
          JoinedOneMore(merged[id], text);
          merged := merged[id := merged[id] + [text]];
        }
      } else if !IsMapped(events[i]) {
        overflow := overflow + [events[i]];
      }
    }
    assert events[..|events|] == events;
    task := Task(StateFor(status),
                 seq(|ids|, i requires 0 <= i < |ids| && ids[i] in merged => Artifact(ids[i], Joined(merged[ids[i]]))),
                 overflow);
  }

  // ------------------------------------------------------- the snapshot is the replay of the stream

  /** Section 4.2.2 of A2A v1.0: an append update adds to the artifact of that id, or brings a new one. */
  function Appended(artifacts: seq<Artifact>, id: string, text: string): seq<Artifact> {
    if artifacts == [] then [Artifact(id, text)]
    else if artifacts[0].id == id then [Artifact(id, artifacts[0].text + text)] + artifacts[1..]
    else [artifacts[0]] + Appended(artifacts[1..], id, text)
  }

  function Replayed(updates: seq<Update>): seq<Artifact> {
    if updates == [] then []
    else
      var before, last := Replayed(updates[..|updates| - 1]), updates[|updates| - 1];
      if last.ArtifactUpdate? then Appended(before, last.artifactId, last.text) else before
  }

  /** The events the stream carried verbatim, in order. */
  function Carried(updates: seq<Update>): seq<Event> {
    if updates == [] then []
    else
      var last := updates[|updates| - 1];
      Carried(updates[..|updates| - 1])
      + if last.StatusUpdate? && last.aguiEvent.Some? then [last.aguiEvent.value] else []
  }

  lemma {:induction false} AppendedAt(artifacts: seq<Artifact>, id: string, text: string)
    requires forall i, j :: 0 <= i < j < |artifacts| ==> artifacts[i].id != artifacts[j].id
    ensures var r := Appended(artifacts, id, text);
      if exists k :: 0 <= k < |artifacts| && artifacts[k].id == id
      then |r| == |artifacts| && forall k :: 0 <= k < |artifacts| ==>
             r[k] == if artifacts[k].id == id then Artifact(id, artifacts[k].text + text) else artifacts[k]
      else r == artifacts + [Artifact(id, text)]
  {
    if artifacts != [] && artifacts[0].id != id {
      AppendedAt(artifacts[1..], id, text);
      var r := Appended(artifacts, id, text);
      assert forall k :: 0 < k < |artifacts| ==> artifacts[k] == artifacts[1..][k - 1];
      assert forall k :: 0 < k < |r| ==> r[k] == Appended(artifacts[1..], id, text)[k - 1];
    }
  }

  lemma {:induction false} ArtifactIdsDistinct(events: seq<Event>)
    ensures NoDuplicates(ArtifactIds(events))
  {
    if events != [] {
      ArtifactIdsDistinct(events[..|events| - 1]);
    }
  }

  lemma UpdatesOneMore(before: seq<Event>, last: Event)
    ensures var updates := Updates(before + [last]);
      updates[|updates| - 1] == UpdateFor(last) && updates[..|updates| - 1] == Updates(before)
  {
  }

  lemma ArtifactTextOneMore(before: seq<Event>, last: Event, id: string)
    ensures ArtifactText(before + [last], id)
         == if TextDeltaOf(last).Some? && TextDeltaOf(last).value.0 == id
            then ArtifactText(before, id) + TextDeltaOf(last).value.1 else ArtifactText(before, id)
  {
    assert (before + [last])[..|before|] == before;
  }

  lemma ReplayStep(before: seq<Event>, last: Event, status: Status)
    requires Replayed(Updates(before)) == TaskOf(status, before).artifacts
    ensures Replayed(Updates(before + [last])) == TaskOf(status, before + [last]).artifacts
  {
    var events := before + [last];
    assert events[..|events| - 1] == before;
    UpdatesOneMore(before, last);
    if TextDeltaOf(last).Some? {
      ArtifactsStep(before, last);
    } else {
      OtherEventsStep(before, last);
    }
    hide Artifacts;
  }

  lemma TextsStep(before: seq<Event>, last: Event)
    requires TextDeltaOf(last).Some?
    ensures var (id, text) := TextDeltaOf(last).value; var events := before + [last];
      && ArtifactIds(events) == (if id in ArtifactIds(before) then ArtifactIds(before) else ArtifactIds(before) + [id])
      && forall k :: 0 <= k < |ArtifactIds(before)| ==>
           Artifacts(events)[k] == (var was := Artifacts(before)[k];
             Artifact(was.id, was.text + if was.id == id then text else ""))
  {
    var events := before + [last];
    assert events[..|events| - 1] == before;
  }

  /** The snapshot's artifacts take one more event the way the append semantics takes its update. */
  lemma ArtifactsStep(before: seq<Event>, last: Event)
    requires TextDeltaOf(last).Some?
    ensures Artifacts(before + [last])
         == Appended(Artifacts(before), TextDeltaOf(last).value.0, TextDeltaOf(last).value.1)
  {
    hide ArtifactIds, ArtifactText, Appended, TextDeltaOf;
    var was, now, ids := Artifacts(before), Artifacts(before + [last]), ArtifactIds(before);
    var (id, text) := TextDeltaOf(last).value;
    TextsStep(before, last);
    ArtifactIdsDistinct(before);
    AppendedAt(was, id, text);
    if id in ids {
      var k :| 0 <= k < |ids| && ids[k] == id;
      assert was[k].id == id;
      forall k | 0 <= k < |was| ensures now[k] == Appended(was, id, text)[k] {
        assert was[k].text + "" == was[k].text;
      }
    } else {
      ArtifactTextOneMore(before, last, id);
      NoTextNoArtifact(before, id);
      assert "" + text == text;
      forall k | 0 <= k < |was| ensures now[k] == was[k] {
        assert was[k].text + "" == was[k].text;
      }
      assert now == was + [Artifact(id, text)];
    }
  }

  lemma OtherEventsStep(before: seq<Event>, last: Event)
    requires TextDeltaOf(last).None?
    ensures Artifacts(before + [last]) == Artifacts(before)
  {
    assert (before + [last])[..|before|] == before;
    forall id ensures ArtifactText(before + [last], id) == ArtifactText(before, id) {
      assert ArtifactText(before, id) + "" == ArtifactText(before, id);
    }
  }

  /** Appending the artifact updates of any log gives the snapshot's artifacts, in the same order, and the
      events the stream carried are its overflow list. */
  lemma {:induction false} SnapshotIsReplay(events: seq<Event>, status: Status)
    ensures Replayed(Updates(events)) == TaskOf(status, events).artifacts
    ensures Carried(Updates(events)) == TaskOf(status, events).aguiEvents
  {
    if events != [] {
      var before, last := events[..|events| - 1], events[|events| - 1];
      assert events == before + [last];
      SnapshotIsReplay(before, status);
      ReplayStep(before, last, status);
      UpdatesOneMore(before, last);
    }
  }

  /** Every event leaves by exactly one of three ways, and an event that A2A has no word for leaves whole. */
  lemma ThreeWays(event: Event)
    ensures var update := UpdateFor(event);
      && (update.ArtifactUpdate? <==> TextDeltaOf(event).Some?)
      && (update.StatusUpdate? && update.aguiEvent == Some(event) <==> !IsMapped(event))
      && (update.StatusUpdate? && update.aguiEvent.None?
          <==> event.RunStarted? || event.RunFinished? || event.RunError?)
  {
  }

  // --------------------------------------------------------------------------- the last word

  /** `send_task_streaming` on a live run: the translated events, then the stored status unless it is "completed". */
  function Streamed(events: seq<Event>, stored: Status): seq<Update> {
    Updates(events) + if stored.Completed? then [] else [StatusUpdate(StateFor(stored), None, None, None)]
  }

  function LastState(updates: seq<Update>): Option<TaskState> {
    if updates == [] then None
    else if updates[|updates| - 1].StatusUpdate? then Some(updates[|updates| - 1].state)
    else LastState(updates[..|updates| - 1])
  }

  /** The last event that is not text content. */
  function LastSaid(events: seq<Event>): (last: Option<Event>)
    ensures last.Some? ==> TextDeltaOf(last.value).None?
  {
    if events == [] then None
    else if TextDeltaOf(events[|events| - 1]).None? then Some(events[|events| - 1])
    else LastSaid(events[..|events| - 1])
  }

  predicate SaysDone(event: Event) {
    event.RunFinished? && !event.outcome.Interrupt?
  }

  lemma {:induction false} LastStateIsLastSaid(events: seq<Event>)
    ensures LastState(Updates(events))
         == if LastSaid(events).None? then None else Some(UpdateFor(LastSaid(events).value).state)
  {
    if events != [] {
      var before, last := events[..|events| - 1], events[|events| - 1];
      assert events == before + [last];
      UpdatesOneMore(before, last);
      LastStateIsLastSaid(before);
    }
  }

  /** The stream's last status is the stored one exactly when the run did not complete, or its last
      event other than text said it was done. */
  lemma LastStatusIsStored(events: seq<Event>, stored: Status)
    ensures LastState(Streamed(events, stored)) == Some(StateFor(stored))
       <==> !stored.Completed? || (LastSaid(events).Some? && SaysDone(LastSaid(events).value))
  {
    LastStateIsLastSaid(events);
    var stream := Streamed(events, stored);
    if stored.Completed? {
      assert stream == Updates(events);
    } else {
      assert stream[|stream| - 1] == StatusUpdate(StateFor(stored), None, None, None);
    }
  }

  // ----------------------------------------------------------------- artifacts and thread messages

  /** No chunks, no empty ids or deltas, and `id` is not a tool message's id. */
  predicate PlainText(events: seq<Event>, id: string) {
    forall i :: 0 <= i < |events| ==>
      && !events[i].TextMessageChunk?
      && (events[i].TextMessageContent? ==> events[i].messageId != "" && events[i].delta != "")
      && (events[i].ToolCallResult? ==> events[i].messageId != id)
  }

  lemma {:induction false} ArtifactTextIsMessageText(events: seq<Event>, id: string)
    requires PlainText(events, id)
    ensures ArtifactText(events, id) == Reduce.TextOf(events, id)
  {
    if events != [] {
      assert forall i :: 0 <= i < |events| - 1 ==> events[..|events| - 1][i] == events[i];
      ArtifactTextIsMessageText(events[..|events| - 1], id);
    }
  }

  lemma {:induction false} ArtifactIdsAppear(events: seq<Event>, id: string)
    requires PlainText(events, id) && id in ArtifactIds(events)
    ensures id in Reduce.Appearances(events)
  {
    assert forall i :: 0 <= i < |events| - 1 ==> events[..|events| - 1][i] == events[i];
    if id in ArtifactIds(events[..|events| - 1]) {
      ArtifactIdsAppear(events[..|events| - 1], id);
    }
  }

  /** For a well-behaved log, each artifact has exactly one thread message of its id, and reads the same. */
  lemma ArtifactsReadLikeMessages(events: seq<Event>, a: nat)
    requires Reduce.StartedOnce(events) && Reduce.FreshResults(events)
    requires a < |Artifacts(events)| && PlainText(events, Artifacts(events)[a].id)
    ensures var artifact, messages := Artifacts(events)[a], Reduce.Messages(events);
      exists m :: && 0 <= m < |messages| && messages[m].id == artifact.id && messages[m].content == artifact.text
                  && forall k :: 0 <= k < |messages| && messages[k].id == artifact.id ==> k == m
  {
    var artifact, messages := Artifacts(events)[a], Reduce.Messages(events);
    Reduce.ReductionIsFaithful(events);
    Reduce.AppearanceKeys(events);
    ArtifactTextIsMessageText(events, artifact.id);
    ArtifactIdsAppear(events, artifact.id);
    var ids := Reduce.Appearances(events);
    var m: nat :| m < |ids| && ids[m] == artifact.id;
    assert messages[m].id == artifact.id;
  }
}

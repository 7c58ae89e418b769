/**
 `agui_reduce.py`: the keyed fold of a round's events into thread messages, proved against a
 description of the messages that mentions neither the fold's dictionaries nor its order of work.
 */
module Reduce {
  import opened Basics
  import opened Events

  datatype ToolCall = ToolCall(id: string, name: string, arguments: string)

  datatype Message = Message(
    id: string,
    role: string,
    content: string,
    toolCalls: seq<ToolCall>,
    answers: Option<string>)   // the toolCallId of a tool message

  /** The three dictionaries of the fold. */
  datatype Draft = Draft(messages: map<string, Message>, order: seq<string>, parents: map<string, string>)

  const BLANK := Draft(map[], [], map[])

  predicate Consistent(d: Draft) {
    && (forall id :: id in d.order ==> id in d.messages)
    && (forall c :: c in d.parents ==> d.parents[c] in d.messages)
  }

  /** `assistant_message`: an id not seen before opens a message and takes the next place in the order. */
  function Opened(d: Draft, id: string, role: string): Draft {
    if id in d.messages then d
    else d.(messages := d.messages[id := Message(id, role, "", [], None)], order := d.order + [id])
  }

  function Extended(calls: seq<ToolCall>, id: string, delta: string): (r: seq<ToolCall>)
    ensures |r| == |calls|
  {
    if calls == [] then []
    else if calls[0].id == id then [calls[0].(arguments := calls[0].arguments + delta)] + calls[1..]
    else [calls[0]] + Extended(calls[1..], id, delta)
  }

  /** An absent or empty parent id makes the tool call its own message. */
  function ParentOf(event: Event): string
    requires event.ToolCallStart?
  {
    if event.parentMessageId.None? || event.parentMessageId.value == "" then event.toolCallId
    else event.parentMessageId.value
  }

  function Step(d: Draft, event: Event): (next: Draft)
    requires Consistent(d)
    ensures Consistent(next)
  {
    match event
    case TextMessageStart(id, role) => Opened(d, id, role)
    case TextMessageContent(id, delta, _) =>
      var base := Opened(d, id, "assistant");
      var m := base.messages[id];
      base.(messages := base.messages[id := m.(content := m.content + delta)])
    case ToolCallStart(call, name, _) =>
      var base := Opened(d, ParentOf(event), "assistant");
      var m := base.messages[ParentOf(event)];
      base.(messages := base.messages[ParentOf(event) := m.(toolCalls := m.toolCalls + [ToolCall(call, name, "")])],
              parents := d.parents[call := ParentOf(event)])
    case ToolCallArgs(call, delta) =>
      if call !in d.parents then d
      else
        var m := d.messages[d.parents[call]];
        d.(messages := d.messages[d.parents[call] := m.(toolCalls := Extended(m.toolCalls, call, delta))])
    case ToolCallResult(id, call, result) =>
      d.(messages := d.messages[id := Message(id, "tool", result, [], Some(call))], order := d.order + [id])
    case _ => d
  }

  function Fold(events: seq<Event>): (d: Draft)
    ensures Consistent(d)
  {
    if events == [] then BLANK else Step(Fold(events[..|events| - 1]), events[|events| - 1])
  }

  function Listed(d: Draft): seq<Message>
    requires Consistent(d)
  {
    seq(|d.order|, i requires 0 <= i < |d.order| => d.messages[d.order[i]])
  }

  /** What `reduce_events_to_messages` returns. */
  function Messages(events: seq<Event>): seq<Message> {
    Listed(Fold(events))
  }

  method ExtendCall(calls: seq<ToolCall>, id: string, delta: string) returns (r: seq<ToolCall>)
    ensures r == Extended(calls, id, delta)
  {
    var i := 0;
    while i < |calls| && calls[i].id != id
      invariant i <= |calls|
      invariant Extended(calls, id, delta) == calls[..i] + Extended(calls[i..], id, delta)
    {
      assert calls[..i + 1] == calls[..i] + [calls[i]];
      i := i + 1;
    }
    if i < |calls| {
      r := calls[i := calls[i].(arguments := calls[i].arguments + delta)];
      assert r == calls[..i] + [r[i]] + calls[i..][1..];
    } else {
      r := calls;
    }
  }

  method ReduceEventsToMessages(events: seq<Event>) returns (reduced: seq<Message>)
    ensures reduced == Messages(events)
  {
    var messages: map<string, Message>, order: seq<string>, parents: map<string, string> := map[], [], map[];
    for i := 0 to |events|
      invariant Draft(messages, order, parents) == Fold(events[..i])
    {
      assert events[..i + 1][..i] == events[..i];
      match events[i] {
        case TextMessageStart(id, role) =>
          if id !in messages {
            messages, order := messages[id := Message(id, role, "", [], None)], order + [id];
          }
        case TextMessageContent(id, delta, _) =>
          if id !in messages {
            messages, order := messages[id := Message(id, "assistant", "", [], None)], order + [id];
          }
          messages := messages[id := messages[id].(content := messages[id].content + delta)];
        case ToolCallStart(call, name, parent) =>
          var id := ParentOf(events[i]);
          parents := parents[call := id];
          if id !in messages {
            messages, order := messages[id := Message(id, "assistant", "", [], None)], order + [id];
          }
          messages := messages[id := messages[id].(toolCalls := messages[id].toolCalls + [ToolCall(call, name, "")])];
        case ToolCallArgs(call, delta) =>
          if call in parents {
            var m := messages[parents[call]];
            var calls := ExtendCall(m.toolCalls, call, delta);
            messages := messages[parents[call] := m.(toolCalls := calls)];
          }
        case ToolCallResult(id, call, result) =>
          messages, order := messages[id := Message(id, "tool", result, [], Some(call))], order + [id];
        case _ =>
      }
    }
    assert events[..|events|] == events;
    reduced := Listed(Draft(messages, order, parents));
  }

  // ------------------------------------------------------------ what the messages are, said directly

  /** The message an event opens or adds to, where the event itself names it. */
  function KeyOf(event: Event): Option<string> {
    match event
    case TextMessageStart(id, _) => Some(id)
    case TextMessageContent(id, _, _) => Some(id)
    case ToolCallStart(_, _, _) => Some(ParentOf(event))
    case ToolCallResult(id, _, _) => Some(id)
    case _ => None
  }

  /** The text an event adds to message `id`. */
  function TextFor(event: Event, id: string): string {
    match event
    case TextMessageContent(m, delta, _) => if m == id then delta else ""
    case ToolCallResult(m, _, result) => if m == id then result else ""
    case _ => ""
  }

  function TextOf(events: seq<Event>, id: string): string {
    if events == [] then ""
    else TextOf(events[..|events| - 1], id) + TextFor(events[|events| - 1], id)
  }

  /** The message ids, each where it first appears. */
  function Appearances(events: seq<Event>): seq<string> {
    if events == [] then []
    else
      var before, key := Appearances(events[..|events| - 1]), KeyOf(events[|events| - 1]);
      if key.None? || key.value in before then before else before + [key.value]
  }

  predicate Starts(event: Event, call: string) {
    event.ToolCallStart? && event.toolCallId == call
  }

  predicate HasStarted(events: seq<Event>, call: string) {
    exists e :: e in events && Starts(e, call)
  }

  /** The argument deltas of `call` that arrived after its start. */
  function ArgumentsOf(events: seq<Event>, call: string): string {
    if events == [] then ""
    else
      var before, last := events[..|events| - 1], events[|events| - 1];
      ArgumentsOf(before, call)
      + if last.ToolCallArgs? && last.toolCallId == call && HasStarted(before, call)
        then last.delta else ""
  }

  /** The tool calls started under message `id`, in order. */
  function CallsOf(events: seq<Event>, id: string): seq<(string, string)> {
    if events == [] then []
    else
      var last := events[|events| - 1];
      CallsOf(events[..|events| - 1], id)
      + if last.ToolCallStart? && ParentOf(last) == id then [(last.toolCallId, last.toolCallName)] else []
  }

  function Complete(calls: seq<(string, string)>, events: seq<Event>): seq<ToolCall> {
    seq(|calls|, i requires 0 <= i < |calls| => ToolCall(calls[i].0, calls[i].1, ArgumentsOf(events, calls[i].0)))
  }

  /** The first event that names message `id` settles who is speaking. */
  function OpenerOf(events: seq<Event>, id: string): Option<Event> {
    if events == [] then None
    else
      var earlier := OpenerOf(events[..|events| - 1], id);
      if earlier.Some? then earlier
      else if KeyOf(events[|events| - 1]) == Some(id) then Some(events[|events| - 1]) else None
  }

  function OpeningRole(opener: Event): string {
    match opener
    case TextMessageStart(_, role) => role
    case ToolCallResult(_, _, _) => "tool"
    case _ => "assistant"
  }

  function Answers(opener: Event): Option<string> {
    if opener.ToolCallResult? then Some(opener.toolCallId) else None
  }

  function Described(events: seq<Event>, id: string): Message {
    var opener := OpenerOf(events, id);
    Message(id,
            if opener.Some? then OpeningRole(opener.value) else "assistant",
            TextOf(events, id),
            Complete(CallsOf(events, id), events),
            if opener.Some? then Answers(opener.value) else None)
  }

  /** A TOOL_CALL_RESULT brings a message id not used before, and no tool call is started twice. */
  predicate FreshResults(events: seq<Event>) {
    forall i, j :: 0 <= i < j < |events| && events[j].ToolCallResult? ==> KeyOf(events[i]) != Some(events[j].messageId)
  }

  predicate StartedOnce(events: seq<Event>) {
    forall i, j :: 0 <= i < j < |events| && events[i].ToolCallStart? && events[j].ToolCallStart?
      ==> events[i].toolCallId != events[j].toolCallId
  }

  lemma {:induction false} AppearanceKeys(events: seq<Event>)
    ensures forall id :: id in Appearances(events) <==> exists i :: 0 <= i < |events| && KeyOf(events[i]) == Some(id)
    ensures forall id :: id in Appearances(events) <==> OpenerOf(events, id).Some?
    ensures NoDuplicates(Appearances(events))
  {
    if events != [] {
      var before := events[..|events| - 1];
      AppearanceKeys(before);
      forall id | id in Appearances(events)
        ensures exists i :: 0 <= i < |events| && KeyOf(events[i]) == Some(id)
      {
        if id in Appearances(before) {
          var i :| 0 <= i < |before| && KeyOf(before[i]) == Some(id);
          assert KeyOf(events[i]) == Some(id);
        }
      }
      forall i | 0 <= i < |events| && KeyOf(events[i]).Some? ensures KeyOf(events[i]).value in Appearances(events) {
        if i < |before| {
          assert KeyOf(before[i]) == KeyOf(events[i]);
        }
      }
    }
  }

  lemma {:induction false} NeverNamed(events: seq<Event>, id: string)
    requires id !in Appearances(events)
    ensures TextOf(events, id) == "" && CallsOf(events, id) == [] && OpenerOf(events, id).None?
  {
    if events != [] {
      NeverNamed(events[..|events| - 1], id);
    }
  }

  lemma {:induction false} NeverStarted(events: seq<Event>, call: string)
    requires !HasStarted(events, call)
    ensures ArgumentsOf(events, call) == ""
  {
    if events != [] {
      var before := events[..|events| - 1];
      assert forall e :: e in before ==> e in events;
      NeverStarted(before, call);
    }
  }

  predicate StartedUnder(events: seq<Event>, call: string, id: string) {
    exists i :: 0 <= i < |events| && Starts(events[i], call) && ParentOf(events[i]) == id
  }

  /** Every call listed under a message was started there. */
  lemma {:induction false} ListedCallsStarted(events: seq<Event>, id: string)
    ensures forall k :: 0 <= k < |CallsOf(events, id)| ==> StartedUnder(events, CallsOf(events, id)[k].0, id)
  {
    if events != [] {
      var before := events[..|events| - 1];
      ListedCallsStarted(before, id);
      forall k | 0 <= k < |CallsOf(events, id)| ensures StartedUnder(events, CallsOf(events, id)[k].0, id) {
        if k < |CallsOf(before, id)| {
          var i :| 0 <= i < |before| && Starts(before[i], CallsOf(before, id)[k].0) && ParentOf(before[i]) == id;
          assert events[i] == before[i];
        } else {
          var last := events[|events| - 1];
          assert CallsOf(events, id)[k] == (last.toolCallId, last.toolCallName);
          assert Starts(events[|events| - 1], CallsOf(events, id)[k].0);
        }
      }
    }
  }

  predicate DistinctCalls(calls: seq<(string, string)>) {
    forall i, j :: 0 <= i < j < |calls| ==> calls[i].0 != calls[j].0
  }

  lemma {:induction false} CallsAreDistinct(events: seq<Event>, id: string)
    requires StartedOnce(events)
    ensures DistinctCalls(CallsOf(events, id))
  {
    if events != [] {
      var before, n := events[..|events| - 1], |events| - 1;
      assert forall i :: 0 <= i < n ==> before[i] == events[i];
      CallsAreDistinct(before, id);
      ListedCallsStarted(before, id);
    }
  }

  /** Extending the one call with that id is the same as having one more delta to concatenate. */
  lemma {:induction false} ExtendedAt(calls: seq<ToolCall>, id: string, delta: string)
    requires forall i, j :: 0 <= i < j < |calls| ==> calls[i].id != calls[j].id
    ensures forall k :: 0 <= k < |calls| ==>
              Extended(calls, id, delta)[k]
              == if calls[k].id == id then calls[k].(arguments := calls[k].arguments + delta) else calls[k]
  {
    if calls != [] && calls[0].id != id {
      ExtendedAt(calls[1..], id, delta);
      forall k | 0 < k < |calls|
        ensures Extended(calls, id, delta)[k]
             == if calls[k].id == id then calls[k].(arguments := calls[k].arguments + delta) else calls[k]
      {
        assert calls[1..][k - 1] == calls[k];
      }
    }
  }

  /** The draft holds exactly the described messages. */
  ghost predicate Faithful(d: Draft, events: seq<Event>) {
    && d.order == Appearances(events)
    && (forall id :: id in d.messages <==> id in Appearances(events))
    && (forall id :: id in d.messages ==> d.messages[id] == Described(events, id))
    && (forall c :: c in d.parents <==> HasStarted(events, c))
    && (forall i :: 0 <= i < |events| && events[i].ToolCallStart? ==>
          events[i].toolCallId in d.parents && d.parents[events[i].toolCallId] == ParentOf(events[i]))
  }

  /** What one more event does to the descriptions. */
  lemma StartedGrows(before: seq<Event>, last: Event, c: string)
    ensures HasStarted(before + [last], c) <==> HasStarted(before, c) || Starts(last, c)
  {
    var events := before + [last];
    assert last == events[|before|];
    if HasStarted(before, c) {
      var e :| e in before && Starts(e, c);
      assert e in events;
    }
  }

  lemma DescribedGrows(before: seq<Event>, last: Event, id: string)
    requires !last.ToolCallArgs?
    requires last.ToolCallStart? ==> !HasStarted(before, last.toolCallId)
    ensures var was, now := Described(before, id), Described(before + [last], id);
      && now.content == was.content + TextFor(last, id)
      && now.toolCalls == was.toolCalls
           + (if last.ToolCallStart? && ParentOf(last) == id
              then [ToolCall(last.toolCallId, last.toolCallName, "")] else [])
      && now.id == was.id == id
      && (OpenerOf(before, id).Some? || KeyOf(last) != Some(id) ==> now.role == was.role && now.answers == was.answers)
      && (OpenerOf(before, id).None? && KeyOf(last) == Some(id) ==>
            now.role == OpeningRole(last) && now.answers == Answers(last))
  {
    var events := before + [last];
    assert events[..|events| - 1] == before;
    if last.ToolCallStart? {
      NeverStarted(before, last.toolCallId);
    }
    forall c ensures ArgumentsOf(events, c) == ArgumentsOf(before, c) {
    }
    var was := Described(before, id).toolCalls;
    assert Complete(CallsOf(before, id), events) == was;
    if last.ToolCallStart? && ParentOf(last) == id {
      assert Described(events, id).toolCalls == was + [ToolCall(last.toolCallId, last.toolCallName, "")];
    }
  }

  lemma ArgumentsGrow(before: seq<Event>, call: string, delta: string, id: string)
    requires StartedOnce(before)
    ensures var was, now := Described(before, id), Described(before + [ToolCallArgs(call, delta)], id);
      now == was.(toolCalls := if HasStarted(before, call) then Extended(was.toolCalls, call, delta) else was.toolCalls)
  {
    var last := ToolCallArgs(call, delta);
    var events := before + [last];
    assert events[..|events| - 1] == before;
    CallsAreDistinct(before, id);
    ExtendedAt(Described(before, id).toolCalls, call, delta);
    forall c ensures ArgumentsOf(events, c)
                  == if c == call && HasStarted(before, call) then ArgumentsOf(before, c) + delta
                     else ArgumentsOf(before, c) {
    }
    var was, now := Described(before, id).toolCalls, Described(events, id).toolCalls;
    assert CallsOf(events, id) == CallsOf(before, id);
    if !HasStarted(before, call) {
      assert forall k :: 0 <= k < |was| ==> now[k] == was[k];
      assert now == was;
    } else {
      assert forall k :: 0 <= k < |was| ==> now[k] == Extended(was, call, delta)[k];
      assert now == Extended(was, call, delta);
    }
  }

  /** Extending a call nobody listed changes nothing. */
  lemma {:induction false} ExtendedElsewhere(calls: seq<ToolCall>, id: string, delta: string)
    requires forall k :: 0 <= k < |calls| ==> calls[k].id != id
    ensures Extended(calls, id, delta) == calls
  {
    if calls != [] {
      ExtendedElsewhere(calls[1..], id, delta);
    }
  }

  lemma NotTwice(before: seq<Event>, last: Event)
    requires StartedOnce(before + [last]) && last.ToolCallStart?
    ensures !HasStarted(before, last.toolCallId)
  {
    var events := before + [last];
    forall e | e in before ensures !Starts(e, last.toolCallId) {
      var i :| 0 <= i < |before| && before[i] == e;
      assert events[i] == e && events[|before|] == last;
    }
  }

  lemma PrefixesBehave(before: seq<Event>, last: Event)
    requires StartedOnce(before + [last]) && FreshResults(before + [last])
    ensures StartedOnce(before) && FreshResults(before)
    ensures last.ToolCallResult? ==> last.messageId !in Appearances(before)
  {
    var events := before + [last];
    assert forall i :: 0 <= i < |before| ==> events[i] == before[i];
    AppearanceKeys(before);
    if last.ToolCallResult? {
      forall i | 0 <= i < |before| ensures KeyOf(before[i]) != Some(last.messageId) {
        assert events[i] == before[i] && events[|before|] == last;
      }
    }
  }

  lemma AppearancesGrow(before: seq<Event>, last: Event)
    ensures Appearances(before + [last])
         == if KeyOf(last).None? || KeyOf(last).value in Appearances(before) then Appearances(before)
            else Appearances(before) + [KeyOf(last).value]
    ensures forall id :: OpenerOf(before + [last], id) == (if OpenerOf(before, id).Some? then OpenerOf(before, id)
                           else if KeyOf(last) == Some(id) then Some(last) else None)
  {
    assert (before + [last])[..|before|] == before;
  }

  lemma FaithfulParents(d: Draft, before: seq<Event>, last: Event)
    requires Faithful(d, before) && Consistent(d) && StartedOnce(before + [last])
    ensures var next, events := Step(d, last), before + [last];
      && (forall c :: c in next.parents <==> HasStarted(events, c))
      && (forall i :: 0 <= i < |events| && events[i].ToolCallStart? ==>
            events[i].toolCallId in next.parents && next.parents[events[i].toolCallId] == ParentOf(events[i]))
  {
    hide Described, Extended, Appearances;
    var events := before + [last];
    forall c ensures c in Step(d, last).parents <==> HasStarted(events, c) {
      StartedGrows(before, last, c);
    }
    if last.ToolCallStart? {
      NotTwice(before, last);
    }
    assert forall i :: 0 <= i < |before| ==> events[i] == before[i];
  }

  lemma NothingYet(events: seq<Event>, id: string)
    requires id !in Appearances(events)
    ensures Described(events, id).content == "" && Described(events, id).toolCalls == []
  {
    NeverNamed(events, id);
  }

  lemma FaithfulOrder(d: Draft, before: seq<Event>, last: Event)
    requires Faithful(d, before) && Consistent(d)
    requires last.ToolCallResult? ==> last.messageId !in Appearances(before)
    ensures var next, events := Step(d, last), before + [last];
      next.order == Appearances(events) && forall id :: id in next.messages <==> id in Appearances(events)
  {
    AppearancesGrow(before, last);
    hide Described, Appearances, OpenerOf, Extended, HasStarted;
  }

  lemma FaithfulStep(d: Draft, before: seq<Event>, last: Event)
    requires Faithful(d, before) && Consistent(d) && StartedOnce(before + [last]) && FreshResults(before + [last])
    ensures Faithful(Step(d, last), before + [last])
  {
    var next, events := Step(d, last), before + [last];
    PrefixesBehave(before, last);
    FaithfulParents(d, before, last);
    FaithfulOrder(d, before, last);
    if last.ToolCallStart? {
      NotTwice(before, last);
    }
    forall id | id in Appearances(events) ensures id in next.messages && next.messages[id] == Described(events, id) {
      if last.ToolCallArgs? {
        FaithfulArguments(d, before, last, id);
      } else {
        FaithfulMessage(d, before, last, id);
      }
    }
    hide Step, Described, Appearances, HasStarted;
  }

  lemma FaithfulMessage(d: Draft, before: seq<Event>, last: Event, id: string)
    requires Faithful(d, before) && Consistent(d) && !last.ToolCallArgs?
    requires last.ToolCallStart? ==> !HasStarted(before, last.toolCallId)
    requires last.ToolCallResult? ==> last.messageId !in Appearances(before)
    requires id in Appearances(before + [last])
    ensures id in Step(d, last).messages && Step(d, last).messages[id] == Described(before + [last], id)
  {
    hide Described, Appearances, OpenerOf, HasStarted, TextOf, CallsOf;
    AppearancesGrow(before, last);
    AppearanceKeys(before);
    DescribedGrows(before, last, id);
    if id !in Appearances(before) {
      NothingYet(before, id);
    }
  }

  lemma FaithfulArguments(d: Draft, before: seq<Event>, last: Event, id: string)
    requires Faithful(d, before) && Consistent(d) && last.ToolCallArgs? && StartedOnce(before)
    requires id in Appearances(before + [last])
    ensures id in Step(d, last).messages && Step(d, last).messages[id] == Described(before + [last], id)
  {
    hide Described, Appearances, OpenerOf, HasStarted, Extended;
    var call := last.toolCallId;
    AppearancesGrow(before, last);
    ArgumentsGrow(before, call, last.delta, id);
    if HasStarted(before, call) && d.parents[call] != id {
      NotListedElsewhere(d, before, call, last.delta, id);
    }
  }

  /** A call started under one message is not listed under another. */
  lemma NotListedElsewhere(d: Draft, before: seq<Event>, call: string, delta: string, id: string)
    requires Faithful(d, before) && HasStarted(before, call) && d.parents[call] != id
    ensures Extended(Described(before, id).toolCalls, call, delta) == Described(before, id).toolCalls
  {
    hide Extended, OpenerOf, TextOf, CallsOf, Appearances, HasStarted, ArgumentsOf;
    var calls := CallsOf(before, id);
    ListedCallsStarted(before, id);
    forall k | 0 <= k < |calls| ensures calls[k].0 != call {
      assert StartedUnder(before, calls[k].0, id);
      var i :| 0 <= i < |before| && Starts(before[i], calls[k].0) && ParentOf(before[i]) == id;
      assert d.parents[before[i].toolCallId] == id;
    }
    ExtendedElsewhere(Described(before, id).toolCalls, call, delta);
  }

  lemma {:induction false} FoldIsFaithful(events: seq<Event>)
    requires StartedOnce(events) && FreshResults(events)
    ensures Faithful(Fold(events), events)
  {
    if events != [] {
      var before, last := events[..|events| - 1], events[|events| - 1];
      assert events == before + [last];
      PrefixesBehave(before, last);
      FoldIsFaithful(before);
      FaithfulStep(Fold(before), before, last);
    }
  }

  /** The messages come in order of first appearance, each with its own role, its own text deltas
      concatenated, and its own tool calls with theirs. */
  lemma ReductionIsFaithful(events: seq<Event>)
    requires StartedOnce(events) && FreshResults(events)
    ensures var ids := Appearances(events);
      Messages(events) == seq(|ids|, i requires 0 <= i < |ids| => Described(events, ids[i]))
  {
    FoldIsFaithful(events);
  }

  // --------------------------------------------------------------------------- where a tool call goes

  /** The message a call belongs to, as its start says: the parent it names, or the call's own. */
  predicate BelongsTo(start: Event, id: string)
    requires start.ToolCallStart?
  {
    && (start.parentMessageId.Some? && start.parentMessageId.value != "" ==> id == start.parentMessageId.value)
    && (start.parentMessageId == None || start.parentMessageId == Some("") ==> id == start.toolCallId)
  }

  /** Call number `l` of message number `k` has this id. */
  predicate ListedAt(messages: seq<Message>, k: nat, l: nat, call: string) {
    k < |messages| && l < |messages[k].toolCalls| && messages[k].toolCalls[l].id == call
  }

  lemma {:induction false} StartIsListed(events: seq<Event>, i: nat) returns (l: nat)
    requires i < |events| && events[i].ToolCallStart?
    ensures l < |CallsOf(events, ParentOf(events[i]))|
    ensures CallsOf(events, ParentOf(events[i]))[l] == (events[i].toolCallId, events[i].toolCallName)
  {
    var before := events[..|events| - 1];
    if i < |before| {
      l := StartIsListed(before, i);
    } else {
      l := |CallsOf(before, ParentOf(events[i]))|;
    }
  }

  /** Message number `k` of a reduction lists just the calls started under its id. */
  lemma ReducedAt(events: seq<Event>, k: nat)
    requires StartedOnce(events) && FreshResults(events) && k < |Messages(events)|
    ensures k < |Appearances(events)| && Messages(events)[k].id == Appearances(events)[k]
    ensures Messages(events)[k].toolCalls == Complete(CallsOf(events, Appearances(events)[k]), events)
  {
    ReductionIsFaithful(events);
    hide Fold, CallsOf, Appearances;
  }

  /** Where a call is listed, it was started under that message. */
  lemma ListedWhereStarted(events: seq<Event>, i: nat, k: nat, l: nat)
    requires StartedOnce(events) && FreshResults(events)
    requires i < |events| && events[i].ToolCallStart? && ListedAt(Messages(events), k, l, events[i].toolCallId)
    ensures k < |Appearances(events)| && Appearances(events)[k] == ParentOf(events[i])
    ensures l < |CallsOf(events, ParentOf(events[i]))|
    ensures CallsOf(events, ParentOf(events[i]))[l].0 == events[i].toolCallId
  {
    hide CallsOf, Appearances, Messages;
    ReducedAt(events, k);
    var id, call := Appearances(events)[k], events[i].toolCallId;
    ListedCallsStarted(events, id);
    assert StartedUnder(events, CallsOf(events, id)[l].0, id);
    var j :| 0 <= j < |events| && Starts(events[j], call) && ParentOf(events[j]) == id;
    assert j == i;
  }

  /** Each call is listed once in the whole thread: in the one message it belongs to, under its own name and with
      its own arguments. */
  lemma CallIsListedOnce(events: seq<Event>, i: nat) returns (k: nat, l: nat)
    requires StartedOnce(events) && FreshResults(events) && i < |events| && events[i].ToolCallStart?
    ensures var messages, start := Messages(events), events[i];
      && k < |messages| && BelongsTo(start, messages[k].id)
      && (forall other :: 0 <= other < |messages| && messages[other].id == messages[k].id ==> other == k)
      && l < |messages[k].toolCalls|
      && messages[k].toolCalls[l]
         == ToolCall(start.toolCallId, start.toolCallName, ArgumentsOf(events, start.toolCallId))
      && forall m, n :: 0 <= m && 0 <= n && ListedAt(messages, m, n, start.toolCallId) ==> m == k && n == l
  {
    hide CallsOf, Appearances, ArgumentsOf, Messages;
    var messages, start, id := Messages(events), events[i], ParentOf(events[i]);
    AppearanceKeys(events);
    assert KeyOf(events[i]) == Some(id);
    k :| 0 <= k < |Appearances(events)| && Appearances(events)[k] == id;
    assert |messages| == |Appearances(events)| by { ReductionIsFaithful(events); }
    ReducedAt(events, k);
    l := StartIsListed(events, i);
    CallsAreDistinct(events, id);
    forall m: nat, n: nat | ListedAt(messages, m, n, start.toolCallId) ensures m == k && n == l {
      ListedWhereStarted(events, i, m, n);
    }
    forall other: nat | other < |messages| && messages[other].id == messages[k].id ensures other == k {
      ReducedAt(events, other);
    }
  }

  /** Nothing is listed that was not started. */
  lemma ListedWasStarted(events: seq<Event>, k: nat, l: nat) returns (i: nat)
    requires StartedOnce(events) && FreshResults(events)
    requires k < |Messages(events)| && l < |Messages(events)[k].toolCalls|
    ensures i < |events| && events[i].ToolCallStart? && BelongsTo(events[i], Messages(events)[k].id)
    ensures events[i].toolCallId == Messages(events)[k].toolCalls[l].id
  {
    hide CallsOf, Appearances, ArgumentsOf, Messages;
    ReducedAt(events, k);
    var id := Appearances(events)[k];
    ListedCallsStarted(events, id);
    assert StartedUnder(events, CallsOf(events, id)[l].0, id);
    i :| 0 <= i < |events| && Starts(events[i], CallsOf(events, id)[l].0) && ParentOf(events[i]) == id;
  }

  // -------------------------------------------------------------------------- exchanging two events

  /** The message an event would open or change, in this draft. */
  function Touched(d: Draft, event: Event): Option<string> {
    if event.ToolCallArgs? then if event.toolCallId in d.parents then Some(d.parents[event.toolCallId]) else None
    else KeyOf(event)
  }

  function CallOf(event: Event): Option<string> {
    if event.ToolCallStart? || event.ToolCallArgs? then Some(event.toolCallId) else None
  }

  /** Two events about different messages and different tool calls. */
  predicate Independent(d: Draft, first: Event, second: Event) {
    && (Touched(d, first).None? || Touched(d, first) != Touched(d, second))
    && (CallOf(first).None? || CallOf(first) != CallOf(second))
  }

  /** The place in the order an event takes, if it takes one. */
  function Newcomer(d: Draft, event: Event): seq<string> {
    if KeyOf(event).Some? && (event.ToolCallResult? || KeyOf(event).value !in d.messages)
    then [KeyOf(event).value] else []
  }

  predicate SameButOrder(a: Draft, b: Draft) {
    a.messages == b.messages && a.parents == b.parents && multiset(a.order) == multiset(b.order)
  }

  lemma StepEffect(d: Draft, event: Event)
    requires Consistent(d)
    ensures var next := Step(d, event);
      && next.order == d.order + Newcomer(d, event)
      && (forall id :: id in d.messages && Touched(d, event) != Some(id) ==>
            id in next.messages && next.messages[id] == d.messages[id])
      && (forall id :: id in next.messages && Touched(d, event) != Some(id) ==> id in d.messages)
      && next.parents == (if event.ToolCallStart? then d.parents[event.toolCallId := ParentOf(event)] else d.parents)
  {
    hide Extended;
  }

  /** What an event makes of its own message depends on nothing else in the draft. */
  lemma StepIsLocal(d: Draft, e: Draft, event: Event, id: string)
    requires Consistent(d) && Consistent(e) && Touched(d, event) == Touched(e, event) == Some(id)
    requires id in d.messages <==> id in e.messages
    requires id in d.messages ==> d.messages[id] == e.messages[id]
    ensures id in Step(d, event).messages && id in Step(e, event).messages
    ensures Step(d, event).messages[id] == Step(e, event).messages[id]
  {
    hide Extended;
  }

  lemma IndependentStaysSo(d: Draft, first: Event, second: Event)
    requires Consistent(d) && Independent(d, first, second)
    ensures Touched(Step(d, first), second) == Touched(d, second)
    ensures Newcomer(Step(d, first), second) == Newcomer(d, second)
  {
    StepEffect(d, first);
    hide Step;
  }

  /** A message the second event does not touch is the same with or without it, before or after the first. */
  lemma UntouchedBySecond(d: Draft, first: Event, second: Event, id: string)
    requires Consistent(d) && Independent(d, first, second) && Touched(d, second) != Some(id)
    ensures var one, other := Step(d, first), Step(d, second);
      var a, b := Step(one, second), Step(other, first);
      && (id in a.messages <==> id in b.messages)
      && (id in a.messages ==> a.messages[id] == b.messages[id])
  {
    var one, other := Step(d, first), Step(d, second);
    IndependentStaysSo(d, first, second);
    IndependentStaysSo(d, second, first);
    StepEffect(d, first);
    StepEffect(d, second);
    StepEffect(one, second);
    StepEffect(other, first);
    if Touched(d, first) == Some(id) {
      StepIsLocal(d, other, first, id);
    }
    hide Step, Touched;
  }

  lemma EitherOrderSameMessages(d: Draft, first: Event, second: Event)
    requires Consistent(d) && Independent(d, first, second)
    ensures Step(Step(d, first), second).messages == Step(Step(d, second), first).messages
  {
    hide Step, Touched, Consistent;
    var a, b := Step(Step(d, first), second).messages, Step(Step(d, second), first).messages;
    forall id ensures (id in a <==> id in b) && (id in a ==> a[id] == b[id]) {
      if Touched(d, second) != Some(id) {
        UntouchedBySecond(d, first, second, id);
      } else {
        UntouchedBySecond(d, second, first, id);
      }
    }
  }

  lemma IndependentEventsCommute(d: Draft, first: Event, second: Event)
    requires Consistent(d) && Independent(d, first, second)
    ensures var a, b := Step(Step(d, first), second), Step(Step(d, second), first);
      && a.messages == b.messages && a.parents == b.parents
      && a.order == d.order + (Newcomer(d, first) + Newcomer(d, second))
      && b.order == d.order + (Newcomer(d, second) + Newcomer(d, first))
  {
    hide Step, Touched, Newcomer, Consistent;
    EitherOrderSameMessages(d, first, second);
    IndependentStaysSo(d, first, second);
    IndependentStaysSo(d, second, first);
    StepEffect(d, first);
    StepEffect(d, second);
    StepEffect(Step(d, first), second);
    StepEffect(Step(d, second), first);
  }

  lemma SameButOrderStep(a: Draft, b: Draft, event: Event)
    requires Consistent(a) && Consistent(b) && SameButOrder(a, b)
    ensures SameButOrder(Step(a, event), Step(b, event))
  {
    StepEffect(a, event);
    StepEffect(b, event);
    hide Extended;
  }

  lemma FoldOneMore(events: seq<Event>, event: Event)
    ensures Fold(events + [event]) == Step(Fold(events), event)
  {
    assert (events + [event])[..|events|] == events;
  }

  lemma {:induction false} SameButOrderAfter(a: seq<Event>, b: seq<Event>, rest: seq<Event>)
    requires SameButOrder(Fold(a), Fold(b))
    ensures SameButOrder(Fold(a + rest), Fold(b + rest))
    ensures Fold(a) == Fold(b) ==> Fold(a + rest) == Fold(b + rest)
  {
    hide Step, Fold, SameButOrder;
    if rest == [] {
      assert a + rest == a && b + rest == b;
    } else {
      var before, last := rest[..|rest| - 1], rest[|rest| - 1];
      SameButOrderAfter(a, b, before);
      assert a + rest == (a + before) + [last] && b + rest == (b + before) + [last];
      FoldOneMore(a + before, last);
      FoldOneMore(b + before, last);
      SameButOrderStep(Fold(a + before), Fold(b + before), last);
    }
  }

  /** Exchanging two adjacent events of different messages never changes a message, whatever follows; the
      order changes only when both messages first appear there. */
  lemma ExchangeKeepsMessages(before: seq<Event>, first: Event, second: Event, rest: seq<Event>)
    requires Independent(Fold(before), first, second)
    ensures var a, b := Fold(before + [first, second] + rest), Fold(before + [second, first] + rest);
      && SameButOrder(a, b)
      && (Newcomer(Fold(before), first) == [] || Newcomer(Fold(before), second) == [] ==> a == b)
  {
    hide Step, Fold, Newcomer, Touched, Consistent;
    IndependentEventsCommute(Fold(before), first, second);
    PairFolded(before, first, second);
    PairFolded(before, second, first);
    SameButOrderAfter(before + [first, second], before + [second, first], rest);
  }

  lemma PairFolded(before: seq<Event>, first: Event, second: Event)
    ensures Fold(before + [first, second]) == Step(Step(Fold(before), first), second)
  {
    assert before + [first, second] == (before + [first]) + [second];
    FoldOneMore(before, first);
    FoldOneMore(before + [first], second);
  }
}

/** AG-UI events as funduq branches on them, and the pause decision of `pause.py`. */
module Events {
  import opened Basics

  datatype Outcome =
    | NoOutcome
    | Success
    | Interrupt(interrupts: Option<seq<string>>)

  /** One constructor per event type funduq looks into. `Unmapped` is every other valid or
      newer event; `Invalid` is a known type that fails validation, or an event with no type. */
  datatype Event =
    | RunStarted
    | RunFinished(outcome: Outcome)
    | RunError(message: string)
    | TextMessageStart(messageId: string, role: string)
    | TextMessageContent(messageId: string, delta: string, content: Option<string>)
    | TextMessageChunk(chunkId: Option<string>, chunkDelta: Option<string>, content: Option<string>)
    | ToolCallStart(toolCallId: string, toolCallName: string, parentMessageId: Option<string>)
    | ToolCallArgs(toolCallId: string, delta: string)
    | ToolCallResult(messageId: string, toolCallId: string, result: string)
    | Unmapped(kind: string, body: string)
    | Invalid(body: string)

  /** The interrupts of a RUN_FINISHED that is asking, possibly none of them; None for every other event. */
  function InterruptOutcomeOf(event: Event): Option<seq<string>> {
    match event
    case RunFinished(Interrupt(Some(interrupts))) => Some(interrupts)
    case RunFinished(Interrupt(None)) => Some([])
    case _ => None
  }

  /** The event ends its stream with a question. */
  predicate Asks(event: Event) {
    event.RunFinished? && event.outcome.Interrupt?
  }

  /** What an asking event asks; an absent list asks nothing in particular. */
  function Questions(event: Event): seq<string>
    requires Asks(event)
  {
    if event.outcome.interrupts.Some? then event.outcome.interrupts.value else []
  }

  /** A run's pipeline commands. */
  datatype Command =
    | Claim
    | RelayEvent(event: Event)
    | FinishStream
    | RequestCancel
    | Fail(reason: string)

  const MALFORMED_REASON := "provider sent a malformed AG-UI event"

  predicate Malformed(cmd: Command) {
    cmd.RelayEvent? && cmd.event.Invalid?
  }

  /** The commands a pipeline stops after; a cancel only if nobody has claimed the run. */
  predicate Closes(cmd: Command, claimed: bool) {
    cmd.FinishStream? || cmd.Fail? || (cmd.RequestCancel? && !claimed)
  }
}

/** The records the Chat inbox stores: backend/claude_hub/models/chat_message.py.

    Optional strings are modelled as strings with "" for `None`: every place that reads one only asks
    whether it is truthy.  `body` is the UTF-8 encoding of the message, so its length is a byte count. */
module ChatMessage {
  import opened Options

  datatype State = Queued | Waiting | Dispatching | Accepted | Completed | Failed | Cancelled | Uncertain {
    predicate Terminal() { Completed? || Failed? || Cancelled? }
    /** Selected by a pump and possibly at the provider. */
    predicate InFlight() { Dispatching? || Accepted? || Uncertain? }
    predicate Unsent() { Queued? || Waiting? }
  }

  /** Why an envelope waits or failed: a text passed on from a callback, or one of the inbox's own. */
  datatype Note =
    | NoNote | Text(text: string)
    | IncarnationChanged        // "Chat incarnation/backend changed"
    | SubmissionUnconfirmed     // "Submission may have reached provider; no automatic replay"
    | WaitingForResponse        // "waiting for the current Chat response"
    | WaitingForRuntime         // "Waiting for Chat runtime"
    | RuntimeUnavailable        // "Chat runtime unavailable after 12 attempts"
    | RecoveredBeforeDispatch   // "recovered before provider dispatch"
    | StoppedReporting          // "Chat turn stopped reporting while it was in flight"
    | OwnershipLost             // "Accepted turn lost runtime ownership; reconcile before retry"
    | NeedsReconciliation       // "Provider delivery needs reconciliation; no automatic replay"
    | RecoveredAnswer           // "Recovered before answer submission"
    | AnswerUnreconciled        // "Answer delivery needs reconciliation"
    | QuestionBusy              // "question_busy"
    | AnswerUnconfirmed         // "Question answer could not be confirmed"

  datatype Kind = Message | QuestionAnswer

  /** `f"{incarnation}:{epoch}"`, or the empty string of a scheduled intent admitted without a target. */
  datatype Incarnation = Unset | At(base: string, epoch: nat)

  datatype Envelope = Envelope(
    id: string, callId: string, tab: string, turn: string, kind: Kind, questionRef: string,
    state: State, waitingReason: Note, error: Note, updatedAt: int,
    principal: string, incarnation: Incarnation, fingerprint: string, body: string,
    sequence: int, attempts: int, started: bool, expired: bool,
    scheduled: bool, recoveryCheckedAt: Option<int>,
    adopted: bool)  // history variable: in flight ever since a scheduler admitted it that way
  {
    /** `ChatMessageEnvelope.blocks_queue`. */
    predicate Blocks() { !state.Terminal() && !(scheduled && state.Uncertain?) }

    /** A direct send, the kind whose call id is an idempotency key. */
    predicate Direct() { kind.Message? && !scheduled }

    /** Counts against its tab as one that a provider may be working on. */
    predicate Underway() { kind.Message? && Blocks() && state.InFlight() }

    /** Holds its tab because this inbox dispatched it, rather than having been admitted in flight. */
    predicate HoldsTab() { Underway() && !adopted }

    /** A message nothing more is expected of: it is finished, or scheduled and uncertain. */
    predicate AtRest() { kind.Message? && !Blocks() }

    /** A scheduled message whose delivery is uncertain: it blocks nothing, and no pass reads evidence for it. */
    predicate InDoubt() { kind.Message? && scheduled && state.Uncertain? }

    /** How far delivery has gone; it never goes back once submission has started. */
    function Progress(): nat {
      if state.Unsent() then 0
      else if state.Dispatching? then 1
      else if kind.QuestionAnswer? || state.Accepted? then 2
      else if state.Uncertain? then 3
      else 4
    }
  }

  datatype QuestionState = Open | Claimed | Resolved | Stale | Doubtful

  datatype Mode = Native | FollowUp

  /** `ChatQuestion`; `Doubtful` is its state "uncertain", `terminal` says its session is a terminal tab. */
  datatype Question = Question(
    ref: string, tab: string, terminal: bool, incarnation: Incarnation, turn: string, mode: Mode,
    createdAt: int, prompt: string, options: seq<string>, replyText: string, digests: set<string>,
    state: QuestionState, answerId: Option<string>)
  {
    /** Does it still carry texts, or digests of the actions on its mirrored card? */
    predicate Worded() { prompt != "" || options != [] || replyText != "" || digests != {} }

    function Faded(): Question { this.(prompt := "", options := [], replyText := "", digests := {}) }
  }
}

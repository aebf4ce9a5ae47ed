/** The fate of one stream entry: given to its handler or not, and what becomes of it then. */
module Dispatch {
  import opened Common
  import opened StreamFields
  import opened DeadLetters

  type StreamId = nat

  /** `fields` is absent when the stream was trimmed before the entry was processed. */
  datatype Entry = Entry(id: StreamId, fields: Option<Fields>)

  /** What a handler does with an event: throwing means a passing failure. */
  datatype Outcome = Handled | Rejected(why: string, cause: Option<string>) | Threw(error: string)

  datatype Settlement =
    | Done
    | Skipped
    | Retry(error: string)
    | Dead(reason: Reason, attempts: nat, error: string)

  type DeadSettlement = s: Settlement | s.Dead? witness Dead(Trimmed, 0, TRIMMED_TEXT)

  datatype Rules = Rules(schema: Schema, topics: set<string>, maxDeliveries: nat)

  datatype Verdict = Settled(settlement: Settlement) | GiveToHandler(envelope: Envelope)

  const TRIMMED_TEXT := "kayit islenmeden akistan kirpildi"
  const NO_TOPIC_TEXT := "kayitta konu alani yok"
  const NOT_GIVEN_TEXT := "deneme hakki onceki teslimlerde bitti; isleyiciye verilmedi"
  const NO_ENVELOPE_TEXT := "Stream kaydi olay zarfina uymuyor"

  /** The message and the details of the parse error. */
  function ParseErrorText(schema: Schema, issues: seq<string>): string {
    var paths := seq(|issues|, i requires 0 <= i < |issues| => JsonText(issues[i]));
    NO_ENVELOPE_TEXT + " " + schema.stringify(JsonObject(map["issues" := JsonArray(paths)]))
  }

  function RejectionText(why: string, cause: Option<string>): string {
    if cause.None? then why else why + ": " + cause.value
  }

  /** Everything decided before a handler is involved. */
  function Examine(rules: Rules, entry: Entry, attempt: nat): Verdict {
    if entry.fields.None? then Settled(Dead(Trimmed, 0, TRIMMED_TEXT))
    else
      var topic := PeekEnvelope(entry.fields.value).topic;
      if topic.None? then Settled(Dead(Malformed, 0, NO_TOPIC_TEXT))
      else if topic.value !in rules.topics then Settled(Skipped)
      else match FromStreamFields(rules.schema, entry.fields.value)
        case Invalid(issues) => Settled(Dead(Malformed, 0, ParseErrorText(rules.schema, issues)))
        case Parsed(envelope) =>
          if attempt > rules.maxDeliveries then Settled(Dead(Exhausted, attempt - 1, NOT_GIVEN_TEXT))
          else GiveToHandler(envelope)
  }

  /** What the handler's answer makes of the entry. */
  function Conclude(rules: Rules, attempt: nat, outcome: Outcome): Settlement {
    match outcome
    case Handled => Done
    case Rejected(why, cause) => Dead(RejectedReason, attempt, RejectionText(why, cause))
    case Threw(error) => if attempt >= rules.maxDeliveries then Dead(Exhausted, attempt, error) else Retry(error)
  }

  /** The settlement when the handler, if it is called, answers `outcome`. */
  function SettlementOf(rules: Rules, entry: Entry, attempt: nat, outcome: Outcome): Settlement {
    match Examine(rules, entry, attempt)
    case Settled(settlement) => settlement
    case GiveToHandler(_) => Conclude(rules, attempt, outcome)
  }

  /** The entry is one the group does not listen to. */
  predicate Unlistened(rules: Rules, fields: Fields) {
    var topic := ValueOf(fields, TOPIC);
    topic.Some? && topic.value !in rules.topics
  }

  /** A handler sees exactly the readable entries of its topics, and never past the delivery limit. */
  lemma HandlerSeesExactly(rules: Rules, entry: Entry, attempt: nat)
    ensures Examine(rules, entry, attempt).GiveToHandler?
       <==> && entry.fields.Some?
            && FromStreamFields(rules.schema, entry.fields.value).Parsed?
            && FromStreamFields(rules.schema, entry.fields.value).envelope.topic in rules.topics
            && attempt <= rules.maxDeliveries
  {
    if entry.fields.Some? {
      PeekAgreesWithParse(rules.schema, entry.fields.value);
    }
  }

  /** Entries of other topics are skipped whatever the attempt; nothing else is. */
  lemma SkippedExactlyWhenUnlistened(rules: Rules, entry: Entry, attempt: nat, outcome: Outcome)
    ensures SettlementOf(rules, entry, attempt, outcome).Skipped?
       <==> entry.fields.Some? && Unlistened(rules, entry.fields.value)
    ensures entry.fields.Some? && Unlistened(rules, entry.fields.value) ==>
            !Examine(rules, entry, attempt).GiveToHandler?
  {
  }

  /** An entry comes back only when its handler threw below the delivery limit. */
  lemma RetriedExactlyWhenThrownEarly(rules: Rules, entry: Entry, attempt: nat, outcome: Outcome)
    ensures SettlementOf(rules, entry, attempt, outcome).Retry?
       <==> Examine(rules, entry, attempt).GiveToHandler? && outcome.Threw? && attempt < rules.maxDeliveries
  {
  }

  /** A handler gets to see the entry, and answers. */
  predicate IsGiven(rules: Rules, entry: Entry, attempt: nat) {
    && entry.fields.Some? && attempt <= rules.maxDeliveries
    && var parsed := FromStreamFields(rules.schema, entry.fields.value);
    parsed.Parsed? && parsed.envelope.topic in rules.topics
  }

  /** The entry is of a topic the group listens to, and cannot be read. */
  predicate IsGarbled(rules: Rules, fields: Fields) {
    var topic := ValueOf(fields, TOPIC);
    topic.None? || (topic.value in rules.topics && FromStreamFields(rules.schema, fields).Invalid?)
  }

  /** Each reason of a dead letter, and the attempts it counts: those made before, and this one if it was made. */
  lemma DeadReasonsExactly(rules: Rules, entry: Entry, attempt: nat, outcome: Outcome)
    ensures var s := SettlementOf(rules, entry, attempt, outcome);
            && (s.Dead? && s.reason == Trimmed <==> entry.fields.None?)
            && (s.Dead? && s.reason == Malformed <==> entry.fields.Some? && IsGarbled(rules, entry.fields.value))
            && (s.Dead? && s.reason == RejectedReason <==> IsGiven(rules, entry, attempt) && outcome.Rejected?)
            && (s.Dead? && s.reason == Exhausted
                <==> || (IsGiven(rules, entry, attempt) && outcome.Threw? && attempt == rules.maxDeliveries)
                     || (attempt > rules.maxDeliveries && IsGiven(rules, entry, rules.maxDeliveries)))
            && (s.Done? <==> IsGiven(rules, entry, attempt) && outcome.Handled?)
    ensures var s := SettlementOf(rules, entry, attempt, outcome);
            s.Dead? ==>
              match s.reason
              case Trimmed => s.attempts == 0
              case Malformed => s.attempts == 0
              case RejectedReason => s.attempts == attempt && outcome.why <= s.error
              case Exhausted =>
                if attempt > rules.maxDeliveries then s.attempts == attempt - 1
                else s.attempts == attempt && outcome == Threw(s.error)
  {
    if entry.fields.Some? {
      PeekAgreesWithParse(rules.schema, entry.fields.value);
    }
  }

  datatype HandlerCall = HandlerCall(id: StreamId, envelope: Envelope, attempt: nat)

  /** The handlers of a group. What a call answers may depend on everything called before. */
  class Handlers {
    const answers: (seq<HandlerCall>, HandlerCall) -> Outcome
    var calls: seq<HandlerCall>

    constructor (answers: (seq<HandlerCall>, HandlerCall) -> Outcome)
      ensures this.answers == answers && calls == []
    {
      this.answers := answers;
      calls := [];
    }

    method Handle(call: HandlerCall) returns (outcome: Outcome)
      modifies this
      ensures calls == old(calls) + [call] && outcome == answers(old(calls), call)
    {
      outcome := answers(calls, call);
      calls := calls + [call];
    }
  }

  method DispatchEntry(rules: Rules, entry: Entry, attempt: nat, handlers: Handlers) returns (settlement: Settlement)
    modifies handlers
    ensures match Examine(rules, entry, attempt)
            case Settled(s) => settlement == s && handlers.calls == old(handlers.calls)
            case GiveToHandler(envelope) =>
              var call := HandlerCall(entry.id, envelope, attempt);
              && handlers.calls == old(handlers.calls) + [call]
              && settlement == Conclude(rules, attempt, handlers.answers(old(handlers.calls), call))
  {
    if entry.fields.None? {
      return Dead(Trimmed, 0, TRIMMED_TEXT);
    }
    var peek := PeekEnvelope(entry.fields.value);
    if peek.topic.None? {
      return Dead(Malformed, 0, NO_TOPIC_TEXT);
    }
    if peek.topic.value !in rules.topics {
      return Skipped;
    }
    var parsed := FromStreamFields(rules.schema, entry.fields.value);
    if parsed.Invalid? {
      return Dead(Malformed, 0, ParseErrorText(rules.schema, parsed.issues));
    }
    if attempt > rules.maxDeliveries {
      return Dead(Exhausted, attempt - 1, NOT_GIVEN_TEXT);
    }
    var outcome := handlers.Handle(HandlerCall(entry.id, parsed.envelope, attempt));
    match outcome {
      case Handled => return Done;
      case Rejected(why, cause) => return Dead(RejectedReason, attempt, RejectionText(why, cause));
      case Threw(error) =>
        if attempt >= rules.maxDeliveries {
          return Dead(Exhausted, attempt, error);
        }
        return Retry(error);
    }
  }
}

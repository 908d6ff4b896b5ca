/** What a caller learns besides the content: the error of a stream that failed, and the usage,
    the response id and the reason that its last part carries. For every event sequence. */
module Failures {
  import opened Common
  import opened ResponseStream
  import opened Collector

  // ---------------------------------------------------------------- errors

  /** The message of an event that reports a failure. */
  function Message(e: Event): Option<string> {
    match e
    case Failed(Some(message)) => Some(message)
    case Failed(None) => Some("Response failed")
    case Error(text) => Some(text)
    case _ => None
  }

  /** The first failure is event `i`. */
  ghost predicate FailsFirst(h: seq<Event>, i: nat) {
    i < |h| && Message(h[i]).Some? && forall j | 0 <= j < i :: Message(h[j]).None?
  }

  function FirstMessage(h: seq<Event>): Option<string> {
    if h == [] then None
    else if FirstMessage(Front(h)).Some? then FirstMessage(Front(h))
    else Message(Last(h))
  }

  lemma {:induction false} FirstMessageIs(h: seq<Event>)
    ensures FirstMessage(h).None? <==> forall i | 0 <= i < |h| :: Message(h[i]).None?
    ensures forall i: nat | FailsFirst(h, i) :: FirstMessage(h) == Message(h[i])
    decreases |h|
  {
    hide Message;
    if h != [] {
      var n := |h| - 1;
      FirstMessageIs(Front(h));
      forall i: nat | FailsFirst(h, i) ensures FirstMessage(h) == Message(h[i]) {
        if i < n {
          assert FailsFirst(Front(h), i);
        }
      }
      assert FirstMessage(h).None? ==> forall i | 0 <= i < n :: Message(Front(h)[i]).None?;
      assert forall i | 0 <= i < n :: Front(h)[i] == h[i];
    }
  }

  /** An event puts out an error part if it reports a failure, and nothing else then. */
  lemma ErrorOfEvent(s: State, e: Event)
    ensures FirstError(MapEvent(s, e).1) == Message(e)
    ensures Message(e).Some? ==> MapEvent(s, e).1 == [ErrorPart(Message(e).value)]
  {
    hide NumberedInt, Numbered, FirstError;
    var parts := MapEvent(s, e).1;
    if Message(e).Some? {
      ErrorOfOne(parts[0]);
    } else {
      NoErrorFound(parts);
    }
  }

  lemma {:induction false} ErrorOfEmitted(h: seq<Event>)
    ensures FirstError(Emitted(h)) == FirstMessage(h)
    decreases |h|
  {
    hide MapEvent, Message;
    if h != [] {
      ErrorOfEmitted(Front(h));
      ErrorOfEvent(After(Front(h)), Last(h));
      ErrorOfBoth(Emitted(Front(h)), MapEvent(After(Front(h)), Last(h)).1);
    }
  }

  lemma {:induction false} NoErrorInFlush(s: State, order: seq<int>)
    ensures forall p | p in FlushCalls(s, order).1 :: !p.ErrorPart?
    decreases order
  {
    if order != [] {
      NoErrorInFlush(FlushOne(s, order[0]).0, order[1..]);
    }
  }

  /** The collector throws exactly when the stream reports a failure, and then the message of the
      first one, whatever else the stream contains. */
  lemma FailuresAreThrown(h: seq<Event>)
    ensures Generated(Output(h)).Thrown? <==> exists e :: e in h && (e.Failed? || e.Error?)
    ensures forall i: nat | FailsFirst(h, i) :: Generated(Output(h)) == Thrown(Message(h[i]).value)
  {
    hide Emitted, FlushCalls, FirstMessage, CollectAll;
    ErrorOfEmitted(h);
    FirstMessageIs(h);
    var s := After(h);
    NoErrorInFlush(s.(openTextId := None), s.toolArgs.order);
    NoErrorFound(Ending(s));
    ErrorOfBoth(Emitted(h), Ending(s));
    assert (exists e :: e in h && (e.Failed? || e.Error?)) <==> (exists i :: 0 <= i < |h| && Message(h[i]).Some?);
  }

  // ---------------------------------------------------------------- the last part

  /** The response that an event brings along. */
  function ResponseOf(e: Event): Option<Response> {
    match e
    case Progress(response) => response
    case Incomplete(response) => response
    case Completed(response) => response
    case _ => None
  }

  /** The last response id that is not empty. */
  function LastId(h: seq<Event>): Option<string> {
    if h == [] then None
    else
      var r := ResponseOf(Last(h));
      if r.Some? && r.value.id.Some? && r.value.id.value != "" then r.value.id else LastId(Front(h))
  }

  /** The last usage that came with the end of a response. */
  function LastUsage(h: seq<Event>): Option<Usage> {
    if h == [] then None
    else
      var r := ResponseOf(Last(h));
      if !Last(h).Progress? && r.Some? && r.value.usage.Some? then r.value.usage else LastUsage(Front(h))
  }

  const STATUSES := map["completed" := Stop, "cancelled" := Stop, "failed" := ErrorReason, "incomplete" := Length]

  /** What an event that ends a response says about its reason. */
  function ReasonOf(e: Event): Option<FinishReason> {
    match e
    case Completed(Some(r)) =>
      Some(if r.status.Some? && r.status.value in STATUSES then STATUSES[r.status.value] else OtherReason)
    case Completed(None) => Some(OtherReason)
    case Incomplete(Some(r)) => Some(if r.incompleteReason == Some("max_output_tokens") then Length else OtherReason)
    case Incomplete(None) => Some(OtherReason)
    case Failed(_) => Some(ErrorReason)
    case Error(_) => Some(ErrorReason)
    case _ => None
  }

  function LastReason(h: seq<Event>): Option<FinishReason> {
    if h == [] then None
    else if ReasonOf(Last(h)).Some? then ReasonOf(Last(h))
    else LastReason(Front(h))
  }

  /** What an event leaves alone, and what it takes from its response. */
  lemma EventTold(s: State, e: Event)
    ensures
      var s' := MapEvent(s, e).0;
      var r := ResponseOf(e);
      && s'.responseId == (if r.Some? && Truthy(r.value.id) then r.value.id else s.responseId)
      && s'.usage == (if !e.Progress? && r.Some? && r.value.usage.Some? then r.value.usage else s.usage)
  {
    hide NumberedInt, Numbered;
  }

  lemma StatusTold(response: Option<Response>)
    ensures ReasonOf(Completed(response)) == Some(StatusReason(response))
    ensures ReasonOf(Incomplete(response)) == Some(IncompleteReason(response))
  {
  }

  lemma NeverToolCalls(e: Event)
    ensures ReasonOf(e) != Some(ToolCalls)
  {
  }

  lemma ReasonTold(s: State, e: Event)
    ensures
      MapEvent(s, e).0.finishReason == if ReasonOf(e).Some? then ReasonOf(e) else s.finishReason
  {
    hide NumberedInt, Numbered, StatusReason, IncompleteReason;
    if e.Completed? || e.Incomplete? {
      hide ReasonOf;
      StatusTold(e.response);
    }
  }

  lemma {:induction false} ToldSoFar(h: seq<Event>)
    ensures var s := After(h);
      s.responseId == LastId(h) && s.usage == LastUsage(h) && s.finishReason == LastReason(h)
    ensures LastId(h) != Some("") && LastReason(h) != Some(ToolCalls)
    decreases |h|
  {
    if h != [] {
      hide MapEvent, ReasonOf;
      ToldSoFar(Front(h));
      EventTold(After(Front(h)), Last(h));
      ReasonTold(After(Front(h)), Last(h));
      NeverToolCalls(Last(h));
    }
  }

  lemma {:induction false} FlushTold(s: State, order: seq<int>)
    ensures var s' := FlushCalls(s, order).0;
      s'.responseId == s.responseId && s'.usage == s.usage && s'.finishReason == s.finishReason
    decreases order
  {
    if order != [] {
      FlushTold(FlushOne(s, order[0]).0, order[1..]);
    }
  }

  /** The last part tells the last usage, the last response id and the last reason; a reason stop
      may have become tool-calls, and none at all is unknown. */
  lemma LastPartTells(h: seq<Event>)
    ensures Output(h) != [] && Last(Output(h)).Finish?
    ensures Last(Output(h)).usage == LastUsage(h) && Last(Output(h)).responseId == LastId(h)
    ensures
      match LastReason(h)
      case None => Last(Output(h)).reason == Unknown
      case Some(Stop) => Last(Output(h)).reason in {Stop, ToolCalls}
      case Some(reason) => Last(Output(h)).reason == reason
  {
    hide Emitted, FlushCalls, After, LastId, LastUsage, LastReason;
    ToldSoFar(h);
    var s := After(h);
    FlushTold(s.(openTextId := None), s.toolArgs.order);
  }
}

/** The assistant side panel (`AIPanel.jsx`): the chat transcript and its send
    handler, the two cached loaders for insights and predictions, the tab
    effect that triggers them, and the two regenerate buttons. Each request's
    settled outcome is a parameter; the part of a handler before its `await`
    and the part after run as one step, except for the send handler, which is
    also given as its two halves. */
module AiPanel {
  import opened Wrappers
  import opened Text
  import opened JsValues
  import opened ApiClient

  const Greeting := "¡Hola! Soy tu analista de datos IA. Preguntame lo que necesites sobre tus leads, gestiones y conversiones. 🚀"
  const ChatError := "Error al procesar tu pregunta. Intentá de nuevo."

  /** One entry of the transcript; the content of a reply is whatever
      `res.response` was, possibly `undefined`. */
  datatype ChatMsg = ChatMsg(role: string, content: Json)

  datatype Tab = ChatTab | InsightsTab | PredictionsTab

  /** The message a history entry is sent as: `JSON.stringify` leaves out a
      property whose value is `undefined`. */
  function MsgJson(m: ChatMsg): (j: Json)
    ensures j.Obj? && Lookup(j.fields, "role") == Str(m.role)
    ensures Lookup(j.fields, "content") == m.content
  {
    Obj([("role", Str(m.role))] + if m.content.Undefined? then [] else [("content", m.content)])
  }

  /** `messages.slice(1)`, as sent. */
  function ChatHistory(messages: seq<ChatMsg>): (h: seq<Json>)
    ensures |messages| > 0 ==> |h| == |messages| - 1
    ensures |messages| == 0 ==> h == []
    ensures forall i :: 0 <= i < |h| ==> h[i] == MsgJson(messages[i + 1])
  {
    if |messages| == 0 then [] else seq(|messages| - 1, i requires 0 <= i < |messages| - 1 => MsgJson(messages[i + 1]))
  }

  /** The guard of `sendMessage`: some non-blank input and no send in flight. */
  predicate Accepts(input: string, sending: bool)
  {
    Strip(input, EcmaScript) != "" && !sending
  }

  /** The assistant's entry after the chat request settles: `res.response`, or
      the fixed error when the request fails or `res` is `null`. */
  function ReplyOf(o: Outcome): (m: ChatMsg)
    ensures m.role == "assistant"
    ensures o.Success? && o.value.Obj? ==> m.content == Lookup(o.value.fields, "response")
    ensures o.Success? && Field(o.value, "response").Some? ==> m.content == Field(o.value, "response").value
    ensures !(o.Success? && Field(o.value, "response").Some?) ==> m.content == Str(ChatError)
  {
    var reply := if o.Success? then Field(o.value, "response") else None;
    ChatMsg("assistant", reply.GetOr(Str(ChatError)))
  }

  /** The transcript after an accepted send. */
  function Transcript(messages: seq<ChatMsg>, input: string, o: Outcome): seq<ChatMsg>
  {
    messages + [ChatMsg("user", Str(input)), ReplyOf(o)]
  }

  /** An accepted send keeps the transcript, adds the question and then the
      reply or the error, and nothing else. */
  lemma TranscriptGrows(messages: seq<ChatMsg>, input: string, o: Outcome)
    ensures var t := Transcript(messages, input, o);
            && |t| == |messages| + 2
            && t[..|messages|] == messages
            && t[|messages|] == ChatMsg("user", Str(input))
            && t[|messages| + 1].role == "assistant"
            && (o.Rejected? || o.Failure? ==> t[|messages| + 1].content == Str(ChatError))
  {
  }

  /** The insights after their request settles: `res.insights`, or the single
      error card. */
  function InsightsAfter(o: Outcome): (v: Json)
    ensures o.Success? && o.value.Obj? ==> v == Lookup(o.value.fields, "insights")
    ensures !o.Success? ==> v == ErrorCards
  {
    if o.Success? then Field(o.value, "insights").GetOr(ErrorCards) else ErrorCards
  }

  const ErrorCards := Arr([Obj([("icon", Str("alert")), ("title", Str("Error")), ("description", Str("No se pudieron generar insights."))])])

  /** The predictions after their request settles: `res.predictions`, or `[]`. */
  function PredictionsAfter(o: Outcome): (v: Json)
    ensures o.Success? && o.value.Obj? ==> v == Lookup(o.value.fields, "predictions")
    ensures !o.Success? ==> v == Arr([])
  {
    if o.Success? then Field(o.value, "predictions").GetOr(Arr([])) else Arr([])
  }

  /** Either cache after a failed load is truthy, so the next load is skipped. */
  lemma FailureCached(o: Outcome)
    requires !o.Success?
    ensures Truthy(InsightsAfter(o)) && Truthy(PredictionsAfter(o))
  {
  }

  // ---- regenerate ------------------------------------------------------------------

  /** What a regenerate click leaves in a cache holding `current`, and whether
      it fetched: `setInsights(null)` then the loader of the same render,
      whose guard still reads `current`. */
  function Regenerated(current: Json, loaded: Json): (r: (Json, bool))
    ensures r.1 <==> !Truthy(current)
    ensures r.1 ==> r.0 == loaded
    ensures !r.1 ==> r.0 == Null
  {
    if Truthy(current) then (Null, false) else (loaded, true)
  }

  /** The regenerate buttons as written: with cards shown, a click empties
      the cache and sends no request, whatever the service would answer. */
  lemma RegenerateClears(current: Json, o: Outcome)
    requires Truthy(current)
    ensures Regenerated(current, InsightsAfter(o)) == (Null, false)
    ensures Regenerated(current, PredictionsAfter(o)) == (Null, false)
    ensures !Truthy(Regenerated(current, InsightsAfter(o)).0)
  {
  }

  /** A regenerate that refetches, as the button's label says: it behaves as
      a first load, whatever was cached. */
  function FixedRegenerated(current: Json, loaded: Json): (r: (Json, bool))
    ensures r == Regenerated(Null, loaded)
  {
    (loaded, true)
  }

  /** So the fixed click's result depends only on the service's answer. */
  lemma FixedRegenerateRefetches(c1: Json, c2: Json, o: Outcome)
    ensures FixedRegenerated(c1, InsightsAfter(o)) == FixedRegenerated(c2, InsightsAfter(o))
    ensures FixedRegenerated(c1, InsightsAfter(o)).1
    ensures !o.Success? ==> FixedRegenerated(c1, InsightsAfter(o)).0 == ErrorCards
  {
  }

  // ---- the panel -----------------------------------------------------------------------

  class Panel {
    var tab: Tab
    var messages: seq<ChatMsg>
    var input: string
    var sending: bool
    var insights: Json
    var predictions: Json
    var loadingInsights: bool
    var loadingPred: bool

    constructor()
      ensures tab == ChatTab && messages == [ChatMsg("assistant", Str(Greeting))]
      ensures input == "" && !sending && insights == Null && predictions == Null
      ensures !loadingInsights && !loadingPred
    {
      tab := ChatTab;
      messages := [ChatMsg("assistant", Str(Greeting))];
      input := "";
      sending := false;
      insights := Null;
      predictions := Null;
      loadingInsights := false;
      loadingPred := false;
    }

    /** The send button is disabled exactly when a send would be refused. */
    predicate SendDisabled()
      reads this
      ensures SendDisabled() <==> !Accepts(input, sending)
    {
      sending || Strip(input, EcmaScript) == ""
    }

    /** The input's `onChange`. */
    method SetInput(s: string)
      modifies this
      ensures input == s
      ensures tab == old(tab) && messages == old(messages) && sending == old(sending)
      ensures insights == old(insights) && predictions == old(predictions)
      ensures loadingInsights == old(loadingInsights) && loadingPred == old(loadingPred)
    {
      input := s;
    }

    /** `sendMessage` up to its `await`: the chat call it makes, or None when
        the guard returns. */
    method BeginSend() returns (call: Option<RequestInit>)
      modifies this
      ensures call.Some? <==> Accepts(old(input), old(sending))
      ensures call.Some? ==> call.value == ChatInit(old(input), Some(ChatHistory(old(messages))))
      ensures call.Some? ==> messages == old(messages) + [ChatMsg("user", Str(old(input)))] && input == "" && sending
      ensures call.None? ==> messages == old(messages) && input == old(input) && sending == old(sending)
      ensures tab == old(tab) && insights == old(insights) && predictions == old(predictions)
      ensures loadingInsights == old(loadingInsights) && loadingPred == old(loadingPred)
    {
      if Accepts(input, sending) {
        var init := Post();
        call := Some(init);
      } else {
        call := None;
      }
    }

    /** The accepted branch of `sendMessage` before its `await`. */
    method Post() returns (init: RequestInit)
      modifies this
      ensures init == ChatInit(old(input), Some(ChatHistory(old(messages))))
      ensures messages == old(messages) + [ChatMsg("user", Str(old(input)))] && input == "" && sending
      ensures tab == old(tab) && insights == old(insights) && predictions == old(predictions)
      ensures loadingInsights == old(loadingInsights) && loadingPred == old(loadingPred)
    {
      init := ChatInit(input, Some(ChatHistory(messages)));
      messages := messages + [ChatMsg("user", Str(input))];
      input := "";
      sending := true;
    }

    /** `sendMessage` after its `await`: the closure's `newMessages` with the
        reply appended. */
    method FinishSend(pending: seq<ChatMsg>, o: Outcome)
      modifies this
      ensures messages == pending + [ReplyOf(o)] && !sending
      ensures tab == old(tab) && input == old(input) && insights == old(insights) && predictions == old(predictions)
      ensures loadingInsights == old(loadingInsights) && loadingPred == old(loadingPred)
    {
      messages := pending + [ReplyOf(o)];
      sending := false;
    }

    /** `sendMessage` with its request settling as `o`. */
    method SendMessage(o: Outcome) returns (call: Option<RequestInit>)
      modifies this
      ensures call.Some? <==> Accepts(old(input), old(sending))
      ensures call.Some? ==> call.value == ChatInit(old(input), Some(ChatHistory(old(messages))))
      ensures call.Some? ==> messages == Transcript(old(messages), old(input), o) && input == "" && !sending
      ensures call.None? ==> messages == old(messages) && input == old(input) && sending == old(sending)
      ensures tab == old(tab) && insights == old(insights) && predictions == old(predictions)
      ensures loadingInsights == old(loadingInsights) && loadingPred == old(loadingPred)
    {
      call := BeginSend();
      if call.Some? {
        FinishSend(messages, o);
      }
    }

    /** `loadInsights` as defined in a render where the cache held `seen`:
        whether it fetched, and the cache afterwards. */
    method LoadInsightsFrom(seen: Json, o: Outcome) returns (fetched: bool)
      modifies this
      ensures fetched <==> !Truthy(seen)
      ensures fetched ==> insights == InsightsAfter(o) && !loadingInsights
      ensures !fetched ==> insights == old(insights) && loadingInsights == old(loadingInsights)
      ensures tab == old(tab) && messages == old(messages) && input == old(input) && sending == old(sending)
      ensures predictions == old(predictions) && loadingPred == old(loadingPred)
    {
      if Truthy(seen) {
        return false;
      }
      loadingInsights := true;
      insights := InsightsAfter(o);
      loadingInsights := false;
      fetched := true;
    }

    /** `loadPredictions` as defined in a render where the cache held `seen`. */
    method LoadPredictionsFrom(seen: Json, o: Outcome) returns (fetched: bool)
      modifies this
      ensures fetched <==> !Truthy(seen)
      ensures fetched ==> predictions == PredictionsAfter(o) && !loadingPred
      ensures !fetched ==> predictions == old(predictions) && loadingPred == old(loadingPred)
      ensures tab == old(tab) && messages == old(messages) && input == old(input) && sending == old(sending)
      ensures insights == old(insights) && loadingInsights == old(loadingInsights)
    {
      if Truthy(seen) {
        return false;
      }
      loadingPred := true;
      predictions := PredictionsAfter(o);
      loadingPred := false;
      fetched := true;
    }

    /** A tab click: a change of tab runs the effect, which loads the new
        tab's data through the current render's loader. */
    method SelectTab(t: Tab, o: Outcome) returns (fetched: bool)
      modifies this
      ensures tab == t
      ensures fetched <==> t != old(tab) && ((t == InsightsTab && !Truthy(old(insights))) || (t == PredictionsTab && !Truthy(old(predictions))))
      ensures fetched && t == InsightsTab ==> insights == InsightsAfter(o)
      ensures fetched && t == PredictionsTab ==> predictions == PredictionsAfter(o)
      ensures !(fetched && t == InsightsTab) ==> insights == old(insights)
      ensures !(fetched && t == PredictionsTab) ==> predictions == old(predictions)
      ensures messages == old(messages) && input == old(input) && sending == old(sending)
    {
      fetched := false;
      if t == tab {
        return;
      }
      tab := t;
      if t == InsightsTab {
        fetched := LoadInsightsFrom(insights, o);
      } else if t == PredictionsTab {
        fetched := LoadPredictionsFrom(predictions, o);
      }
    }

    /** The "Regenerar Insights" button. */
    method RegenerateInsights(o: Outcome) returns (fetched: bool)
      modifies this
      ensures (insights, fetched) == Regenerated(old(insights), InsightsAfter(o))
      ensures tab == old(tab) && messages == old(messages) && input == old(input) && sending == old(sending)
      ensures predictions == old(predictions) && loadingPred == old(loadingPred)
    {
      var seen := insights;
      insights := Null;
      fetched := LoadInsightsFrom(seen, o);
    }

    /** The "Regenerar Predicciones" button. */
    method RegeneratePredictions(o: Outcome) returns (fetched: bool)
      modifies this
      ensures (predictions, fetched) == Regenerated(old(predictions), PredictionsAfter(o))
      ensures tab == old(tab) && messages == old(messages) && input == old(input) && sending == old(sending)
      ensures insights == old(insights) && loadingInsights == old(loadingInsights)
    {
      var seen := predictions;
      predictions := Null;
      fetched := LoadPredictionsFrom(seen, o);
    }
  }
}

/** The provider calls of `get_ai_sentiment` and `_openai_generate_json`: the
    skip policy, the Responses request with its 400-retry loop, and the Chat
    Completions fallback. The provider is a function from the request to the
    reply it gets; a reply's `payload` is the JSON object (a non-empty dict)
    extracted from its text, if any. */
module AiRequests {
  import opened Common
  import opened Signals

  /** `OPENAI_API_STYLE`: empty, "responses", "chat", or anything else. */
  datatype ApiStyle = Unset | ResponsesStyle | ChatStyle | OtherStyle

  datatype Effort = LowEffort | MediumEffort

  /** The parts of the Responses request body the retry loop reads or edits. */
  datatype ResponsesBody = ResponsesBody(maxOutputTokens: nat, reasoning: Option<Effort>, hasTemperature: bool)

  /** A POST either raises (timeout, connection error) or yields a status, a text and what parses out of it. */
  datatype HttpReply<P> = TransportError | Reply(status: int, text: string, payload: Option<P>)

  const UNSUPPORTED_TEMPERATURE := "Unsupported parameter: 'temperature'"
  const UNSUPPORTED_REASONING := "Unsupported parameter: 'reasoning'"
  const UNKNOWN_REASONING := "Unknown parameter: 'reasoning'"

  /** Python's `pat in txt` on strings. */
  predicate Contains(txt: string, pat: string) {
    pat <= txt || (txt != [] && Contains(txt[1..], pat))
  }

  /** The first request: low reasoning effort and no temperature. */
  function InitialBody(maxOutputTokens: nat): ResponsesBody {
    ResponsesBody(maxOutputTokens, Some(LowEffort), false)
  }

  // ----- one round of the retry rules -----

  datatype Relaxed = Relaxed(changed: bool, body: ResponsesBody)

  /** The three rules applied, in order, to a 400 reply's text. Only the sentiment
      call has the temperature rule (`checkTemperature`). */
  function Relax(body: ResponsesBody, txt: string, checkTemperature: bool): Relaxed {
    var r0 :=
      if checkTemperature && Contains(txt, UNSUPPORTED_TEMPERATURE) && body.hasTemperature
      then Relaxed(true, body.(hasTemperature := false))
      else Relaxed(false, body);
    var r1 :=
      if (Contains(txt, "reasoning.effort") || Contains(txt, "reasoning")) && r0.body.reasoning.Some? then
        if r0.body.reasoning.value == LowEffort then Relaxed(true, r0.body.(reasoning := Some(MediumEffort)))
        else Relaxed(true, r0.body.(reasoning := None))
      else r0;
    if (Contains(txt, UNSUPPORTED_REASONING) || Contains(txt, UNKNOWN_REASONING)) && r1.body.reasoning.Some?
    then Relaxed(true, r1.body.(reasoning := None))
    else r1
  }

  /** How far the effort has been relaxed: low, medium, removed. */
  function EffortRank(b: ResponsesBody): nat {
    match b.reasoning
    case Some(LowEffort) => 0
    case Some(MediumEffort) => 1
    case None => 2
  }

  /** A round never raises the effort again or adds a temperature, and keeps
      the token budget; without a temperature to drop, a round that changes
      anything relaxes the effort. */
  lemma RelaxMonotone(body: ResponsesBody, txt: string, checkTemperature: bool)
    ensures var r := Relax(body, txt, checkTemperature);
            && EffortRank(body) <= EffortRank(r.body)
            && (!body.hasTemperature ==> !r.body.hasTemperature)
            && r.body.maxOutputTokens == body.maxOutputTokens
            && (r.changed && !body.hasTemperature ==> EffortRank(body) < EffortRank(r.body))
            && (!r.changed ==> r.body == body)
  {
  }

  /** The temperature rule cannot fire on a body without a temperature. */
  lemma TemperatureRuleInert(body: ResponsesBody, txt: string)
    requires !body.hasTemperature
    ensures Relax(body, txt, true) == Relax(body, txt, false)
  {
  }

  // ----- the retry loop -----

  /** The bodies posted, in order, and the reply to the last one. */
  datatype Trace<P> = Trace(reply: HttpReply<P>, sent: seq<ResponsesBody>)

  predicate IsBadRequest<P>(reply: HttpReply<P>) { reply.Reply? && reply.status == 400 }

  /** `for _ in range(3)` from attempt `k` on: post, stop unless the reply is a 400,
      stop if no rule changed the body. */
  function RetryFrom<P>(server: (nat, ResponsesBody) -> HttpReply<P>, body: ResponsesBody, checkTemperature: bool, k: nat): Trace<P>
    requires k < 3
    decreases 3 - k
  {
    var reply := server(k, body);
    if !IsBadRequest(reply) then Trace(reply, [body])
    else
      var next := Relax(body, reply.text, checkTemperature);
      if !next.changed || k == 2 then Trace(reply, [body])
      else
        var rest := RetryFrom(server, next.body, checkTemperature, k + 1);
        Trace(rest.reply, [body] + rest.sent)
  }

  /** The retry loop: the POSTs to `/responses` and their bodies. `server(k, b)` is
      the reply to the `k`-th POST when it carries body `b`. */
  method PostWithRetries<P>(server: (nat, ResponsesBody) -> HttpReply<P>, body0: ResponsesBody, checkTemperature: bool)
    returns (reply: HttpReply<P>, posts: nat)
    ensures reply == RetryFrom(server, body0, checkTemperature, 0).reply
    ensures posts == |RetryFrom(server, body0, checkTemperature, 0).sent|
  {
    var body := body0;
    var attempt: nat := 0;
    var done := false;
    ghost var sent: seq<ResponsesBody> := [];
    ghost var run := RetryFrom(server, body0, checkTemperature, 0);
    reply := TransportError;
    while !done
      invariant attempt <= 3 && (!done ==> attempt < 3)
      invariant attempt == |sent|
      invariant !done ==> run.reply == RetryFrom(server, body, checkTemperature, attempt).reply
      invariant !done ==> run.sent == sent + RetryFrom(server, body, checkTemperature, attempt).sent
      invariant done ==> run.reply == reply && run.sent == sent
      decreases 3 - attempt, !done
    {
      ghost var before := sent;
      ghost var posted := body;
      ghost var k := attempt;
      reply := server(attempt, body);
      sent := sent + [body];
      attempt := attempt + 1;
      if reply.TransportError? || reply.status != 400 {
        done := true;
      } else {
        var changed;
        changed, body := ApplyRetryRules(body, reply.text, checkTemperature);
        if !changed || attempt == 3 {
          done := true;
        } else {
          RetryStep(server, posted, checkTemperature, k);
          ghost var later := RetryFrom(server, body, checkTemperature, attempt).sent;
          assert before + ([posted] + later) == sent + later;
        }
      }
    }
    posts := attempt;
  }

  /** One more round: a 400 whose text changes the body leads to the next POST. */
  lemma RetryStep<P>(server: (nat, ResponsesBody) -> HttpReply<P>, body: ResponsesBody, checkTemperature: bool, k: nat)
    requires k < 2 && IsBadRequest(server(k, body))
    requires Relax(body, server(k, body).text, checkTemperature).changed
    ensures var next := Relax(body, server(k, body).text, checkTemperature).body;
            && RetryFrom(server, body, checkTemperature, k).reply == RetryFrom(server, next, checkTemperature, k + 1).reply
            && RetryFrom(server, body, checkTemperature, k).sent == [body] + RetryFrom(server, next, checkTemperature, k + 1).sent
  {
  }

  /** The body of the loop after a 400: the three rules editing the body in place. */
  method ApplyRetryRules(body0: ResponsesBody, txt: string, checkTemperature: bool)
    returns (changed: bool, body: ResponsesBody)
    ensures Relaxed(changed, body) == Relax(body0, txt, checkTemperature)
  {
    body, changed := body0, false;
    if checkTemperature && Contains(txt, UNSUPPORTED_TEMPERATURE) && body.hasTemperature {
      body := body.(hasTemperature := false);
      changed := true;
    }
    if (Contains(txt, "reasoning.effort") || Contains(txt, "reasoning")) && body.reasoning.Some? {
      if body.reasoning.value == LowEffort {
        body := body.(reasoning := Some(MediumEffort));
      } else {
        body := body.(reasoning := None);
      }
      changed := true;
    }
    if (Contains(txt, UNSUPPORTED_REASONING) || Contains(txt, UNKNOWN_REASONING)) && body.reasoning.Some? {
      body := body.(reasoning := None);
      changed := true;
    }
  }

  /** The loop posts at least once and at most three times, starting with the
      given body; each body but the last drew a 400 whose text made a rule
      change it into the next one, and the loop stopped because the last reply
      was not a 400, no rule applied, or the third POST was made. */
  lemma {:induction false} RetrySteps<P>(server: (nat, ResponsesBody) -> HttpReply<P>, body: ResponsesBody, checkTemperature: bool, k: nat)
    requires k < 3
    decreases 3 - k
    ensures var t := RetryFrom(server, body, checkTemperature, k);
            && 1 <= |t.sent| <= 3 - k
            && t.sent[0] == body
            && (forall i :: 0 <= i < |t.sent| - 1 ==>
                  IsBadRequest(server(k + i, t.sent[i]))
                  && Relax(t.sent[i], server(k + i, t.sent[i]).text, checkTemperature) == Relaxed(true, t.sent[i + 1]))
            && t.reply == server(k + |t.sent| - 1, t.sent[|t.sent| - 1])
            && (!IsBadRequest(t.reply)
                || !Relax(t.sent[|t.sent| - 1], t.reply.text, checkTemperature).changed
                || k + |t.sent| == 3)
  {
    var reply := server(k, body);
    if IsBadRequest(reply) {
      var next := Relax(body, reply.text, checkTemperature);
      if next.changed && k < 2 {
        RetrySteps(server, next.body, checkTemperature, k + 1);
        var rest := RetryFrom(server, next.body, checkTemperature, k + 1);
        var t := RetryFrom(server, body, checkTemperature, k);
        assert t.sent == [body] + rest.sent;
        forall i | 0 <= i < |t.sent| - 1
          ensures IsBadRequest(server(k + i, t.sent[i]))
          ensures Relax(t.sent[i], server(k + i, t.sent[i]).text, checkTemperature) == Relaxed(true, t.sent[i + 1])
        {
          if i > 0 {
            assert t.sent[i] == rest.sent[i - 1] && t.sent[i + 1] == rest.sent[i];
          }
        }
      }
    }
  }

  /** Every body posted keeps the first body's token budget, and none gains a temperature. */
  lemma {:induction false} RetryKeepsBudget<P>(server: (nat, ResponsesBody) -> HttpReply<P>, body: ResponsesBody, checkTemperature: bool, k: nat)
    requires k < 3
    decreases 3 - k
    ensures var t := RetryFrom(server, body, checkTemperature, k);
            && (forall i :: 0 <= i < |t.sent| ==> t.sent[i].maxOutputTokens == body.maxOutputTokens)
            && (!body.hasTemperature ==> forall i :: 0 <= i < |t.sent| ==> !t.sent[i].hasTemperature)
  {
    var reply := server(k, body);
    if IsBadRequest(reply) {
      var next := Relax(body, reply.text, checkTemperature);
      if next.changed && k < 2 {
        RelaxMonotone(body, reply.text, checkTemperature);
        RetryKeepsBudget(server, next.body, checkTemperature, k + 1);
        var rest := RetryFrom(server, next.body, checkTemperature, k + 1);
        var t := RetryFrom(server, body, checkTemperature, k);
        assert t.sent == [body] + rest.sent;
        assert forall i :: 0 < i < |t.sent| ==> t.sent[i] == rest.sent[i - 1];
      }
    }
  }

  /** The effort of the bodies posted never goes down; without a temperature it
      goes strictly up from one POST to the next. */
  lemma {:induction false} RetryEffortRises<P>(server: (nat, ResponsesBody) -> HttpReply<P>, body: ResponsesBody, checkTemperature: bool, k: nat)
    requires k < 3
    decreases 3 - k
    ensures var t := RetryFrom(server, body, checkTemperature, k);
            && (forall i, j :: 0 <= i <= j < |t.sent| ==> EffortRank(t.sent[i]) <= EffortRank(t.sent[j]))
            && (!body.hasTemperature ==> forall i, j :: 0 <= i < j < |t.sent| ==> EffortRank(t.sent[i]) < EffortRank(t.sent[j]))
  {
    var reply := server(k, body);
    if IsBadRequest(reply) {
      var next := Relax(body, reply.text, checkTemperature);
      if next.changed && k < 2 {
        RelaxMonotone(body, reply.text, checkTemperature);
        RetryEffortRises(server, next.body, checkTemperature, k + 1);
        RetrySteps(server, next.body, checkTemperature, k + 1);
        var rest := RetryFrom(server, next.body, checkTemperature, k + 1);
        var t := RetryFrom(server, body, checkTemperature, k);
        assert t.sent == [body] + rest.sent;
        assert EffortRank(rest.sent[0]) == EffortRank(next.body);
        forall i, j | 0 <= i <= j < |t.sent|
          ensures EffortRank(t.sent[i]) <= EffortRank(t.sent[j])
          ensures !body.hasTemperature && i < j ==> EffortRank(t.sent[i]) < EffortRank(t.sent[j])
        {
          assert j > 0 ==> t.sent[j] == rest.sent[j - 1];
          assert i > 0 ==> t.sent[i] == rest.sent[i - 1];
        }
      }
    }
  }

  /** Along the posted bodies the effort only moves low, medium, removed, and is
      never restored; with no temperature in the first body (as both callers
      send it) no body has one, and every retry strictly relaxes the effort. */
  lemma RetryEscalates<P>(server: (nat, ResponsesBody) -> HttpReply<P>, body: ResponsesBody, checkTemperature: bool, k: nat)
    requires k < 3
    ensures var t := RetryFrom(server, body, checkTemperature, k);
            && (forall i, j :: 0 <= i <= j < |t.sent| ==> EffortRank(t.sent[i]) <= EffortRank(t.sent[j]))
            && (forall i :: 0 <= i < |t.sent| ==> t.sent[i].maxOutputTokens == body.maxOutputTokens)
            && (!body.hasTemperature ==>
                  (forall i :: 0 <= i < |t.sent| ==> !t.sent[i].hasTemperature)
                  && (forall i, j :: 0 <= i < j < |t.sent| ==> EffortRank(t.sent[i]) < EffortRank(t.sent[j])))
  {
    RetryKeepsBudget(server, body, checkTemperature, k);
    RetryEffortRises(server, body, checkTemperature, k);
  }

  /** Without a temperature in the first body, the loop with the temperature rule
      (sentiment) and the loop without it (journal note) post the same bodies and
      end on the same reply. */
  lemma {:induction false} RetryVariantsAgree<P>(server: (nat, ResponsesBody) -> HttpReply<P>, body: ResponsesBody, k: nat)
    requires k < 3 && !body.hasTemperature
    decreases 3 - k
    ensures RetryFrom(server, body, true, k) == RetryFrom(server, body, false, k)
  {
    var reply := server(k, body);
    if IsBadRequest(reply) {
      TemperatureRuleInert(body, reply.text);
      RelaxMonotone(body, reply.text, false);
      var next := Relax(body, reply.text, false);
      if next.changed && k < 2 {
        RetryVariantsAgree(server, next.body, k + 1);
      }
    }
  }

  // ----- after the loop -----

  /** `raise_for_status` raises on a 4xx or 5xx status. */
  predicate RaisesForStatus(status: int) { 400 <= status < 600 }

  /** What a final reply yields: nothing when the POST or `raise_for_status`
      raised, else the object extracted from its text, if any. */
  function Outcome<P>(reply: HttpReply<P>): (r: Option<P>)
    ensures r.Some? ==> reply.Reply? && !RaisesForStatus(reply.status) && reply.payload == r
    ensures reply.Reply? && !RaisesForStatus(reply.status) ==> r == reply.payload
  {
    if reply.TransportError? || RaisesForStatus(reply.status) then None else reply.payload
  }

  datatype TokenField = MaxCompletionTokens | MaxTokens

  /** The Chat Completions payload, less the model name and the prompt. */
  datatype ChatPayload = ChatPayload(tokenField: TokenField, maxTokens: nat, temperature: Option<real>)

  predicate IsGpt5(model: string) { "gpt-5" <= model }

  /** The sentiment call's payload: 240 tokens, and temperature 0.3 except for gpt-5 models. */
  function SentimentChatPayload(model: string): (p: ChatPayload)
    ensures p.maxTokens == 240
    ensures p.tokenField == MaxCompletionTokens <==> IsGpt5(model)
    ensures p.temperature.Some? <==> !IsGpt5(model)
    ensures p.temperature.Some? ==> p.temperature.value == 0.3
  {
    if IsGpt5(model) then ChatPayload(MaxCompletionTokens, 240, None)
    else ChatPayload(MaxTokens, 240, Some(0.3))
  }

  /** The journal call's payload: the caller's token budget and never a temperature. */
  function JournalChatPayload(model: string, maxOutputTokens: nat): (p: ChatPayload)
    ensures p.maxTokens == maxOutputTokens && p.temperature.None?
    ensures p.tokenField == MaxCompletionTokens <==> IsGpt5(model)
  {
    ChatPayload(if IsGpt5(model) then MaxCompletionTokens else MaxTokens, maxOutputTokens, None)
  }

  predicate UsesResponses(style: ApiStyle) { style == Unset || style == ResponsesStyle }

  predicate UsesChat(style: ApiStyle) { style == Unset || style == ChatStyle }

  /** The object the provider calls produce: the Responses one if that endpoint is
      used and yields one, else the Chat one if that endpoint is used. Raised
      errors are collected and re-raised, which every caller turns into "no object". */
  function ProviderAnswer<P>(style: ApiStyle, body0: ResponsesBody, checkTemperature: bool, chat: ChatPayload,
                             responsesServer: (nat, ResponsesBody) -> HttpReply<P>,
                             chatServer: ChatPayload -> HttpReply<P>): Option<P>
  {
    var viaResponses :=
      if UsesResponses(style) then Outcome(RetryFrom(responsesServer, body0, checkTemperature, 0).reply) else None;
    if viaResponses.Some? then viaResponses
    else if UsesChat(style) then Outcome(chatServer(chat))
    else None
  }

  /** Both endpoints in turn, as the style allows, counting the POSTs made to each. */
  method QueryProvider<P>(style: ApiStyle, body0: ResponsesBody, checkTemperature: bool, chat: ChatPayload,
                          responsesServer: (nat, ResponsesBody) -> HttpReply<P>,
                          chatServer: ChatPayload -> HttpReply<P>)
    returns (obj: Option<P>, responsesPosts: nat, chatPosts: nat)
    ensures obj == ProviderAnswer(style, body0, checkTemperature, chat, responsesServer, chatServer)
    ensures !UsesResponses(style) ==> responsesPosts == 0
    ensures UsesResponses(style) ==> 1 <= responsesPosts <= 3
    ensures chatPosts == 1 <==>
              UsesChat(style) &&
              (!UsesResponses(style) || Outcome(RetryFrom(responsesServer, body0, checkTemperature, 0).reply).None?)
    ensures chatPosts <= 1
    ensures style == OtherStyle ==> obj.None?
  {
    obj, responsesPosts, chatPosts := None, 0, 0;
    if UsesResponses(style) {
      var reply, posts := PostWithRetries(responsesServer, body0, checkTemperature);
      RetrySteps(responsesServer, body0, checkTemperature, 0);
      responsesPosts := posts;
      obj := Outcome(reply);
      if obj.Some? {
        return;
      }
    }
    if UsesChat(style) {
      obj := Outcome(chatServer(chat));
      chatPosts := 1;
    }
  }

  // ----- get_ai_sentiment -----

  /** The answer given without a call: low confidence with no key or no headline,
      "skipped" unless forced by the caller or by `force_ai_all`. */
  function SkipPolicy(hasKey: bool, headlines: seq<string>, force: bool, forceAll: bool): (r: Option<Sentiment>)
    ensures r == Some(LOW_SENTIMENT) <==> !hasKey || headlines == []
    ensures r == Some(SKIPPED_SENTIMENT) <==> hasKey && headlines != [] && !force && !forceAll
    ensures r.None? <==> hasKey && headlines != [] && (force || forceAll)
  {
    if !hasKey || headlines == [] then Some(LOW_SENTIMENT)
    else if !force && !forceAll then Some(SKIPPED_SENTIMENT)
    else None
  }

  /** `get_ai_sentiment`: the skip policy, then the provider calls, falling back to
      low confidence when they produce nothing. */
  method GetAiSentiment(hasKey: bool, headlines: seq<string>, config: Config, force: bool,
                        style: ApiStyle, model: string,
                        responsesServer: (nat, ResponsesBody) -> HttpReply<Sentiment>,
                        chatServer: ChatPayload -> HttpReply<Sentiment>)
    returns (sent: Sentiment, posts: nat)
    ensures SkipPolicy(hasKey, headlines, force, config.forceAiAll).Some? ==>
              sent == SkipPolicy(hasKey, headlines, force, config.forceAiAll).value && posts == 0
    ensures SkipPolicy(hasKey, headlines, force, config.forceAiAll).None? ==>
              sent == ProviderAnswer(style, InitialBody(600), true, SentimentChatPayload(model),
                                     responsesServer, chatServer).GetOr(LOW_SENTIMENT)
    ensures posts <= 4
  {
    var skip := SkipPolicy(hasKey, headlines, force, config.forceAiAll);
    if skip.Some? {
      return skip.value, 0;
    }
    var obj, rp, cp := QueryProvider(style, InitialBody(600), true, SentimentChatPayload(model), responsesServer, chatServer);
    sent := obj.GetOr(LOW_SENTIMENT);
    posts := rp + cp;
  }

  /** `_openai_generate_json` for the journal note: nothing without a key, else the
      provider calls without the temperature rule. Its loop posts the same bodies
      as the sentiment call's would (`RetryVariantsAgree`), so the contract is
      stated with the temperature rule on. */
  method GenerateJson<P>(hasKey: bool, maxOutputTokens: nat, style: ApiStyle, model: string,
                         responsesServer: (nat, ResponsesBody) -> HttpReply<P>,
                         chatServer: ChatPayload -> HttpReply<P>)
    returns (obj: Option<P>)
    ensures !hasKey ==> obj.None?
    ensures hasKey ==> obj == ProviderAnswer(style, InitialBody(maxOutputTokens), true, JournalChatPayload(model, maxOutputTokens),
                                             responsesServer, chatServer)
  {
    if !hasKey {
      return None;
    }
    var rp, cp;
    obj, rp, cp := QueryProvider(style, InitialBody(maxOutputTokens), false, JournalChatPayload(model, maxOutputTokens),
                                 responsesServer, chatServer);
    RetryVariantsAgree(responsesServer, InitialBody(maxOutputTokens), 0);
  }
}

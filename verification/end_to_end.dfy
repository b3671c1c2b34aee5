/**
 * One click of the ideas finder carried through the `suggest-projects`
 * function and back. The client library's `functions.invoke` is modelled
 * by `Invoke`: it sends the body as JSON text, reports a non-2xx answer as
 * an error, and decodes a JSON body.
 */
module EndToEnd {
  import opened Json
  import opened Js
  import S = SuggestProjects
  import F = IdeasFinder
  import opened Ui

  /** What `functions.invoke` makes of the function's response. */
  function Invoke(resp: S.Response): (r: F.InvokeOutcome)
    ensures r.InvokeReturned? <==> S.Ok2xx(resp.status) && resp.body.Text? && Parse(resp.body.text).Ok?
    ensures r.InvokeReturned? ==> r.data == Val(Parse(resp.body.text).value)
  {
    if !S.Ok2xx(resp.status) || resp.body.NoBody? then F.InvokeFailed
    else
      match Parse(resp.body.text)
      case Ok(v) => F.InvokeReturned(Val(v))
      case Err(_) => F.InvokeFailed
  }

  /** The request the function receives for a click that passed the client's check. */
  function Posted(s: F.State): S.Request
  {
    S.Request("POST", Stringify(F.CallBody(s)))
  }

  /** One click: what the function does, and the client's state and toast afterwards. */
  datatype Round = Round(exchange: S.Exchange, state: F.State, toast: Option<Toast>)

  function Click(s: F.State, key: Option<string>, upstream: S.FetchOutcome): (r: Round)
    requires F.Begin(s).Calling?
    ensures r.exchange == S.Handle(Posted(s), key, upstream)
    ensures !r.state.isLoading && r.state.skillLevel == s.skillLevel && r.state.interest == s.interest
  {
    var x := S.Handle(Posted(s), key, upstream);
    var (after, toast) := F.Complete(F.Begin(s).state, Invoke(x.response));
    Round(x, after, toast)
  }

  /** The function reads back exactly the two selections the client sent, as strings. */
  lemma ServerReadsSelections(s: F.State)
    ensures S.ReadInput(Posted(s).body) == Ok((Val(JStr(s.skillLevel)), Val(JStr(s.interest))))
  {
    var body := F.CallBody(s);
    S.CanonicalPair("skillLevel", JStr(s.skillLevel), "interest", JStr(s.interest));
    ParseStringify(body);
    LookupDistinct(body.fields, 0);
    LookupDistinct(body.fields, 1);
  }

  /** What the client makes of a response: its state and toast after the call. */
  function Shown(s: F.State, resp: S.Response): (F.State, Option<Toast>)
    requires F.Begin(s).Calling?
  {
    F.Complete(F.Begin(s).state, Invoke(resp))
  }

  /**
   * With a key configured, a click makes the function call the gateway
   * once, with a prompt that names the selected skill level and interest
   * where the template puts them; the function answers as `Reply` does, and
   * the client shows what it makes of that answer.
   */
  lemma ClickReachesGateway(s: F.State, key: Option<string>, upstream: S.FetchOutcome)
    requires F.Begin(s).Calling? && S.KeyConfigured(key)
    ensures var r := Click(s, key, upstream);
      r.exchange.call.Some? && r.exchange.call.value.payload == S.ChatBody(S.PromptText(s.skillLevel, s.interest))
      && r.exchange.response == S.Reply(upstream)
      && (r.state, r.toast) == Shown(s, S.Reply(upstream))
    ensures var prompt := S.PromptText(s.skillLevel, s.interest);
      S.OccursAt(prompt, s.skillLevel, |S.PromptLead|)
      && S.OccursAt(prompt, s.interest, |S.PromptLead| + |s.skillLevel| + |S.PromptMid|)
  {
    ServerReadsSelections(s);
  }

  /** Without a key, the gateway is never called and the client shows its error toast over an empty list. */
  lemma MissingKeyShown(s: F.State, key: Option<string>, upstream: S.FetchOutcome)
    requires F.Begin(s).Calling? && !S.KeyConfigured(key)
    ensures var r := Click(s, key, upstream);
      r.exchange.call.None? && r.exchange.response.status == 500
      && r.toast == Some(F.FailedToast) && r.state.projects == JArr([])
  {
    ServerReadsSelections(s);
  }

  /** The arguments a tool call returns: an object holding the list of ideas. */
  function Suggestions(ideas: seq<Json>): Json
  {
    JObj([Field("projects", JArr(ideas))])
  }

  /**
   * Whatever else the gateway's reply holds, the ideas its tool call's
   * arguments list reach the client in order and in full, the toast counts
   * them, and the button is enabled again.
   */
  lemma IdeasReachClient(s: F.State, text: string, data: Json, arguments: string, ideas: seq<Json>, status: int)
    requires F.Begin(s).Calling? && S.Ok2xx(status)
    requires Parse(text) == Ok(data) && S.At(data, S.ArgumentsPath) == Val(JStr(arguments))
    requires Parse(arguments) == Ok(Suggestions(ideas))
    ensures var resp := S.Reply(S.Received(status, text));
      resp.status == 200
      && Shown(s, resp).0.projects == JArr(ideas)
      && Shown(s, resp).1 == Some(F.FoundToast(IntToString(|ideas|)))
      && !F.ButtonDisabled(Shown(s, resp).0)
  {
    var v := Suggestions(ideas);
    S.ArgumentsEchoed(text, data, arguments, v, status);
    LookupDistinct(v.fields, 0);
    assert Invoke(S.Response(200, S.JsonHeaders, S.Text(Stringify(v)))) == F.InvokeReturned(Val(v));
  }

  /**
   * An upstream refusal is passed on (429 and 402 as they are, anything else
   * as 500); the client shows its error toast and keeps the list it cleared.
   */
  lemma UpstreamRefusalShown(s: F.State, status: int, text: string)
    requires F.Begin(s).Calling? && !S.Ok2xx(status)
    ensures var resp := S.Reply(S.Received(status, text));
      resp.status == (if status == 429 || status == 402 then status else 500)
      && Shown(s, resp) == (F.Begin(s).state.(isLoading := false), Some(F.FailedToast))
      && Shown(s, resp).0.projects == JArr([])
  {
  }

  /** A gateway answer without a tool call ends in the client's error toast over an empty list. */
  lemma NoToolCallShown(s: F.State, text: string, data: Json, status: int)
    requires F.Begin(s).Calling? && S.Ok2xx(status)
    requires Parse(text) == Ok(data) && data != JNull && !Truthy(S.At(data, S.ToolCallPath))
    ensures var resp := S.Reply(S.Received(status, text));
      resp == S.ErrorResponse(500, S.NoToolCall)
      && Shown(s, resp) == (F.Begin(s).state.(isLoading := false), Some(F.FailedToast))
      && Shown(s, resp).0.projects == JArr([])
  {
    S.MissingToolCall(text, data, status);
  }

  /** Every difficulty the tool's schema allows gets its own badge style, never the fallback one. */
  lemma SchemaDifficultiesStyled()
    ensures forall i :: 0 <= i < |S.Difficulties| ==>
      S.Difficulties[i].JStr? && F.DifficultyColor(S.Difficulties[i].s) != F.DefaultColor
  {
  }
}

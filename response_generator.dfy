/** `generateResponse` in `responseGenerator.ts`: an optional one-shot rewrite of the
    outgoing chat-completion settings for a custom API, the wait for the image
    processing, then either the streaming processor or one blocking request whose
    response `handleResponse` unpacks; the `finally` removes the rewrite and clears the
    `INJECTION` prompts. */
module ResponseGenerator {
  import opened Wrappers
  import opened Strings
  import opened GenTypes
  import opened GenUtils
  import GenerateIndex
  import opened Streaming

  // -------------------------------------------------------- handleResponse

  /** A blocking response: its `error` flag, its `response` text, and the payload */
  datatype ApiResponse = ApiResponse(error: bool, response: Option<string>, data: ResponseData)

  /** What `handleResponse` returns or throws, and what it announces */
  datatype Handled = Handled(result: Result<string>, effects: seq<Effect>)

  /** `handleResponse(response, generationId)` */
  function HandleResponse(response: Option<ApiResponse>, id: string): (h: Handled)
    ensures h.result.Ok? <==> response.Some? && !response.value.error
    ensures response.None? ==> h == Handled(Err("No response received"), [])
    ensures h.result.Ok? ==>
              h.result.value == ExtractMessageFromData(response.value.data)
              && h.effects == [BeforeEnd(h.result.value, id), Ended(h.result.value, id)]
    ensures response.Some? && response.value.error ==>
              h.result == Err(response.value.response.GetOr(""))
              && forall e :: e in h.effects ==> e.ErrorToast? && e.text != ""
  {
    if response.None? then Handled(Err("No response received"), [])
    else if response.value.error then
      var text := response.value.response;
      Handled(Err(text.GetOr("")), if text.Some? && Truthy(text.value) then [ErrorToast(text.value)] else [])
    else
      var message := ExtractMessageFromData(response.value.data);
      Handled(Ok(message), [BeforeEnd(message, id), Ended(message, id)])
  }

  // ---------------------------------------------------- custom-API rewrite

  /** A numeric setting of the request, `None` when the key is not set */
  function Lookup(params: map<string, int>, k: string): Option<int> {
    if k in params then Some(params[k]) else None
  }

  /** `set_param(param)`: absent (`?? 'same_as_preset'`) or `'same_as_preset'` keeps the
      value, `'unset'` deletes the key, anything else sets it */
  function SetParam(params: map<string, int>, name: string, input: ApiParam): (r: map<string, int>)
    ensures forall k :: k != name ==> Lookup(r, k) == Lookup(params, k)
    ensures Lookup(r, name) == match input
                               case Unset => None
                               case ParamValue(v) => Some(v)
                               case _ => Lookup(params, name)
  {
    match input
    case ParamAbsent => params
    case SameAsPreset => params
    case Unset => params - {name}
    case ParamValue(v) => params[name := v]
  }

  /** The six parameters, in the order `set_param` is called on them */
  function ParamInputs(api: CustomApiConfig): seq<(string, ApiParam)> {
    [("max_tokens", api.maxTokens), ("temperature", api.temperature), ("frequency_penalty", api.frequencyPenalty),
     ("presence_penalty", api.presencePenalty), ("top_p", api.topP), ("top_k", api.topK)]
  }

  /** `set_param` on each input in turn: a key no input names keeps its value */
  function SetParams(params: map<string, int>, inputs: seq<(string, ApiParam)>): (r: map<string, int>)
    ensures forall k :: (forall i :: 0 <= i < |inputs| ==> inputs[i].0 != k) ==> Lookup(r, k) == Lookup(params, k)
    decreases |inputs|
  {
    if inputs == [] then params else SetParams(SetParam(params, inputs[0].0, inputs[0].1), inputs[1..])
  }

  /** The input given for key `k`, if any */
  function InputFor(inputs: seq<(string, ApiParam)>, k: string): Option<ApiParam> {
    if inputs == [] then None else if inputs[0].0 == k then Some(inputs[0].1) else InputFor(inputs[1..], k)
  }

  /** What a key holds after the rewrite, given what it held and the input for it */
  function ParamAfter(current: Option<int>, input: Option<ApiParam>): Option<int> {
    if input.None? then current
    else match input.value
      case ParamAbsent => current
      case SameAsPreset => current
      case Unset => None
      case ParamValue(v) => Some(v)
  }

  predicate DistinctNames(inputs: seq<(string, ApiParam)>) {
    forall i, j :: 0 <= i < j < |inputs| ==> inputs[i].0 != inputs[j].0
  }

  /** Each key ends up as its own input says, independently of the others; keys with no
      input are left alone */
  lemma {:induction false} SetParamsPerKey(params: map<string, int>, inputs: seq<(string, ApiParam)>, k: string)
    requires DistinctNames(inputs)
    decreases |inputs|
    ensures Lookup(SetParams(params, inputs), k) == ParamAfter(Lookup(params, k), InputFor(inputs, k))
  {
    if inputs != [] {
      var p1 := SetParam(params, inputs[0].0, inputs[0].1);
      assert DistinctNames(inputs[1..]) by {
        forall i, j | 0 <= i < j < |inputs[1..]|
          ensures inputs[1..][i].0 != inputs[1..][j].0
        {
          assert inputs[i + 1].0 != inputs[j + 1].0;
        }
      }
      SetParamsPerKey(p1, inputs[1..], k);
      if inputs[0].0 == k {
        assert InputFor(inputs[1..], k).None? by {
          NotInTail(inputs, k);
        }
      }
    }
  }

  lemma {:induction false} NotInTail(inputs: seq<(string, ApiParam)>, k: string)
    requires DistinctNames(inputs) && inputs != [] && inputs[0].0 == k
    ensures InputFor(inputs[1..], k).None?
  {
    AbsentNotFound(inputs[1..], k);
  }

  lemma {:induction false} AbsentNotFound(inputs: seq<(string, ApiParam)>, k: string)
    requires forall i :: 0 <= i < |inputs| ==> inputs[i].0 != k
    ensures InputFor(inputs, k).None?
  {
    if inputs != [] {
      AbsentNotFound(inputs[1..], k);
    }
  }

  /** Two maps that look up alike are equal */
  lemma {:induction false} MapsAgree(a: map<string, int>, b: map<string, int>)
    requires forall k :: Lookup(a, k) == Lookup(b, k)
    ensures a == b
  {
    forall k | k in a
      ensures k in b && a[k] == b[k]
    {
      assert Lookup(a, k) == Lookup(b, k);
    }
    forall k | k in b
      ensures k in a
    {
      assert Lookup(a, k) == Lookup(b, k);
    }
  }

  /** Running the rewrite twice is running it once */
  lemma {:induction false} SetParamsIdempotent(params: map<string, int>, inputs: seq<(string, ApiParam)>)
    requires DistinctNames(inputs)
    ensures SetParams(SetParams(params, inputs), inputs) == SetParams(params, inputs)
  {
    var once := SetParams(params, inputs);
    forall k
      ensures Lookup(SetParams(once, inputs), k) == Lookup(once, k)
    {
      SetParamsPerKey(params, inputs, k);
      SetParamsPerKey(once, inputs, k);
    }
    MapsAgree(SetParams(once, inputs), once);
  }

  /** The six parameter names are distinct */
  lemma {:induction false} ParamInputsDistinct(api: CustomApiConfig)
    ensures DistinctNames(ParamInputs(api))
  {
  }

  /** `x || fallback` on an optional text */
  function OrElse(s: Option<string>, fallback: string): string {
    if s.Some? && Truthy(s.value) then s.value else fallback
  }

  /** The chat-completion settings object `CHAT_COMPLETION_SETTINGS_READY` hands to listeners */
  class RequestData {
    var reverseProxy: Option<string>
    var source: Option<string>
    var proxyPassword: Option<string>
    var model: Option<string>
    var params: map<string, int>

    constructor(reverseProxy: Option<string>, source: Option<string>, proxyPassword: Option<string>,
                model: Option<string>, params: map<string, int>)
      ensures this.reverseProxy == reverseProxy && this.source == source && this.proxyPassword == proxyPassword
      ensures this.model == model && this.params == params
    {
      this.reverseProxy := reverseProxy;
      this.source := source;
      this.proxyPassword := proxyPassword;
      this.model := model;
      this.params := params;
    }
  }

  /** `customApiEventHandler(data)`: the endpoint, source (default `openai`), key (default
      empty) and model (even when missing) are overwritten, then the six parameters */
  method ApplyCustomApi(data: RequestData, api: CustomApiConfig)
    modifies data
    ensures data.reverseProxy == api.apiurl && data.source == Some(OrElse(api.source, "openai"))
    ensures data.proxyPassword == Some(OrElse(api.key, "")) && data.model == api.model
    ensures data.params == SetParams(old(data.params), ParamInputs(api))
  {
    data.reverseProxy := api.apiurl;
    data.source := Some(OrElse(api.source, "openai"));
    data.proxyPassword := Some(OrElse(api.key, ""));
    data.model := api.model;
    ghost var p0 := data.params;
    data.params := SetParam(data.params, "max_tokens", api.maxTokens);
    data.params := SetParam(data.params, "temperature", api.temperature);
    data.params := SetParam(data.params, "frequency_penalty", api.frequencyPenalty);
    data.params := SetParam(data.params, "presence_penalty", api.presencePenalty);
    data.params := SetParam(data.params, "top_p", api.topP);
    data.params := SetParam(data.params, "top_k", api.topK);
    SetParamsInOrder(p0, api);
  }

  /** The rewrite is the six `set_param` calls in order */
  lemma {:induction false} SetParamsInOrder(p: map<string, int>, api: CustomApiConfig)
    ensures SetParams(p, ParamInputs(api)) ==
            SetParam(SetParam(SetParam(SetParam(SetParam(SetParam(p,
              "max_tokens", api.maxTokens), "temperature", api.temperature), "frequency_penalty", api.frequencyPenalty),
              "presence_penalty", api.presencePenalty), "top_p", api.topP), "top_k", api.topK)
  {
    var ins := ParamInputs(api);
    var p1 := SetParam(p, "max_tokens", api.maxTokens);
    var p2 := SetParam(p1, "temperature", api.temperature);
    var p3 := SetParam(p2, "frequency_penalty", api.frequencyPenalty);
    var p4 := SetParam(p3, "presence_penalty", api.presencePenalty);
    var p5 := SetParam(p4, "top_p", api.topP);
    var p6 := SetParam(p5, "top_k", api.topK);
    assert ins[1..] == [("temperature", api.temperature), ("frequency_penalty", api.frequencyPenalty),
                        ("presence_penalty", api.presencePenalty), ("top_p", api.topP), ("top_k", api.topK)];
    assert ins[1..][1..] == [("frequency_penalty", api.frequencyPenalty),
                             ("presence_penalty", api.presencePenalty), ("top_p", api.topP), ("top_k", api.topK)];
    assert ins[1..][1..][1..] == [("presence_penalty", api.presencePenalty), ("top_p", api.topP), ("top_k", api.topK)];
    assert ins[1..][1..][1..][1..] == [("top_p", api.topP), ("top_k", api.topK)];
    assert ins[1..][1..][1..][1..][1..] == [("top_k", api.topK)];
    assert SetParams(p6, []) == p6;
    assert SetParams(p5, ins[1..][1..][1..][1..][1..]) == p6;
    assert SetParams(p4, ins[1..][1..][1..][1..]) == p6;
    assert SetParams(p3, ins[1..][1..][1..]) == p6;
    assert SetParams(p2, ins[1..][1..]) == p6;
    assert SetParams(p1, ins[1..]) == p6;
  }

  /** The one-shot `CHAT_COMPLETION_SETTINGS_READY` listener of this generation, if installed */
  class SettingsHook {
    var handler: Option<CustomApiConfig>

    constructor()
      ensures handler.None?
    {
      handler := None;
    }
  }

  /** The handler is installed only for a truthy `apiurl` */
  predicate InstallsHandler(customApi: Option<CustomApiConfig>) {
    customApi.Some? && customApi.value.apiurl.Some? && Truthy(customApi.value.apiurl.value)
  }

  /** The host's `oai_settings.stream_openai` */
  class OaiSettings {
    var streamOpenai: bool

    constructor(streamOpenai: bool)
      ensures this.streamOpenai == streamOpenai
    {
      this.streamOpenai := streamOpenai;
    }
  }

  /** The request's outcome: a stream (its chunks, the stopwatch's ticks, an outside stop
      and a failure, as `StreamingProcessor.Generate` takes them) or a blocking response,
      which may throw */
  datatype Reply =
    | StreamReply(chunks: seq<string>, fires: seq<bool>, stopAt: Option<nat>, failure: Option<string>)
    | BlockingReply(response: Result<Option<ApiResponse>>)

  /** The error the image wait throws for a rejected image promise */
  function ImageFailure(promise: PromiseState): (r: Option<string>)
    ensures r.Some? <==> promise.Rejected?
  {
    if promise.Rejected? then Some("Image processing failed: " + OrElse(Some(promise.reason), "Unknown error")) else None
  }

  /** The listener fires while the request is prepared: it rewrites the settings once and
      detaches itself */
  method FireSettingsReady(hook: SettingsHook, data: RequestData)
    modifies hook, data
    ensures hook.handler.None?
    ensures old(hook.handler).Some? ==>
              data.reverseProxy == old(hook.handler).value.apiurl && data.model == old(hook.handler).value.model
              && data.source == Some(OrElse(old(hook.handler).value.source, "openai"))
              && data.proxyPassword == Some(OrElse(old(hook.handler).value.key, ""))
              && data.params == SetParams(old(data.params), ParamInputs(old(hook.handler).value))
    ensures old(hook.handler).None? ==>
              data.reverseProxy == old(data.reverseProxy) && data.source == old(data.source)
              && data.proxyPassword == old(data.proxyPassword) && data.model == old(data.model)
              && data.params == old(data.params)
  {
    if hook.handler.Some? {
      var api := hook.handler.value;
      hook.handler := None;
      ApplyCustomApi(data, api);
    }
  }

  /** The streaming branch: `stream_openai` is switched on for the request if it was off,
      and switched back only when the processor returns */
  method RunStreaming(bus: EventBus, settings: OaiSettings, id: string, controller: GenerateIndex.Controller,
                      chunks: seq<string>, fires: seq<bool>, stopAt: Option<nat>, failure: Option<string>,
                      host: StreamHost)
    returns (r: Result<Option<string>>)
    requires |fires| == |chunks|
    modifies bus, settings, controller
    ensures r.Err? <==> StopIndex(false, stopAt, |chunks|).None? && failure.Some?
    ensures r.Err? ==> r == Err("Generate method error: " + failure.value) && settings.streamOpenai
    ensures StopIndex(false, stopAt, |chunks|).Some? ==> r == Ok(None)
    ensures StopIndex(false, stopAt, |chunks|).None? && failure.None? ==>
              r == Ok(Some(if chunks == [] then "" else chunks[|chunks| - 1]))
    ensures r.Ok? ==> settings.streamOpenai == old(settings.streamOpenai)
    ensures old(bus.log) <= bus.log
  {
    var originalStreamSetting := settings.streamOpenai;
    if !originalStreamSetting {
      settings.streamOpenai := true;
      bus.log := bus.log + [SaveSettings];
    }
    var processor := new StreamingProcessor(id, controller, bus);
    r := processor.Generate(chunks, fires, stopAt, failure, host);
    if r.Err? {
      return;
    }
    if originalStreamSetting != settings.streamOpenai {
      settings.streamOpenai := originalStreamSetting;
      bus.log := bus.log + [SaveSettings];
    }
  }

  /** The blocking branch: `stream_openai` is off for the request and put back only when
      the request returns; the response is unpacked by `handleResponse` */
  method RunBlocking(bus: EventBus, settings: OaiSettings, id: string, response: Result<Option<ApiResponse>>)
    returns (r: Result<Option<string>>)
    modifies bus, settings
    ensures response.Err? ==> r == Err(response.message) && !settings.streamOpenai && bus.log == old(bus.log)
    ensures response.Ok? ==>
              var h := HandleResponse(response.value, id);
              settings.streamOpenai == old(settings.streamOpenai) && bus.log == old(bus.log) + h.effects
              && r == if h.result.Ok? then Ok(Some(h.result.value)) else Err(h.result.message)
  {
    var shouldStream := settings.streamOpenai;
    settings.streamOpenai := false;
    if response.Err? {
      return Err(response.message);
    }
    settings.streamOpenai := shouldStream;
    var h := HandleResponse(response.value, id);
    bus.log := bus.log + h.effects;
    r := if h.result.Ok? then Ok(Some(h.result.value)) else Err(h.result.message);
  }

  /** The part of `generateResponse` after the image wait: the generation is announced,
      the listener (if any) rewrites the settings as the request is prepared, and the
      request runs in the chosen mode */
  method SendRequest(bus: EventBus, settings: OaiSettings, hook: SettingsHook, data: RequestData, id: string,
                     controller: GenerateIndex.Controller, reply: Reply, host: StreamHost)
    returns (r: Result<Option<string>>)
    requires reply.StreamReply? ==> |reply.fires| == |reply.chunks|
    modifies bus, settings, hook, data, controller
    ensures hook.handler.None?
    ensures old(bus.log) + [Started(id)] <= bus.log
    ensures old(hook.handler).Some? ==>
              data.reverseProxy == old(hook.handler).value.apiurl && data.model == old(hook.handler).value.model
              && data.params == SetParams(old(data.params), ParamInputs(old(hook.handler).value))
    ensures old(hook.handler).None? ==> data.params == old(data.params) && data.model == old(data.model)
    ensures reply.BlockingReply? && reply.response.Ok? ==>
              var h := HandleResponse(reply.response.value, id);
              r == (if h.result.Ok? then Ok(Some(h.result.value)) else Err(h.result.message))
              && settings.streamOpenai == old(settings.streamOpenai)
    ensures reply.BlockingReply? && reply.response.Err? ==> r == Err(reply.response.message) && !settings.streamOpenai
    ensures reply.StreamReply? ==>
              (r.Err? <==> StopIndex(false, reply.stopAt, |reply.chunks|).None? && reply.failure.Some?)
              && (r.Ok? ==> settings.streamOpenai == old(settings.streamOpenai))
              && (r.Err? ==> settings.streamOpenai)
    ensures reply.StreamReply? && StopIndex(false, reply.stopAt, |reply.chunks|).Some? ==> r == Ok(None)
    ensures reply.StreamReply? && StopIndex(false, reply.stopAt, |reply.chunks|).None? && reply.failure.None? ==>
              r == Ok(Some(if reply.chunks == [] then "" else reply.chunks[|reply.chunks| - 1]))
  {
    bus.log := bus.log + [Started(id)];
    FireSettingsReady(hook, data);
    if reply.StreamReply? {
      r := RunStreaming(bus, settings, id, controller, reply.chunks, reply.fires, reply.stopAt, reply.failure, host);
    } else {
      r := RunBlocking(bus, settings, id, reply.response);
    }
  }

  /** The image promise was rejected by the time it is awaited */
  predicate ImageFailed(setup: ImageArraySetup?)
    reads setup
  {
    setup != null && setup.promise.Rejected?
  }

  /** `generateResponse`: the send buttons are disabled; the custom-API listener is
      installed for a truthy `apiurl`; a rejected image promise fails the generation
      before any request; otherwise the generation is announced under its id (a fresh
      `uuid` when none is given) and the request made. The `finally` always detaches the
      listener and clears the `INJECTION` prompts. The image promise is taken as settled
      when it is awaited. */
  method GenerateResponse(bus: EventBus, settings: OaiSettings, store: ExtensionPromptStore, hook: SettingsHook,
                          data: RequestData, useStream: bool, generationId: Option<string>, uuid: string,
                          setup: ImageArraySetup?, controller: GenerateIndex.Controller,
                          customApi: Option<CustomApiConfig>, reply: Reply, host: StreamHost)
    returns (r: Result<Option<string>>)
    requires useStream <==> reply.StreamReply?
    requires reply.StreamReply? ==> |reply.fires| == |reply.chunks|
    requires setup != null ==> !setup.promise.Pending?
    requires hook.handler.None?
    modifies bus, settings, store, hook, data, setup, controller
    ensures hook.handler.None?
    ensures store.prompts == WithoutPrefixed(old(store.prompts), ["INJECTION"])
    ensures setup != null ==> setup.promise == old(setup.promise)
    ensures old(bus.log) + [DeactivateSendButtons] <= bus.log
    ensures old(ImageFailed(setup)) ==>
              r == Err(ImageFailure(old(setup.promise)).value)
              && settings.streamOpenai == old(settings.streamOpenai) && bus.log == old(bus.log) + [DeactivateSendButtons]
              && data.params == old(data.params) && data.model == old(data.model)
    ensures !old(ImageFailed(setup)) ==>
              old(bus.log) + [DeactivateSendButtons, Started(GenerateIndex.GenerationId(generationId, uuid))] <= bus.log
              && (InstallsHandler(customApi) ==>
                    data.reverseProxy == customApi.value.apiurl && data.model == customApi.value.model
                    && data.params == SetParams(old(data.params), ParamInputs(customApi.value)))
              && (!InstallsHandler(customApi) ==> data.params == old(data.params) && data.model == old(data.model))
    ensures !old(ImageFailed(setup)) && reply.BlockingReply? && reply.response.Ok? ==>
              var h := HandleResponse(reply.response.value, GenerateIndex.GenerationId(generationId, uuid));
              r == (if h.result.Ok? then Ok(Some(h.result.value)) else Err(h.result.message))
              && settings.streamOpenai == old(settings.streamOpenai)
    ensures !old(ImageFailed(setup)) && reply.BlockingReply? && reply.response.Err? ==>
              r == Err(reply.response.message) && !settings.streamOpenai
    ensures !old(ImageFailed(setup)) && reply.StreamReply? ==>
              (r.Err? <==> StopIndex(false, reply.stopAt, |reply.chunks|).None? && reply.failure.Some?)
              && (r.Ok? ==> settings.streamOpenai == old(settings.streamOpenai))
              && (r.Err? ==> settings.streamOpenai)
    ensures !old(ImageFailed(setup)) && reply.StreamReply? && StopIndex(false, reply.stopAt, |reply.chunks|).Some? ==>
              r == Ok(None)
    ensures !old(ImageFailed(setup)) && reply.StreamReply? && StopIndex(false, reply.stopAt, |reply.chunks|).None?
              && reply.failure.None? ==>
              r == Ok(Some(if reply.chunks == [] then "" else reply.chunks[|reply.chunks| - 1]))
  {
    bus.log := bus.log + [DeactivateSendButtons];
    if InstallsHandler(customApi) {
      hook.handler := customApi;
    }
    if setup != null && setup.promise.Rejected? {
      r := Err(ImageFailure(setup.promise).value);
      setup.Reject(r.message);
    } else {
      var id := GenerateIndex.GenerationId(generationId, uuid);
      r := SendRequest(bus, settings, hook, data, id, controller, reply, host);
      if r.Err? && setup != null {
        setup.Reject(r.message);
      }
    }
    hook.handler := None;
    store.ClearInjectionPrompts(["INJECTION"]);
  }
}

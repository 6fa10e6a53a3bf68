/** `generate/index.ts`: the registry of running generations (a JavaScript `Map` from
    generation id to `AbortController`, kept as a sequence of entries in insertion order),
    the stop operations, the conversion of the public configs into the internal
    parameters, and the try/catch/finally frame of `iframeGenerate`. */
module GenerateIndex {
  import opened Wrappers
  import opened Strings
  import opened GenTypes
  import opened GenUtils

  // ------------------------------------------------------------ map entries

  /** The keys of a map kept as entries */
  function Keys<V>(e: seq<(string, V)>): (ks: seq<string>)
    ensures |ks| == |e| && forall i :: 0 <= i < |e| ==> ks[i] == e[i].0
  {
    seq(|e|, i requires 0 <= i < |e| => e[i].0)
  }

  /** A `Map` never holds a key twice */
  predicate DistinctKeys<V>(e: seq<(string, V)>) {
    forall i, j :: 0 <= i < j < |e| ==> e[i].0 != e[j].0
  }

  /** The position of key `k`: the first entry holding it */
  function Find<V>(e: seq<(string, V)>, k: string): (r: Option<nat>)
    ensures r.Some? ==> r.value < |e| && e[r.value].0 == k
    ensures r.Some? ==> forall j :: 0 <= j < r.value ==> e[j].0 != k
    ensures r.None? <==> forall i :: 0 <= i < |e| ==> e[i].0 != k
  {
    if e == [] then None
    else if e[0].0 == k then Some(0)
    else match Find(e[1..], k)
      case Some(i) => Some(i + 1)
      case None => None
  }

  /** `map.get(k)` */
  function Get<V>(e: seq<(string, V)>, k: string): Option<V> {
    match Find(e, k)
    case Some(i) => Some(e[i].1)
    case None => None
  }

  /** `map.set(k, v)`: an existing key keeps its place and gets the new value, a new key
      goes last */
  function MapSet<V>(e: seq<(string, V)>, k: string, v: V): (r: seq<(string, V)>)
    ensures |r| == if Find(e, k).Some? then |e| else |e| + 1
    ensures (k, v) in r
    ensures forall i :: 0 <= i < |e| && e[i].0 != k ==> r[i] == e[i]
  {
    match Find(e, k)
    case Some(i) =>
      assert e[i := (k, v)][i] == (k, v);
      e[i := (k, v)]
    case None =>
      assert (e + [(k, v)])[|e|] == (k, v);
      e + [(k, v)]
  }

  /** `map.delete(k)`: at most the entry `Find` reaches is removed, the others stay in
      order */
  function MapDelete<V>(e: seq<(string, V)>, k: string): (r: seq<(string, V)>)
    ensures |r| == if Find(e, k).Some? then |e| - 1 else |e|
    ensures forall x :: x in r ==> x in e
    ensures Find(e, k).None? ==> r == e
  {
    match Find(e, k)
    case Some(i) => e[..i] + e[i + 1..]
    case None => e
  }

  /** The first entry holding a key is where `Find` stops */
  lemma {:induction false} FindIs<V>(e: seq<(string, V)>, k: string, i: nat)
    requires i < |e| && e[i].0 == k
    requires forall j :: 0 <= j < i ==> e[j].0 != k
    ensures Find(e, k) == Some(i)
  {
  }

  /** Two entry lists with the same keys in the same places find every key alike */
  lemma {:induction false} SameKeysSameFind<V>(e: seq<(string, V)>, s: seq<(string, V)>, k: string)
    requires |e| == |s| && forall i :: 0 <= i < |e| ==> e[i].0 == s[i].0
    ensures Find(s, k) == Find(e, k)
  {
    if Find(e, k).Some? {
      FindIs(s, k, Find(e, k).value);
    }
  }

  /** `set` on a key already present */
  lemma {:induction false} MapSetPresent<V>(e: seq<(string, V)>, k: string, v: V, k': string)
    requires DistinctKeys(e) && Find(e, k).Some?
    ensures DistinctKeys(MapSet(e, k, v)) && Keys(MapSet(e, k, v)) == Keys(e)
    ensures Get(MapSet(e, k, v), k) == Some(v)
    ensures k' != k ==> Get(MapSet(e, k, v), k') == Get(e, k')
  {
    var n := Find(e, k).value;
    var s := e[n := (k, v)];
    assert forall i :: 0 <= i < |e| ==> e[i].0 == s[i].0;
    SameKeysSameFind(e, s, k);
    SameKeysSameFind(e, s, k');
  }

  /** `set` on a new key */
  lemma {:induction false} MapSetAbsent<V>(e: seq<(string, V)>, k: string, v: V, k': string)
    requires DistinctKeys(e) && Find(e, k).None?
    ensures DistinctKeys(MapSet(e, k, v)) && Keys(MapSet(e, k, v)) == Keys(e) + [k]
    ensures Get(MapSet(e, k, v), k) == Some(v)
    ensures k' != k ==> Get(MapSet(e, k, v), k') == Get(e, k')
  {
    var s := e + [(k, v)];
    FindIs(s, k, |e|);
    if k' != k && Find(e, k').Some? {
      FindIs(s, k', Find(e, k').value);
    }
  }

  /** After `set`, the key maps to the new value and every other key to what it did */
  lemma {:induction false} MapSetGet<V>(e: seq<(string, V)>, k: string, v: V)
    requires DistinctKeys(e)
    ensures DistinctKeys(MapSet(e, k, v))
    ensures Get(MapSet(e, k, v), k) == Some(v)
    ensures forall k' :: k' != k ==> Get(MapSet(e, k, v), k') == Get(e, k')
    ensures Keys(MapSet(e, k, v)) == if Find(e, k).Some? then Keys(e) else Keys(e) + [k]
  {
    forall k' | k' != k
      ensures Get(MapSet(e, k, v), k') == Get(e, k')
    {
      if Find(e, k).Some? {
        MapSetPresent(e, k, v, k');
      } else {
        MapSetAbsent(e, k, v, k');
      }
    }
    if Find(e, k).Some? {
      MapSetPresent(e, k, v, k);
    } else {
      MapSetAbsent(e, k, v, k);
    }
  }

  /** Removing the entry at position `n` shifts the later ones down by one */
  lemma {:induction false} RemovedAt<V>(e: seq<(string, V)>, n: nat, d: seq<(string, V)>)
    requires n < |e| && d == e[..n] + e[n + 1..]
    ensures |d| == |e| - 1
    ensures forall i :: 0 <= i < |d| ==> d[i] == e[if i < n then i else i + 1]
  {
  }

  /** Removing an entry keeps the keys distinct and removes its key */
  lemma {:induction false} RemovedAtKeys<V>(e: seq<(string, V)>, n: nat, d: seq<(string, V)>)
    requires DistinctKeys(e) && n < |e| && d == e[..n] + e[n + 1..]
    ensures DistinctKeys(d) && Find(d, e[n].0).None?
  {
    RemovedAt(e, n, d);
    forall i, j | 0 <= i < j < |d|
      ensures d[i].0 != d[j].0
    {
      assert d[i] == e[if i < n then i else i + 1];
      assert d[j] == e[if j < n then j else j + 1];
    }
    forall i | 0 <= i < |d|
      ensures d[i].0 != e[n].0
    {
      assert d[i] == e[if i < n then i else i + 1];
    }
  }

  /** Removing an entry does not change where another key is found, beyond the shift */
  lemma {:induction false} RemovedAtFind<V>(e: seq<(string, V)>, n: nat, d: seq<(string, V)>, k': string)
    requires DistinctKeys(e) && n < |e| && d == e[..n] + e[n + 1..] && k' != e[n].0
    ensures Find(e, k').None? ==> Find(d, k').None?
    ensures Find(e, k').Some? ==> Find(d, k') == Some(if Find(e, k').value < n then Find(e, k').value else Find(e, k').value - 1)
  {
    RemovedAt(e, n, d);
    if Find(e, k').Some? {
      RemovedFound(e, n, d, k');
    } else {
      RemovedAbsent(e, n, d, k');
    }
  }

  lemma {:induction false} RemovedFound<V>(e: seq<(string, V)>, n: nat, d: seq<(string, V)>, k': string)
    requires n < |e| && |d| == |e| - 1 && forall i :: 0 <= i < |d| ==> d[i] == e[if i < n then i else i + 1]
    requires k' != e[n].0 && Find(e, k').Some?
    ensures Find(d, k') == Some(if Find(e, k').value < n then Find(e, k').value else Find(e, k').value - 1)
  {
    var m := Find(e, k').value;
    var m' := if m < n then m else m - 1;
    assert d[m'] == e[m];
    forall j | 0 <= j < m'
      ensures d[j].0 != k'
    {
      assert d[j] == e[if j < n then j else j + 1];
    }
    FindIs(d, k', m');
  }

  lemma {:induction false} RemovedAbsent<V>(e: seq<(string, V)>, n: nat, d: seq<(string, V)>, k': string)
    requires n < |e| && |d| == |e| - 1 && forall i :: 0 <= i < |d| ==> d[i] == e[if i < n then i else i + 1]
    requires Find(e, k').None?
    ensures Find(d, k').None?
  {
    forall i | 0 <= i < |d|
      ensures d[i].0 != k'
    {
      assert d[i] == e[if i < n then i else i + 1];
    }
  }

  /** `delete` of a key that is present: what each other key finds */
  lemma {:induction false} MapDeletePresent<V>(e: seq<(string, V)>, k: string, k': string)
    requires DistinctKeys(e) && Find(e, k).Some?
    ensures DistinctKeys(MapDelete(e, k)) && |MapDelete(e, k)| == |e| - 1
    ensures Get(MapDelete(e, k), k).None?
    ensures k' != k ==> Get(MapDelete(e, k), k') == Get(e, k')
  {
    var n := Find(e, k).value;
    var d := e[..n] + e[n + 1..];
    assert d == MapDelete(e, k);
    RemovedAt(e, n, d);
    RemovedAtKeys(e, n, d);
    if k' != k {
      RemovedAtFind(e, n, d, k');
      if Find(e, k').Some? {
        var m := Find(e, k').value;
        assert d[if m < n then m else m - 1] == e[m];
      }
    }
  }

  /** After `delete`, the key is gone, every other key maps to what it did, and the map
      shrank by one exactly when the key was there */
  lemma {:induction false} MapDeleteGet<V>(e: seq<(string, V)>, k: string)
    requires DistinctKeys(e)
    ensures DistinctKeys(MapDelete(e, k))
    ensures Get(MapDelete(e, k), k).None?
    ensures forall k' :: k' != k ==> Get(MapDelete(e, k), k') == Get(e, k')
    ensures |MapDelete(e, k)| == if Find(e, k).Some? then |e| - 1 else |e|
  {
    if Find(e, k).Some? {
      forall k' | k' != k
        ensures Get(MapDelete(e, k), k') == Get(e, k')
      {
        MapDeletePresent(e, k, k');
      }
      MapDeletePresent(e, k, k);
    }
  }

  /** Registering a new id and deleting it again leaves the map as it was */
  lemma {:induction false} SetThenDeleteNew<V>(e: seq<(string, V)>, k: string, v: V)
    requires Find(e, k).None?
    ensures MapDelete(MapSet(e, k, v), k) == e
  {
    FindIs(e + [(k, v)], k, |e|);
    assert (e + [(k, v)])[..|e|] == e;
  }

  /** Registering an id already in use and deleting it drops the earlier controller too */
  lemma {:induction false} SetThenDeleteReused<V>(e: seq<(string, V)>, k: string, v: V)
    requires Find(e, k).Some?
    ensures MapDelete(MapSet(e, k, v), k) == MapDelete(e, k)
  {
    var n := Find(e, k).value;
    var s := e[n := (k, v)];
    assert forall i :: 0 <= i < |e| ==> e[i].0 == s[i].0;
    SameKeysSameFind(e, s, k);
    assert s[..n] == e[..n] && s[n + 1..] == e[n + 1..];
  }

  // --------------------------------------------------------------- registry

  /** An `AbortController`: aborting records the first reason and later aborts do nothing */
  class Controller {
    var abortReason: Option<string>

    constructor()
      ensures abortReason.None?
    {
      abortReason := None;
    }

    method Abort(reason: string)
      modifies this
      ensures abortReason == if old(abortReason).None? then Some(reason) else old(abortReason)
    {
      if abortReason.None? {
        abortReason := Some(reason);
      }
    }
  }

  /** What the registry does to the host: a `GENERATION_STOPPED` event, or a call of
      `unblockGeneration` */
  datatype Effect = GenerationStopped(id: string) | Unblocked

  /** The abort reason `stopGenerationById` and `stopAllGeneration` give */
  function StopReason(id: string): (r: string)
    ensures |r| == |id| + 24 && r[15..15 + |id|] == id
  {
    "Generation ID '" + id + "' stopped"
  }

  /** `generationControllers`, and the host effects it caused, in order */
  class GenerationRegistry {
    var entries: seq<(string, Controller)>
    var log: seq<Effect>

    predicate Valid()
      reads this
    {
      DistinctKeys(entries)
    }

    constructor()
      ensures Valid() && entries == [] && log == []
    {
      entries := [];
      log := [];
    }

    /** `generationControllers.set(id, controller)` */
    method Set(id: string, c: Controller)
      requires Valid()
      modifies this
      ensures Valid() && entries == MapSet(old(entries), id, c) && log == old(log)
      ensures Get(entries, id) == Some(c)
    {
      MapSetGet(entries, id, c);
      entries := MapSet(entries, id, c);
    }

    /** `generationControllers.delete(id)` */
    method Delete(id: string)
      requires Valid()
      modifies this
      ensures Valid() && entries == MapDelete(old(entries), id) && log == old(log)
      ensures Get(entries, id).None?
    {
      MapDeleteGet(entries, id);
      entries := MapDelete(entries, id);
    }

    /** `stopGenerationById`: a registered id is aborted, removed and announced; any other
        id changes nothing */
    method StopGenerationById(id: string) returns (stopped: bool)
      requires Valid()
      modifies this, if Get(entries, id).Some? then {Get(entries, id).value} else {}
      ensures Valid()
      ensures stopped <==> Get(old(entries), id).Some?
      ensures stopped ==> entries == MapDelete(old(entries), id) && log == old(log) + [GenerationStopped(id)]
      ensures stopped ==> var c := Get(old(entries), id).value;
                          c.abortReason == if old(c.abortReason).None? then Some(StopReason(id)) else old(c.abortReason)
      ensures !stopped ==> entries == old(entries) && log == old(log)
    {
      var found := Get(entries, id);
      if found.Some? {
        found.value.Abort(StopReason(id));
        Delete(id);
        log := log + [GenerationStopped(id)];
        return true;
      }
      return false;
    }

    /** `stopAllGeneration`: every controller is aborted and announced in insertion order,
        then the registry is emptied */
    method StopAllGeneration() returns (ok: bool)
      requires Valid()
      modifies this, set e | e in entries :: e.1
      ensures Valid() && ok && entries == []
      ensures log == old(log) + seq(|old(entries)|, i requires 0 <= i < |old(entries)| => GenerationStopped(old(entries)[i].0))
      ensures forall e :: e in old(entries) ==> e.1.abortReason.Some?
    {
      var es := entries;
      var i := 0;
      while i < |es|
        invariant 0 <= i <= |es| && entries == es == old(entries)
        invariant log == old(log) + seq(i, j requires 0 <= j < i => GenerationStopped(es[j].0))
        invariant forall j :: 0 <= j < i ==> entries[j].1.abortReason.Some?
      {
        var (id, controller) := es[i];
        controller.Abort(StopReason(id));
        log := log + [GenerationStopped(id)];
        i := i + 1;
      }
      entries := [];
      return true;
    }

    /** The stop button: when the host's own `stopGeneration` reports a stop, every
        controller is aborted, the registry emptied and the UI unblocked */
    method OnStopClicked(wasStopped: bool)
      requires Valid()
      modifies this, set e | e in entries :: e.1
      ensures Valid()
      ensures wasStopped ==> entries == [] && log == old(log) + [Unblocked]
      ensures wasStopped ==> forall e :: e in old(entries) ==> e.1.abortReason.Some?
      ensures !wasStopped ==> entries == old(entries) && log == old(log)
    {
      if wasStopped {
        var i := 0;
        while i < |entries|
          invariant 0 <= i <= |entries| && entries == old(entries) && log == old(log)
          invariant forall j :: 0 <= j < i ==> entries[j].1.abortReason.Some?
        {
          entries[i].1.Abort("Clicked stop button");
          i := i + 1;
        }
        entries := [];
        log := log + [Unblocked];
      }
    }

    /** The `finally` of `iframeGenerate`: the id is deleted and the UI unblocked when no
        generation is left */
    method Finish(id: string)
      requires Valid()
      modifies this
      ensures Valid() && entries == MapDelete(old(entries), id)
      ensures log == old(log) + (if entries == [] then [Unblocked] else [])
    {
      Delete(id);
      if |entries| == 0 {
        log := log + [Unblocked];
      }
    }
  }

  // ------------------------------------------------------------ conversions

  /** `fromOverrides`: the seven slots are copied and the chat-history group is lifted to
      the top level */
  function FromOverrides(o: Overrides): (c: OverrideConfig)
    ensures o.chatHistory.None? ==> c.withDepthEntries.None? && c.authorNote.None? && c.chatHistory.None?
  {
    var h := o.chatHistory;
    OverrideConfig(
      o.worldInfoBefore, o.personaDescription, o.charDescription, o.charPersonality, o.scenario,
      o.worldInfoAfter, o.dialogueExamples,
      if h.Some? then h.value.withDepthEntries else None,
      if h.Some? then h.value.authorNote else None,
      if h.Some? then h.value.prompts else None)
  }

  /** The text a public override gives a prompt id */
  /** Reading a prompt id from the converted overrides gives what the public overrides
      say for it: the slot of that name, or the matching field of the chat-history group */
  lemma {:induction false} FromOverridesFields(o: Overrides)
    ensures FieldOf(FromOverrides(o), "world_info_before") == TextField(o.worldInfoBefore)
    ensures FieldOf(FromOverrides(o), "persona_description") == TextField(o.personaDescription)
    ensures FieldOf(FromOverrides(o), "char_description") == TextField(o.charDescription)
    ensures FieldOf(FromOverrides(o), "char_personality") == TextField(o.charPersonality)
    ensures FieldOf(FromOverrides(o), "scenario") == TextField(o.scenario)
    ensures FieldOf(FromOverrides(o), "world_info_after") == TextField(o.worldInfoAfter)
    ensures FieldOf(FromOverrides(o), "dialogue_examples") == TextField(o.dialogueExamples)
    ensures o.chatHistory.Some? ==>
              FieldOf(FromOverrides(o), "author_note") == TextField(o.chatHistory.value.authorNote)
    ensures o.chatHistory.Some? && o.chatHistory.value.prompts.Some? ==>
              FieldOf(FromOverrides(o), "chat_history") == FieldPrompts(o.chatHistory.value.prompts.value)
    ensures o.chatHistory.Some? && o.chatHistory.value.withDepthEntries.Some? ==>
              FieldOf(FromOverrides(o), "with_depth_entries") == FieldFlag(o.chatHistory.value.withDepthEntries.value)
    ensures o.chatHistory.None? ==>
              FieldOf(FromOverrides(o), "author_note") == FieldOf(FromOverrides(o), "chat_history")
              == FieldOf(FromOverrides(o), "with_depth_entries") == FieldAbsent
  {
  }

  /** `typeof max_chat_history === 'number' ? max_chat_history : undefined` */
  function MaxHistoryParam(m: Option<MaxChatHistory>): (r: Option<int>)
    ensures r.Some? <==> m.Some? && m.value.HistoryCount?
    ensures r.Some? ==> r.value == m.value.n
  {
    if m.Some? && m.value.HistoryCount? then Some(m.value.n) else None
  }

  /** `fromGenerateConfig`: the preset path, streaming off unless asked, no prompt order */
  function FromGenerateConfig(config: GenerateConfig): (p: GenerateParams)
    ensures p.usePreset == Some(true) && p.order.None?
    ensures p.stream == Some(config.shouldStream.GetOr(false))
    ensures p.maxChatHistory == MaxHistoryParam(config.maxChatHistory)
    ensures p.overrides.Some? <==> config.overrides.Some?
  {
    GenerateParams(
      config.generationId, config.userInput, Some(true), config.image,
      Some(config.shouldStream.GetOr(false)),
      if config.overrides.Some? then Some(FromOverrides(config.overrides.value)) else None,
      MaxHistoryParam(config.maxChatHistory), config.injects, None, config.customApi)
  }

  /** `fromGenerateRawConfig`: the raw path, with `ordered_prompts` as the order */
  function FromGenerateRawConfig(config: GenerateRawConfig): (p: GenerateParams)
    ensures p.usePreset == Some(false) && p.order == config.orderedPrompts
    ensures p.stream == Some(config.shouldStream.GetOr(false))
    ensures p.maxChatHistory == MaxHistoryParam(config.maxChatHistory)
    ensures p.overrides.Some? <==> config.overrides.Some?
  {
    GenerateParams(
      config.generationId, config.userInput, Some(false), config.image,
      Some(config.shouldStream.GetOr(false)),
      if config.overrides.Some? then Some(FromOverrides(config.overrides.value)) else None,
      MaxHistoryParam(config.maxChatHistory), config.injects, config.orderedPrompts, config.customApi)
  }

  /** The public config a raw config corresponds to, without its prompt order */
  function WithoutOrder(config: GenerateRawConfig): GenerateConfig {
    GenerateConfig(config.generationId, config.userInput, config.image, config.shouldStream,
                   config.overrides, config.injects, config.maxChatHistory, config.customApi)
  }

  /** The two conversions differ only in `use_preset` and `order` */
  lemma {:induction false} ConversionsDifferOnlyInPathAndOrder(config: GenerateRawConfig)
    ensures FromGenerateConfig(WithoutOrder(config))
            == FromGenerateRawConfig(config).(usePreset := Some(true), order := None)
  {
  }

  // ---------------------------------------------------------- iframeGenerate

  /** `generation_id || uuidv4()`, the fresh id given as a parameter */
  function GenerationId(given: Option<string>, uuid: string): (id: string)
    ensures given.Some? && given.value != "" ==> id == given.value
    ensures !(given.Some? && given.value != "") ==> id == uuid
  {
    if given.Some? && Truthy(given.value) then given.value else uuid
  }

  /** The frame of `iframeGenerate` around the generation steps, whose outcome is given as
      `outcome` and whose image setup (if any) as `setup`: the id is registered with a
      new controller; on failure the image promise is rejected with the error; in any
      case the image processing is cleaned up and rejected with `Generation stopped` if
      still pending, the id deleted, and the UI unblocked once no generation is left */
  method IframeGenerate(registry: GenerationRegistry, params: GenerateParams, freshId: string,
                        setup: ImageArraySetup?, outcome: Result<string>)
    returns (result: Result<string>, controller: Controller)
    requires registry.Valid()
    modifies registry, setup
    ensures fresh(controller) && controller.abortReason.None?
    ensures result == outcome
    ensures registry.Valid()
    ensures registry.entries == MapDelete(old(registry.entries), GenerationId(params.generationId, freshId))
    ensures registry.log == old(registry.log) + (if registry.entries == [] then [Unblocked] else [])
    ensures setup != null ==>
              !setup.handlerRegistered && !setup.timerPending
              && setup.promise == if old(setup.promise).Pending?
                                  then Rejected(if outcome.Err? then outcome.message else "Generation stopped")
                                  else old(setup.promise)
  {
    var generationId := GenerationId(params.generationId, freshId);
    controller := new Controller();
    registry.Set(generationId, controller);
    if outcome.Err? && setup != null {
      setup.Reject(outcome.message);
    }
    CleanupImageProcessing(setup);
    if Find(old(registry.entries), generationId).None? {
      SetThenDeleteNew(old(registry.entries), generationId, controller);
    } else {
      SetThenDeleteReused(old(registry.entries), generationId, controller);
    }
    registry.Finish(generationId);
    result := outcome;
  }

  /** `cleanupImageProcessing`: detach the listener, then reject a still pending promise */
  method CleanupImageProcessing(setup: ImageArraySetup?)
    modifies setup
    ensures setup != null ==>
              !setup.handlerRegistered && !setup.timerPending
              && setup.promise == if old(setup.promise).Pending? then Rejected("Generation stopped") else old(setup.promise)
  {
    if setup != null {
      setup.Cleanup();
      setup.Reject("Generation stopped");
    }
  }
}

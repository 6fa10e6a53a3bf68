/** The `StreamingProcessor` of `responseGenerator.ts`: each streamed text is turned into the
    increment since the previous tick, cleaned, and (while the stream is open) balanced
    so that `*`, `"` and code fences come in pairs; the full and the incremental text are
    announced on the event bus, and the last tick announces the cleaned message. */
module Streaming {
  import opened Wrappers
  import opened Strings
  import GenerateIndex

  // -------------------------------------------------------------- counting

  /** `countOccurrences` is the host's overlapping count, `Count` here. Occurrences that
      cannot straddle the seam of a concatenation add up. */
  lemma {:induction false} CountConcat(x: string, y: string, m: string)
    requires |m| > 0
    requires forall i :: 0 <= i < |x| < i + |m| ==> !OccursAt(x + y, m, i)
    ensures Count(x + y, m) == Count(x, m) + Count(y, m)
  {
    if x == [] {
      assert x + y == y;
    } else {
      var s := x + y;
      assert s[1..] == x[1..] + y;
      forall i | 0 <= i < |x[1..]| < i + |m|
        ensures !OccursAt(x[1..] + y, m, i)
      {
        assert !OccursAt(s, m, i + 1);
        if i + |m| <= |s[1..]| {
          assert s[1..][i..i + |m|] == s[i + 1..i + 1 + |m|];
        }
      }
      CountConcat(x[1..], y, m);
      if |x| >= |m| {
        assert s[..|m|] == x[..|m|];
      } else {
        assert !OccursAt(s, m, 0);
        CountShort(x[1..], m);
      }
    }
  }

  lemma {:induction false} CountShort(s: string, m: string)
    requires |m| > 0 && |s| < |m|
    ensures Count(s, m) == 0
  {
  }

  /** A text none of whose characters starts the pattern holds no occurrence of it */
  lemma {:induction false} CountNoStart(s: string, m: string)
    requires |m| > 0
    requires forall i :: 0 <= i < |s| ==> s[i] != m[0]
    ensures Count(s, m) == 0
  {
    if |s| >= |m| {
      assert s[..|m|][0] == s[0];
      CountNoStart(s[1..], m);
    }
  }

  /** A pattern without whitespace is counted the same after `trimEnd` */
  lemma {:induction false} CountTrimEnd(t: string, m: string)
    requires |m| > 0 && forall j :: 0 <= j < |m| ==> !IsSpace(m[j])
    ensures Count(TrimEnd(t), m) == Count(t, m)
  {
    var x := TrimEnd(t);
    var w := t[|x|..];
    assert t == x + w;
    forall i | 0 <= i < |x| < i + |m|
      ensures !OccursAt(x + w, m, i)
    {
      if i + |m| <= |t| {
        assert t[i..i + |m|][|x| - i] == t[|x|];
        assert IsSpace(t[|x|]);
      }
    }
    CountConcat(x, w, m);
    CountNoStart(w, m);
  }

  /** Appending a text that begins with a character foreign to the pattern (or any text,
      for a one-character pattern) adds that text's own occurrences */
  lemma {:induction false} CountAppend(x: string, z: string, m: string)
    requires |m| > 0 && z != []
    requires |m| == 1 || z[0] !in m
    ensures Count(x + z, m) == Count(x, m) + Count(z, m)
  {
    if |m| > 1 {
      forall i | 0 <= i < |x| < i + |m|
        ensures !OccursAt(x + z, m, i)
      {
        if i + |m| <= |x + z| {
          assert (x + z)[i..i + |m|][|x| - i] == z[0];
        }
      }
    }
    CountConcat(x, z, m);
  }

  // ------------------------------------------------------------- balancing

  /** `charsToBalance`, in the order they are balanced */
  const Markers: seq<string> := ["*", "\"", "```"]

  /** A multi-character marker goes on its own line */
  function Separator(m: string): string {
    if |m| > 1 then "\n" else ""
  }

  /** One step of the balancing loop: an odd count closes the marker after trimming the end */
  function BalanceMarker(t: string, m: string): (r: string)
    requires |m| > 0
    ensures Count(t, m) % 2 == 0 ==> r == t
    ensures Count(t, m) % 2 == 1 ==> TrimEnd(t) <= r && |m| <= |r| && r[|r| - |m|..] == m
  {
    if Count(t, m) % 2 == 1 then TrimEnd(t) + Separator(m) + m else t
  }

  /** The balancing loop over `ms`, in order */
  function BalanceAll(t: string, ms: seq<string>): string
    requires forall m :: m in ms ==> |m| > 0
  {
    if ms == [] then t else BalanceMarker(BalanceAll(t, ms[..|ms| - 1]), ms[|ms| - 1])
  }

  /** A prefix that ends in a non-space character survives `trimEnd` */
  lemma {:induction false} PrefixSurvivesTrimEnd(p: string, s: string)
    requires p <= s && (p == [] || !IsSpace(p[|p| - 1]))
    ensures p <= TrimEnd(s)
  {
    var k := |TrimEnd(s)|;
    assert p != [] ==> s[|p| - 1] == p[|p| - 1];
    assert p != [] ==> |p| <= k;
  }

  /** The loop only ever appends after trimming trailing whitespace: the trimmed
      increment is a prefix of the balanced one */
  lemma {:induction false} BalanceAllKeepsTrimmed(t: string, ms: seq<string>)
    requires forall m :: m in ms ==> |m| > 0
    ensures TrimEnd(t) <= BalanceAll(t, ms)
  {
    if ms != [] {
      var init := ms[..|ms| - 1];
      BalanceAllKeepsTrimmed(t, init);
      PrefixSurvivesTrimEnd(TrimEnd(t), BalanceAll(t, init));
    }
  }

  /** The closing text appended for each marker, and what it holds of each marker */
  lemma {:induction false} ClosingCounts()
    ensures Count("*", "*") == 1 && Count("*", "\"") == 0 && Count("*", "```") == 0
    ensures Count("\"", "\"") == 1 && Count("\"", "*") == 0 && Count("\"", "```") == 0
    ensures Count("\n```", "```") == 1 && Count("\n```", "*") == 0 && Count("\n```", "\"") == 0
  {
    CountNoStart("*", "\"");
    CountNoStart("*", "```");
    CountNoStart("\"", "*");
    CountNoStart("\"", "```");
    CountNoStart("\n```", "*");
    CountNoStart("\n```", "\"");
    assert "\n```"[1..] == "```";
    CountShort("``", "```");
    assert "```"[1..] == "``";
  }

  /** Appending a closing text `z` after trimming: the count of a marker without
      whitespace grows by what `z` holds of it */
  lemma {:induction false} ClosedCount(t: string, z: string, m: string)
    requires |m| > 0 && z != [] && (|m| == 1 || z[0] !in m)
    requires forall j :: 0 <= j < |m| ==> !IsSpace(m[j])
    ensures Count(TrimEnd(t) + z, m) == Count(t, m) + Count(z, m)
  {
    CountTrimEnd(t, m);
    CountAppend(TrimEnd(t), z, m);
  }

  /** A balancing step with closing text `z` makes the count of its own marker even */
  lemma {:induction false} BalanceStepOwn(t: string, m: string, z: string)
    requires |m| > 0 && z == Separator(m) + m
    requires forall j :: 0 <= j < |m| ==> !IsSpace(m[j])
    requires Count(z, m) == 1 && (|m| == 1 || z[0] !in m)
    ensures Count(BalanceMarker(t, m), m) % 2 == 0
  {
    var u := BalanceMarker(t, m);
    if Count(t, m) % 2 == 1 {
      assert u == TrimEnd(t) + z;
      OddCountClosed(t, m, z);
    } else {
      assert u == t;
    }
  }

  /** Closing an odd count with one more marker makes it even */
  lemma {:induction false} OddCountClosed(t: string, m: string, z: string)
    requires |m| > 0 && z != [] && Count(z, m) == 1 && (|m| == 1 || z[0] !in m)
    requires forall j :: 0 <= j < |m| ==> !IsSpace(m[j])
    requires Count(t, m) % 2 == 1
    ensures Count(TrimEnd(t) + z, m) % 2 == 0
  {
    ClosedCount(t, z, m);
  }

  /** ... and leaves the count of a marker `z` holds none of */
  lemma {:induction false} BalanceStepOther(t: string, m: string, m': string, z: string)
    requires |m| > 0 && |m'| > 0 && z == Separator(m) + m
    requires forall j :: 0 <= j < |m'| ==> !IsSpace(m'[j])
    requires Count(z, m') == 0 && (|m'| == 1 || z[0] !in m')
    ensures Count(BalanceMarker(t, m), m') == Count(t, m')
  {
    var u := BalanceMarker(t, m);
    if Count(t, m) % 2 == 1 {
      assert u == TrimEnd(t) + z;
      ClosedCount(t, z, m');
      assert Count(u, m') == Count(t, m') + 0;
    } else {
      assert u == t;
    }
  }

  /** A balancing step makes its marker's count even and leaves the other markers' counts */
  lemma {:induction false} BalanceMarkerCounts(t: string, m: string, m': string)
    requires m in Markers && m' in Markers
    ensures Count(BalanceMarker(t, m), m) % 2 == 0
    ensures m' != m ==> Count(BalanceMarker(t, m), m') == Count(t, m')
  {
    ClosingCounts();
    assert forall j :: 0 <= j < |m| ==> !IsSpace(m[j]);
    assert forall j :: 0 <= j < |m'| ==> !IsSpace(m'[j]);
    var z := if m == "```" then "\n```" else m;
    BalanceStepOwn(t, m, z);
    if m' != m {
      BalanceStepOther(t, m, m', z);
    }
  }

  /** While the stream is open, the balanced increment has an even number of each marker */
  lemma {:induction false} BalancedMarkersPaired(t: string)
    ensures forall m :: m in Markers ==> Count(BalanceAll(t, Markers), m) % 2 == 0
  {
    var t1 := BalanceAll(t, Markers[..1]);
    var t2 := BalanceAll(t, Markers[..2]);
    assert Markers[..3] == Markers && Markers[..2][..1] == Markers[..1] && Markers[..1][..0] == [];
    assert Markers[..1][0] == "*" && Markers[..2][1] == "\"" && Markers[2] == "```";
    assert BalanceAll(t, []) == t;
    assert t1 == BalanceMarker(t, "*");
    assert t2 == BalanceMarker(t1, "\"");
    assert BalanceAll(t, Markers) == BalanceMarker(t2, "```");
    BalanceMarkerCounts(t, "*", "*");
    BalanceMarkerCounts(t1, "\"", "*");
    BalanceMarkerCounts(t1, "\"", "\"");
    BalanceMarkerCounts(t2, "```", "*");
    BalanceMarkerCounts(t2, "```", "\"");
    BalanceMarkerCounts(t2, "```", "```");
  }

  /** An increment whose markers are already paired is left as it is */
  lemma {:induction false} BalancedUnchanged(t: string, ms: seq<string>)
    requires forall m :: m in ms ==> |m| > 0 && Count(t, m) % 2 == 0
    ensures BalanceAll(t, ms) == t
  {
    if ms != [] {
      BalancedUnchanged(t, ms[..|ms| - 1]);
    }
  }

  // ----------------------------------------------------------- increments

  /** `text.slice(messageBuffer.length)` */
  function NewText(buffer: string, text: string): (r: string)
    ensures |buffer| <= |text| ==> |r| == |text| - |buffer|
  {
    if |buffer| <= |text| then text[|buffer|..] else ""
  }

  /** The increments of a run of texts, each taken against the previous one */
  function Increments(buffer: string, texts: seq<string>): seq<string>
    decreases |texts|
  {
    if texts == [] then [] else [NewText(buffer, texts[0])] + Increments(texts[0], texts[1..])
  }

  function Concat(ss: seq<string>): string {
    if ss == [] then "" else ss[0] + Concat(ss[1..])
  }

  /** Each text extends the one before it */
  predicate Growing(buffer: string, texts: seq<string>) {
    (texts != [] ==> buffer <= texts[0]) && forall i :: 0 < i < |texts| ==> texts[i - 1] <= texts[i]
  }

  /** When every streamed text extends the previous one, the increments put together
      after the starting buffer give the last text */
  lemma {:induction false} IncrementsRebuildText(buffer: string, texts: seq<string>)
    requires Growing(buffer, texts)
    decreases |texts|
    ensures buffer + Concat(Increments(buffer, texts)) == if texts == [] then buffer else texts[|texts| - 1]
  {
    if texts != [] {
      var x, rest := NewText(buffer, texts[0]), Increments(texts[0], texts[1..]);
      assert Increments(buffer, texts) == [x] + rest;
      assert Concat([x] + rest) == x + Concat(rest);
      assert buffer + x == texts[0];
      GrowingTail(buffer, texts);
      IncrementsRebuildText(texts[0], texts[1..]);
      assert buffer + (x + Concat(rest)) == (buffer + x) + Concat(rest);
    }
  }

  lemma {:induction false} GrowingTail(buffer: string, texts: seq<string>)
    requires texts != [] && Growing(buffer, texts)
    ensures Growing(texts[0], texts[1..])
  {
    if |texts| > 1 {
      assert texts[0] <= texts[1];
    }
    forall i | 0 < i < |texts[1..]|
      ensures texts[1..][i - 1] <= texts[1..][i]
    {
      assert texts[i] <= texts[i + 1];
    }
  }

  // ----------------------------------------------------------- the processor

  /** What the core announces or asks of the host, in order */
  datatype Effect =
    | TokenFully(text: string, id: string)
    | TokenIncrementally(text: string, id: string)
    | BeforeEnd(message: string, id: string)
    | Ended(message: string, id: string)
    | Started(id: string)
    | UnblockGeneration
    | SaveChat
    | SaveSettings
    | ErrorToast(text: string)
    | DeactivateSendButtons

  predicate IsToken(e: Effect) {
    e.TokenFully? || e.TokenIncrementally?
  }

  /** The host's event bus and side effects, as an append-only log */
  class EventBus {
    var log: seq<Effect>

    constructor()
      ensures log == []
    {
      log := [];
    }
  }

  /** `cleanUpMessage(text, false, false, isPartial, stoppingStrings)`, with the processor's
      stopping strings (never set, so `undefined`) */
  datatype StreamHost = StreamHost(cleanUp: (string, bool) -> string)

  /** The increment as announced: cleaned, and balanced unless it is the final tick */
  function Processed(increment: string, isFinal: bool, host: StreamHost): (p: string)
    ensures !isFinal ==> forall m :: m in Markers ==> Count(p, m) % 2 == 0
  {
    var cleaned := host.cleanUp(increment, !isFinal);
    if isFinal then cleaned
    else
      BalancedMarkersPaired(cleaned);
      BalanceAll(cleaned, Markers)
  }

  /** The events of one tick: the full text, the processed increment, and on the final
      tick the cleaned message twice (before-end and ended) */
  function TickEvents(buffer: string, text: string, isFinal: bool, id: string, host: StreamHost): (es: seq<Effect>)
    ensures |es| == if isFinal then 4 else 2
    ensures es[0] == TokenFully(text, id)
    ensures es[1] == TokenIncrementally(Processed(NewText(buffer, text), isFinal, host), id)
    ensures isFinal ==> es[3] == Ended(host.cleanUp(text, false), id)
  {
    [TokenFully(text, id), TokenIncrementally(Processed(NewText(buffer, text), isFinal, host), id)]
    + (if isFinal then [BeforeEnd(host.cleanUp(text, false), id), Ended(host.cleanUp(text, false), id)] else [])
  }

  /** The abort reason of `abort()` called without one */
  const DefaultAbortReason: string := "This operation was aborted"

  /** Where the stream loop sees `isStopped`: at the first chunk when it was already set,
      else at the chunk before which another holder set it (`stopAt`) */
  function StopIndex(stoppedAlready: bool, stopAt: Option<nat>, n: nat): (k: Option<nat>)
    ensures k.Some? ==> k.value < n
  {
    if n == 0 then None
    else if stoppedAlready then Some(0)
    else if stopAt.Some? && stopAt.value < n then Some(stopAt.value)
    else None
  }

  /** Balancing one more marker extends the loop by one step */
  lemma {:induction false} BalanceAllStep(t: string, ms: seq<string>, i: nat)
    requires i < |ms| && forall m :: m in ms ==> |m| > 0
    ensures BalanceAll(t, ms[..i + 1]) == BalanceMarker(BalanceAll(t, ms[..i]), ms[i])
  {
    assert ms[..i + 1][..i] == ms[..i];
  }

  /** The balancing loop of `onProgressStreaming`, over the cleaned increment */
  method BalanceIncrement(cleaned: string, isFinal: bool) returns (processedText: string)
    ensures processedText == if isFinal then cleaned else BalanceAll(cleaned, Markers)
  {
    processedText := cleaned;
    var i := 0;
    while i < |Markers|
      invariant 0 <= i <= |Markers|
      invariant processedText == if isFinal then cleaned else BalanceAll(cleaned, Markers[..i])
    {
      var marker := Markers[i];
      ghost var before := processedText;
      if !isFinal && Count(processedText, marker) % 2 == 1 {
        var separator := if |marker| > 1 then "\n" else "";
        processedText := TrimEnd(processedText) + separator + marker;
      }
      assert !isFinal ==> processedText == BalanceMarker(before, marker);
      BalanceAllStep(cleaned, Markers, i);
      i := i + 1;
    }
    assert Markers[..|Markers|] == Markers;
  }

  class StreamingProcessor {
    const generationId: string
    const abortController: GenerateIndex.Controller
    const bus: EventBus
    var result: string
    var isStopped: bool
    var isFinished: bool
    var messageBuffer: string

    constructor(generationId: string, abortController: GenerateIndex.Controller, bus: EventBus)
      ensures this.generationId == generationId && this.abortController == abortController && this.bus == bus
      ensures result == "" && messageBuffer == "" && !isStopped && !isFinished
    {
      this.generationId := generationId;
      this.abortController := abortController;
      this.bus := bus;
      result := "";
      messageBuffer := "";
      isStopped := false;
      isFinished := false;
    }

    /** `onProgressStreaming({text, isFinal})` */
    method OnProgressStreaming(text: string, isFinal: bool, host: StreamHost)
      modifies this, bus
      ensures messageBuffer == text
      ensures bus.log == old(bus.log) + TickEvents(old(messageBuffer), text, isFinal, generationId, host)
      ensures result == old(result) && isStopped == old(isStopped) && isFinished == old(isFinished)
    {
      var newText := if |messageBuffer| <= |text| then text[|messageBuffer|..] else "";
      messageBuffer := text;
      var processedText := BalanceIncrement(host.cleanUp(newText, !isFinal), isFinal);
      bus.log := bus.log + [TokenFully(text, generationId), TokenIncrementally(processedText, generationId)];
      if isFinal {
        var message := host.cleanUp(text, false);
        bus.log := bus.log + [BeforeEnd(message, generationId), Ended(message, generationId)];
      }
    }

    /** `onErrorStreaming`: abort, mark stopped, unblock the UI and save the chat */
    method OnErrorStreaming()
      modifies this, abortController, bus
      ensures isStopped && result == old(result) && isFinished == old(isFinished) && messageBuffer == old(messageBuffer)
      ensures abortController.abortReason ==
                if old(abortController.abortReason).None? then Some(DefaultAbortReason) else old(abortController.abortReason)
      ensures bus.log == old(bus.log) + [UnblockGeneration, SaveChat]
    {
      abortController.Abort(DefaultAbortReason);
      isStopped := true;
      bus.log := bus.log + [UnblockGeneration, SaveChat];
    }

    /** `generate()` over a stream that yields `chunks` and then ends, or throws `failure`;
        `fires[i]` says whether the frame-rate stopwatch lets chunk `i` through, and
        `stopAt` when another holder of the processor sets `isStopped`. A stop returns
        `undefined` (`None`) with no final event; completion ticks once more as final and
        returns the raw last text; an error before finishing aborts and rethrows. */
    method Generate(chunks: seq<string>, fires: seq<bool>, stopAt: Option<nat>, failure: Option<string>, host: StreamHost)
      returns (r: Result<Option<string>>)
      requires |fires| == |chunks|
      modifies this, abortController, bus
      ensures old(bus.log) <= bus.log
      ensures StopIndex(old(isStopped), stopAt, |chunks|).Some? ==>
                var k := StopIndex(old(isStopped), stopAt, |chunks|).value;
                r == Ok(None) && isStopped && messageBuffer == "" && isFinished == old(isFinished)
                && result == (if k == 0 then old(result) else chunks[k - 1])
                && abortController.abortReason == old(abortController.abortReason)
                && forall j :: |old(bus.log)| <= j < |bus.log| ==> IsToken(bus.log[j])
      ensures StopIndex(old(isStopped), stopAt, |chunks|).None? ==>
                result == (if chunks == [] then old(result) else chunks[|chunks| - 1])
      ensures StopIndex(old(isStopped), stopAt, |chunks|).None? && failure.Some? && !old(isFinished) ==>
                r == Err("Generate method error: " + failure.value) && isStopped && !isFinished
                && abortController.abortReason ==
                     (if old(abortController.abortReason).None? then Some(DefaultAbortReason) else old(abortController.abortReason))
                && |bus.log| >= |old(bus.log)| + 2 && bus.log[|bus.log| - 2..] == [UnblockGeneration, SaveChat]
                && forall j :: |old(bus.log)| <= j < |bus.log| - 2 ==> IsToken(bus.log[j])
      ensures StopIndex(old(isStopped), stopAt, |chunks|).None? && failure.Some? && old(isFinished) ==>
                r == Ok(Some(result)) && messageBuffer == "" && isFinished
                && abortController.abortReason == old(abortController.abortReason)
      ensures StopIndex(old(isStopped), stopAt, |chunks|).None? && failure.None? ==>
                r == Ok(Some(result)) && isFinished
                && abortController.abortReason == old(abortController.abortReason)
                && (isStopped ==> messageBuffer == "" && forall j :: |old(bus.log)| <= j < |bus.log| ==> IsToken(bus.log[j]))
                && (!isStopped ==> messageBuffer == result && |bus.log| >= |old(bus.log)| + 4
                                   && bus.log[|bus.log| - 1] == Ended(host.cleanUp(result, false), generationId))
    {
      var stopped := StreamChunks(chunks, fires, stopAt, host);
      if stopped {
        return Ok(None);
      }
      if stopAt == Some(|chunks|) {
        isStopped := true;
      }
      r := FinishStream(failure, host);
    }

    /** The `for await` loop over the chunks: each chunk becomes the result and, when the
        stopwatch lets it through, a tick; the loop leaves early once `isStopped` is seen */
    method StreamChunks(chunks: seq<string>, fires: seq<bool>, stopAt: Option<nat>, host: StreamHost)
      returns (stopped: bool)
      requires |fires| == |chunks|
      modifies this, bus
      ensures stopped <==> StopIndex(old(isStopped), stopAt, |chunks|).Some?
      ensures stopped ==>
                var k := StopIndex(old(isStopped), stopAt, |chunks|).value;
                isStopped && messageBuffer == "" && result == (if k == 0 then old(result) else chunks[k - 1])
      ensures !stopped ==>
                isStopped == old(isStopped) && result == (if chunks == [] then old(result) else chunks[|chunks| - 1])
      ensures isFinished == old(isFinished)
      ensures old(bus.log) <= bus.log && forall j :: |old(bus.log)| <= j < |bus.log| ==> IsToken(bus.log[j])
    {
      var i := 0;
      while i < |chunks|
        invariant 0 <= i <= |chunks|
        invariant i > 0 ==> !old(isStopped) && (stopAt.None? || stopAt.value >= i)
        invariant isStopped == old(isStopped) && isFinished == old(isFinished)
        invariant result == if i == 0 then old(result) else chunks[i - 1]
        invariant old(bus.log) <= bus.log && forall j :: |old(bus.log)| <= j < |bus.log| ==> IsToken(bus.log[j])
      {
        if stopAt == Some(i) {
          isStopped := true;
        }
        if isStopped {
          messageBuffer := "";
          return true;
        }
        result := chunks[i];
        if fires[i] {
          OnProgressStreaming(result, false, host);
        }
        i := i + 1;
      }
      return false;
    }

    /** After the stream loop: a thrown error is reported once (a finished processor only
        clears its buffer), otherwise the final tick runs unless stopped and the processor
        is marked finished */
    method FinishStream(failure: Option<string>, host: StreamHost) returns (r: Result<Option<string>>)
      modifies this, abortController, bus
      ensures result == old(result)
      ensures failure.Some? && !old(isFinished) ==>
                r == Err("Generate method error: " + failure.value) && isStopped && !isFinished
                && abortController.abortReason ==
                     (if old(abortController.abortReason).None? then Some(DefaultAbortReason) else old(abortController.abortReason))
                && bus.log == old(bus.log) + [UnblockGeneration, SaveChat]
      ensures failure.Some? && old(isFinished) ==>
                r == Ok(Some(result)) && messageBuffer == "" && isFinished && isStopped == old(isStopped)
                && abortController.abortReason == old(abortController.abortReason) && bus.log == old(bus.log)
      ensures failure.None? ==>
                r == Ok(Some(result)) && isFinished && isStopped == old(isStopped)
                && abortController.abortReason == old(abortController.abortReason)
                && (isStopped ==> messageBuffer == "" && bus.log == old(bus.log))
                && (!isStopped ==> messageBuffer == result
                                   && bus.log == old(bus.log) + TickEvents(old(messageBuffer), result, true, generationId, host))
    {
      if failure.Some? {
        if !isFinished {
          OnErrorStreaming();
          return Err("Generate method error: " + failure.value);
        }
        messageBuffer := "";
        return Ok(Some(result));
      }
      if !isStopped {
        OnProgressStreaming(result, true, host);
      } else {
        messageBuffer := "";
      }
      isFinished := true;
      return Ok(Some(result));
    }
  }
}

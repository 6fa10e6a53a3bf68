/** `populationInjectionPrompts`: the author's note, the persona description at depth,
    the world-info depth entries and the custom injections are grouped by depth and
    role, and each depth's group is spliced into the newest-first message list so that
    exactly `depth` original messages come before it. */
module Injection {
  import opened Wrappers
  import opened Strings
  import opened GenTypes
  import opened GenUtils
  import DataProcessor
  import Seqs

  /** An entry of the chat list: an original prompt, the user prompt, or an injected message */
  datatype ChatPrompt = ChatPrompt(role: Role, content: Content, image: ImageInput, injected: bool)

  /** A history `RolePrompt` as a chat-list entry */
  function FromRolePrompt(p: RolePrompt): (c: ChatPrompt)
    ensures !c.injected && c.role == p.role && c.content == Plain(p.content) && c.image == p.image
  {
    ChatPrompt(p.role, Plain(p.content), p.image, false)
  }

  /** An injection candidate: its role as text, its content and its depth */
  datatype Candidate = Candidate(role: string, content: string, depth: int)

  /** The author's note, when its text is non-empty */
  function NoteCandidate(store: map<string, ExtensionPrompt>): (r: seq<Candidate>)
    ensures |r| <= 1
    ensures r != [] <==> DataProcessor.NoteKey in store && Truthy(store[DataProcessor.NoteKey].value)
  {
    match DataProcessor.Lookup(store, DataProcessor.NoteKey)
    case Some(note) =>
      if Truthy(note.value) then [Candidate(RoleName(GetPromptRole(note.role)), note.value, note.depth)] else []
    case None => []
  }

  /** The persona description, when set to be injected at depth */
  function PersonaCandidate(persona: PersonaSettings): (r: seq<Candidate>)
    ensures r != [] <==> Truthy(persona.description) && persona.position == PersonaAtDepth
  {
    if Truthy(persona.description) && persona.position == PersonaAtDepth
    then [Candidate("system", persona.description, persona.depth)] else []
  }

  /** One candidate per world-info depth entry, its text read back from the extension prompts */
  function DepthCandidate(e: DepthEntry, promptByName: string -> string): Candidate {
    Candidate(RoleName(GetPromptRole(e.role)), promptByName(DataProcessor.DepthKey(e)), e.depth)
  }

  function DepthCandidates(entries: seq<DepthEntry>, promptByName: string -> string): (r: seq<Candidate>)
    ensures |r| == |entries|
    ensures forall i :: 0 <= i < |r| ==>
              r[i] == Candidate(RoleName(GetPromptRole(entries[i].role)), promptByName(DataProcessor.DepthKey(entries[i])), entries[i].depth)
  {
    seq(|entries|, i requires 0 <= i < |entries| => DepthCandidate(entries[i], promptByName))
  }

  /** The custom injections; a missing (or zero) depth is depth 0 */
  function CustomCandidates(injects: seq<InjectionPrompt>): (r: seq<Candidate>)
    ensures |r| == |injects|
    ensures forall i :: 0 <= i < |r| ==> r[i].role == injects[i].role && r[i].content == injects[i].content
    ensures forall i :: 0 <= i < |r| ==> r[i].depth == injects[i].depth.GetOr(0)
  {
    seq(|injects|, i requires 0 <= i < |injects| =>
      Candidate(injects[i].role, injects[i].content, if injects[i].depth.Some? then injects[i].depth.value else 0))
  }

  /** Every candidate, in the order the source collects them */
  function Candidates(store: map<string, ExtensionPrompt>, persona: PersonaSettings, depthEntries: Option<seq<DepthEntry>>,
                      overrides: Option<OverrideConfig>, injects: seq<InjectionPrompt>, promptByName: string -> string)
    : seq<Candidate>
  {
    NoteCandidate(store) + PersonaCandidate(persona)
    + (if !IsPromptFiltered("char_depth_prompt", overrides) && depthEntries.Some?
       then DepthCandidates(depthEntries.value, promptByName) else [])
    + CustomCandidates(injects)
  }

  /** The collection loops of `populationInjectionPrompts`: the author's note, the
      persona, the world-info depth entries and the custom injections, in that order */
  method CollectCandidates(store: map<string, ExtensionPrompt>, persona: PersonaSettings, depthEntries: Option<seq<DepthEntry>>,
                           overrides: Option<OverrideConfig>, injects: seq<InjectionPrompt>, promptByName: string -> string)
    returns (cs: seq<Candidate>)
    ensures cs == Candidates(store, persona, depthEntries, overrides, injects, promptByName)
  {
    cs := [];
    var authorsNote := DataProcessor.Lookup(store, DataProcessor.NoteKey);
    if authorsNote.Some? && Truthy(authorsNote.value.value) {
      cs := cs + [Candidate(RoleName(GetPromptRole(authorsNote.value.role)), authorsNote.value.value, authorsNote.value.depth)];
    }
    assert cs == NoteCandidate(store);
    if Truthy(persona.description) && persona.position == PersonaAtDepth {
      cs := cs + [Candidate("system", persona.description, persona.depth)];
    }
    ghost var front := NoteCandidate(store) + PersonaCandidate(persona);
    assert cs == front;
    ghost var depth := if !IsPromptFiltered("char_depth_prompt", overrides) && depthEntries.Some?
                       then DepthCandidates(depthEntries.value, promptByName) else [];
    if !IsPromptFiltered("char_depth_prompt", overrides) && depthEntries.Some? {
      cs := PushDepthCandidates(cs, depthEntries.value, promptByName);
    }
    assert cs == front + depth;
    cs := PushCustomCandidates(cs, injects);
  }

  /** The loop over the world-info depth entries */
  method PushDepthCandidates(cs0: seq<Candidate>, entries: seq<DepthEntry>, promptByName: string -> string)
    returns (cs: seq<Candidate>)
    ensures cs == cs0 + DepthCandidates(entries, promptByName)
  {
    cs := cs0;
    for k := 0 to |entries|
      invariant cs == cs0 + DepthCandidates(entries[..k], promptByName)
    {
      DepthCandidatesPrefix(entries, k, promptByName);
      var entry := entries[k];
      cs := cs + [Candidate(RoleName(GetPromptRole(entry.role)), promptByName(DataProcessor.DepthKey(entry)), entry.depth)];
    }
    assert entries[..|entries|] == entries;
  }

  /** The loop over the custom injections */
  method PushCustomCandidates(cs0: seq<Candidate>, injects: seq<InjectionPrompt>) returns (cs: seq<Candidate>)
    ensures cs == cs0 + CustomCandidates(injects)
  {
    cs := cs0;
    for k := 0 to |injects|
      invariant cs == cs0 + CustomCandidates(injects[..k])
    {
      CustomCandidatesPrefix(injects, k);
      var inject := injects[k];
      cs := cs + [Candidate(inject.role, inject.content, if inject.depth.Some? then inject.depth.value else 0)];
    }
    assert injects[..|injects|] == injects;
  }

  lemma {:induction false} DepthCandidatesPrefix(entries: seq<DepthEntry>, k: nat, promptByName: string -> string)
    requires k < |entries|
    ensures DepthCandidates(entries[..k + 1], promptByName) == DepthCandidates(entries[..k], promptByName)
            + [Candidate(RoleName(GetPromptRole(entries[k].role)), promptByName(DataProcessor.DepthKey(entries[k])), entries[k].depth)]
  {
    var a, b := DepthCandidates(entries[..k + 1], promptByName), DepthCandidates(entries[..k], promptByName);
    assert |a| == |b| + 1;
    forall i | 0 <= i < |b|
      ensures a[i] == b[i]
    {
      assert entries[..k + 1][i] == entries[..k][i];
    }
    assert a[k] == DepthCandidate(entries[k], promptByName);
    Seqs.PrefixPlusLast(a, b);
  }

  lemma {:induction false} CustomCandidatesPrefix(injects: seq<InjectionPrompt>, k: nat)
    requires k < |injects|
    ensures CustomCandidates(injects[..k + 1]) == CustomCandidates(injects[..k])
            + [Candidate(injects[k].role, injects[k].content, if injects[k].depth.Some? then injects[k].depth.value else 0)]
  {
    var a, b := CustomCandidates(injects[..k + 1]), CustomCandidates(injects[..k]);
    assert |a| == |b| + 1;
    forall i | 0 <= i < |b|
      ensures a[i] == b[i]
    {
      assert injects[..k + 1][i] == injects[..k][i];
    }
  }

  /** The depth entries are always used: no configuration filters `char_depth_prompt` */
  lemma {:induction false} DepthEntriesNeverFiltered(store: map<string, ExtensionPrompt>, persona: PersonaSettings, entries: seq<DepthEntry>,
                                  overrides: Option<OverrideConfig>, injects: seq<InjectionPrompt>, promptByName: string -> string)
    ensures Candidates(store, persona, Some(entries), overrides, injects, promptByName)
            == NoteCandidate(store) + PersonaCandidate(persona) + DepthCandidates(entries, promptByName) + CustomCandidates(injects)
  {
    if overrides.Some? {
      SlotFilteredIffEmpty(overrides.value);
    }
  }

  // ------------------------------------------------------------ grouping

  /** A candidate is used at `depth` for `role` when its depth matches, its content is
      non-empty and its role is that role's name */
  predicate Selected(c: Candidate, depth: int, role: string)
    ensures Selected(c, depth, role) ==> c.content != ""
  {
    c.depth == depth && Truthy(c.content) && c.role == role
  }

  /** The trimmed contents of the selected candidates, in order */
  function RoleContents(cs: seq<Candidate>, depth: int, role: string): (r: seq<string>)
    ensures |r| <= |cs|
  {
    if cs == [] then []
    else RoleContents(cs[..|cs| - 1], depth, role) + (if Selected(cs[|cs| - 1], depth, role) then [Trim(cs[|cs| - 1].content)] else [])
  }

  /** A role has no contents at a depth exactly when no candidate is selected for it */
  lemma {:induction false} RoleContentsEmpty(cs: seq<Candidate>, depth: int, role: string)
    ensures RoleContents(cs, depth, role) == [] <==> forall i :: 0 <= i < |cs| ==> !Selected(cs[i], depth, role)
  {
    if cs != [] {
      var init := cs[..|cs| - 1];
      RoleContentsEmpty(init, depth, role);
      assert forall i :: 0 <= i < |init| ==> init[i] == cs[i];
    }
  }

  lemma {:induction false} RoleContentsAppend(a: seq<Candidate>, b: seq<Candidate>, depth: int, role: string)
    ensures RoleContents(a + b, depth, role) == RoleContents(a, depth, role) + RoleContents(b, depth, role)
    decreases |b|
  {
    if b == [] {
      assert a + b == a;
    } else {
      assert (a + b)[..|a + b| - 1] == a + b[..|b| - 1];
      RoleContentsAppend(a, b[..|b| - 1], depth, role);
    }
  }

  /** The one message for a depth and role, when the joined contents are non-empty */
  function RoleMessage(cs: seq<Candidate>, depth: int, role: Role): (r: seq<ChatPrompt>)
    ensures |r| <= 1
    ensures r != [] ==> r[0] == ChatPrompt(role, Plain(Join(RoleContents(cs, depth, RoleName(role)), "\n")), NoImage, true)
    ensures r != [] ==> RoleContents(cs, depth, RoleName(role)) != []
    ensures r != [] <==> Truthy(Join(RoleContents(cs, depth, RoleName(role)), "\n"))
  {
    var text := Join(RoleContents(cs, depth, RoleName(role)), "\n");
    if Truthy(text) then [ChatPrompt(role, Plain(text), NoImage, true)] else []
  }

  /** A selected candidate's trimmed content is among the role's contents */
  lemma {:induction false} SelectedInRoleContents(cs: seq<Candidate>, depth: int, role: string, i: nat)
    requires i < |cs| && Selected(cs[i], depth, role)
    ensures Trim(cs[i].content) in RoleContents(cs, depth, role)
  {
    if i < |cs| - 1 {
      assert cs[..|cs| - 1][i] == cs[i];
      SelectedInRoleContents(cs[..|cs| - 1], depth, role, i);
    }
  }

  /** A candidate for the depth and role whose content is not blank always yields the
      message: injections are never silently dropped */
  lemma {:induction false} RoleMessagePresent(cs: seq<Candidate>, depth: int, role: Role, i: nat)
    requires i < |cs| && Selected(cs[i], depth, RoleName(role)) && Trim(cs[i].content) != ""
    ensures RoleMessage(cs, depth, role) != []
  {
    SelectedInRoleContents(cs, depth, RoleName(role), i);
    JoinNonEmpty(RoleContents(cs, depth, RoleName(role)), "\n", Trim(cs[i].content));
  }

  const Roles: seq<Role> := [System, User, Assistant]

  /** The messages of the first `k` roles */
  function GroupPrefix(cs: seq<Candidate>, depth: int, k: nat): (r: seq<ChatPrompt>)
    requires k <= 3
    ensures |r| <= k
    ensures forall i :: 0 <= i < |r| ==> r[i].injected
  {
    if k == 0 then [] else GroupPrefix(cs, depth, k - 1) + RoleMessage(cs, depth, Roles[k - 1])
  }

  /** The messages injected at one depth: at most one per role, system then user then
      assistant, all marked injected */
  function Group(cs: seq<Candidate>, depth: int): (r: seq<ChatPrompt>)
    ensures |r| <= 3
    ensures forall i :: 0 <= i < |r| ==> r[i].injected
  {
    GroupPrefix(cs, depth, 3)
  }

  /** The groups of depths `0` to `maxDepth` */
  function Groups(cs: seq<Candidate>, maxDepth: nat): (r: seq<seq<ChatPrompt>>)
    ensures |r| == maxDepth + 1
    ensures forall d :: 0 <= d < |r| ==> r[d] == Group(cs, d)
  {
    seq(maxDepth + 1, d requires 0 <= d <= maxDepth => Group(cs, d))
  }

  /** A candidate not selected for a depth and role does not change that role's contents */
  lemma {:induction false} UnusedCandidateSkipped(a: seq<Candidate>, c: Candidate, b: seq<Candidate>, d: int, role: string)
    requires !Selected(c, d, role)
    ensures RoleContents(a + [c] + b, d, role) == RoleContents(a + b, d, role)
  {
    RoleContentsAppend(a + [c], b, d, role);
    RoleContentsAppend(a, [c], d, role);
    RoleContentsAppend(a, b, d, role);
    assert [c][..0] == [];
  }

  lemma {:induction false} SameContentsSameGroup(x: seq<Candidate>, y: seq<Candidate>, d: int)
    requires RoleContents(x, d, "system") == RoleContents(y, d, "system")
    requires RoleContents(x, d, "user") == RoleContents(y, d, "user")
    requires RoleContents(x, d, "assistant") == RoleContents(y, d, "assistant")
    ensures Group(x, d) == Group(y, d)
  {
    GroupOfThree(x, d);
    GroupOfThree(y, d);
    assert RoleName(System) == "system" && RoleName(User) == "user" && RoleName(Assistant) == "assistant";
  }

  /** A group is the system, user and assistant messages in turn */
  lemma {:induction false} GroupOfThree(cs: seq<Candidate>, d: int)
    ensures Group(cs, d) == RoleMessage(cs, d, System) + RoleMessage(cs, d, User) + RoleMessage(cs, d, Assistant)
  {
    assert GroupPrefix(cs, d, 1) == [] + RoleMessage(cs, d, System);
    assert GroupPrefix(cs, d, 2) == GroupPrefix(cs, d, 1) + RoleMessage(cs, d, User);
  }

  /** A candidate with empty content, a role other than the three names, or a depth
      outside `0..maxDepth` changes no group */
  lemma {:induction false} UnusedCandidateIgnored(a: seq<Candidate>, c: Candidate, b: seq<Candidate>, maxDepth: nat)
    requires !Truthy(c.content) || c.role !in ["system", "user", "assistant"] || !(0 <= c.depth <= maxDepth)
    ensures Groups(a + [c] + b, maxDepth) == Groups(a + b, maxDepth)
  {
    forall d | 0 <= d <= maxDepth
      ensures Group(a + [c] + b, d) == Group(a + b, d)
    {
      UnusedCandidateSkipped(a, c, b, d, "system");
      UnusedCandidateSkipped(a, c, b, d, "user");
      UnusedCandidateSkipped(a, c, b, d, "assistant");
      SameContentsSameGroup(a + [c] + b, a + b, d);
    }
  }

  // ------------------------------------------------------------ splicing

  function Flatten<T>(gs: seq<seq<T>>): seq<T> {
    if gs == [] then [] else gs[0] + Flatten(gs[1..])
  }

  lemma {:induction false} FlattenAppend<T>(gs: seq<seq<T>>, g: seq<T>)
    ensures Flatten(gs + [g]) == Flatten(gs) + g
  {
    if gs == [] {
      assert Flatten([g]) == g + Flatten([g][1..]);
    } else {
      assert (gs + [g])[1..] == gs[1..] + [g];
      FlattenAppend(gs[1..], g);
    }
  }

  /** `s.splice(k, 0, ...g)`: a position past the end inserts at the end */
  function Insert<T>(s: seq<T>, k: nat, g: seq<T>): (r: seq<T>)
    ensures |r| == |s| + |g|
    ensures var j := if k < |s| then k else |s|;
            r[..j] == s[..j] && r[j..j + |g|] == g && r[j + |g|..] == s[j..]
  {
    var j := if k < |s| then k else |s|;
    s[..j] + g + s[j..]
  }

  /** The groups interleaved with the messages: group `d` right after the first `d`
      messages, the groups beyond the last message at the end */
  function Interleave<T>(ms: seq<T>, gs: seq<seq<T>>): (r: seq<T>)
    ensures |r| == |ms| + |Flatten(gs)|
    decreases |gs|
  {
    if gs == [] then ms
    else if ms == [] then Flatten(gs)
    else gs[0] + [ms[0]] + Interleave(ms[1..], gs[1..])
  }

  lemma {:induction false} InsertShift<T>(p: seq<T>, x: seq<T>, k: nat, g: seq<T>)
    ensures Insert(p + x, |p| + k, g) == p + Insert(x, k, g)
  {
    var j := if k < |x| then k else |x|;
    assert (p + x)[..|p| + j] == p + x[..j];
    assert (p + x)[|p| + j..] == x[j..];
  }

  /** Splicing group `|gs|` at `|gs|` plus the number already inserted extends the interleaving */
  lemma {:induction false} InterleaveStep<T>(ms: seq<T>, gs: seq<seq<T>>, g: seq<T>)
    ensures Interleave(ms, gs + [g]) == Insert(Interleave(ms, gs), |gs| + |Flatten(gs)|, g)
    decreases |gs|
  {
    if gs == [] {
      if ms == [] {
        assert Flatten([g]) == g + Flatten([g][1..]);
      } else {
        assert [g][1..] == [];
      }
    } else if ms == [] {
      FlattenAppend(gs, g);
    } else {
      InterleaveStep(ms[1..], gs[1..], g);
      InterleaveStepFront(ms, gs, g);
    }
  }

  /** The step for non-empty lists, from the step for their tails */
  lemma {:induction false} InterleaveStepFront<T>(ms: seq<T>, gs: seq<seq<T>>, g: seq<T>)
    requires ms != [] && gs != []
    requires Interleave(ms[1..], gs[1..] + [g]) == Insert(Interleave(ms[1..], gs[1..]), |gs[1..]| + |Flatten(gs[1..])|, g)
    ensures Interleave(ms, gs + [g]) == Insert(Interleave(ms, gs), |gs| + |Flatten(gs)|, g)
  {
    var p, rest := gs[0] + [ms[0]], Interleave(ms[1..], gs[1..]);
    assert (gs + [g])[0] == gs[0] && (gs + [g])[1..] == gs[1..] + [g];
    assert Interleave(ms, gs) == p + rest;
    assert Flatten(gs) == gs[0] + Flatten(gs[1..]);
    var k := |gs[1..]| + |Flatten(gs[1..])|;
    InsertShift(p, rest, k, g);
  }

  /** The role messages of one depth, one role at a time */
  method DepthRoleMessages(candidates: seq<Candidate>, depth: int) returns (roleMessages: seq<ChatPrompt>)
    ensures roleMessages == Group(candidates, depth)
  {
    roleMessages := [];
    for k := 0 to 3
      invariant roleMessages == GroupPrefix(candidates, depth, k)
    {
      var text := Join(RoleContents(candidates, depth, RoleName(Roles[k])), "\n");
      assert GroupPrefix(candidates, depth, k + 1) == roleMessages + RoleMessage(candidates, depth, Roles[k]);
      if Truthy(text) {
        roleMessages := roleMessages + [ChatPrompt(Roles[k], Plain(text), NoImage, true)];
      }
    }
  }

  lemma {:induction false} SpliceStep<T>(ms: seq<T>, gs: seq<seq<T>>, i: nat)
    requires i < |gs|
    ensures Interleave(ms, gs[..i + 1]) == Insert(Interleave(ms, gs[..i]), i + |Flatten(gs[..i])|, gs[i])
    ensures |Flatten(gs[..i + 1])| == |Flatten(gs[..i])| + |gs[i]|
    ensures Insert(Interleave(ms, gs[..i]), i + |Flatten(gs[..i])|, []) == Interleave(ms, gs[..i])
  {
    assert gs[..i + 1] == gs[..i] + [gs[i]];
    InterleaveStep(ms, gs[..i], gs[i]);
    FlattenAppend(gs[..i], gs[i]);
  }

  /** `populationInjectionPrompts(baseData, messages, injects, config)`, its candidates
      collected; `maxDepth` is the host's `MAX_INJECTION_DEPTH` */
  method PopulationInjectionPrompts(messages: seq<ChatPrompt>, candidates: seq<Candidate>, maxDepth: nat)
    returns (processed: seq<ChatPrompt>)
    ensures processed == Interleave(messages, Groups(candidates, maxDepth))
  {
    ghost var groups := Groups(candidates, maxDepth);
    processed := messages;
    var totalInserted := 0;
    for i := 0 to maxDepth + 1
      invariant totalInserted == |Flatten(groups[..i])|
      invariant processed == Interleave(messages, groups[..i])
    {
      processed, totalInserted := InjectDepth(messages, groups, candidates, i, processed, totalInserted);
    }
    assert groups[..maxDepth + 1] == groups;
  }

  /** One iteration of the depth loop: the group of depth `i` is spliced in after the
      first `i` messages and the groups already inserted */
  method InjectDepth(messages: seq<ChatPrompt>, ghost groups: seq<seq<ChatPrompt>>, candidates: seq<Candidate>, i: nat,
                     processed: seq<ChatPrompt>, totalInserted: nat)
    returns (processed': seq<ChatPrompt>, totalInserted': nat)
    requires i < |groups| && groups[i] == Group(candidates, i)
    requires totalInserted == |Flatten(groups[..i])| && processed == Interleave(messages, groups[..i])
    ensures totalInserted' == |Flatten(groups[..i + 1])|
    ensures processed' == Interleave(messages, groups[..i + 1])
  {
    var roleMessages := DepthRoleMessages(candidates, i);
    SpliceStep(messages, groups, i);
    processed', totalInserted' := processed, totalInserted;
    if |roleMessages| > 0 {
      processed' := Insert(processed, i + totalInserted, roleMessages);
      totalInserted' := totalInserted + |roleMessages|;
    }
  }

  // ------------------------------------------------------------ what the splice keeps

  /** The entries whose `injected` flag is `flag`, in order */
  function WithFlag(s: seq<ChatPrompt>, flag: bool): (r: seq<ChatPrompt>)
    ensures |r| <= |s|
  {
    if s == [] then [] else (if s[0].injected == flag then [s[0]] else []) + WithFlag(s[1..], flag)
  }

  lemma {:induction false} WithFlagAppend(a: seq<ChatPrompt>, b: seq<ChatPrompt>, flag: bool)
    ensures WithFlag(a + b, flag) == WithFlag(a, flag) + WithFlag(b, flag)
  {
    if a == [] {
      assert a + b == b;
    } else {
      assert (a + b)[0] == a[0] && (a + b)[1..] == a[1..] + b;
      WithFlagAppend(a[1..], b, flag);
    }
  }

  lemma {:induction false} WithFlagAll(s: seq<ChatPrompt>, flag: bool)
    requires forall i :: 0 <= i < |s| ==> s[i].injected == flag
    ensures WithFlag(s, flag) == s && WithFlag(s, !flag) == []
  {
    if s != [] {
      WithFlagAll(s[1..], flag);
    }
  }

  lemma {:induction false} WithFlagFlatten(gs: seq<seq<ChatPrompt>>, flag: bool)
    requires forall d, i :: 0 <= d < |gs| && 0 <= i < |gs[d]| ==> gs[d][i].injected == flag
    ensures WithFlag(Flatten(gs), flag) == Flatten(gs) && WithFlag(Flatten(gs), !flag) == []
  {
    if gs != [] {
      WithFlagAll(gs[0], flag);
      WithFlagFlatten(gs[1..], flag);
      WithFlagAppend(gs[0], Flatten(gs[1..]), flag);
      WithFlagAppend(gs[0], Flatten(gs[1..]), !flag);
    }
  }

  /** Injection only adds: dropping the injected entries gives back the messages, and the
      injected entries are the groups in depth order */
  lemma {:induction false} InterleaveSeparates(ms: seq<ChatPrompt>, gs: seq<seq<ChatPrompt>>)
    requires forall i :: 0 <= i < |ms| ==> !ms[i].injected
    requires forall d, i :: 0 <= d < |gs| && 0 <= i < |gs[d]| ==> gs[d][i].injected
    ensures WithFlag(Interleave(ms, gs), false) == ms
    ensures WithFlag(Interleave(ms, gs), true) == Flatten(gs)
    decreases |gs|
  {
    if gs == [] {
      WithFlagAll(ms, false);
    } else if ms == [] {
      WithFlagFlatten(gs, true);
    } else {
      var g, m, rest := gs[0], ms[0], Interleave(ms[1..], gs[1..]);
      assert Interleave(ms, gs) == (g + [m]) + rest;
      assert Flatten(gs) == g + Flatten(gs[1..]);
      assert ms == [m] + ms[1..];
      InterleaveSeparates(ms[1..], gs[1..]);
      WithFlagAll(g, true);
      WithFlagAll([m], false);
      WithFlagAppend(g + [m], rest, false);
      WithFlagAppend(g + [m], rest, true);
      WithFlagAppend(g, [m], false);
      WithFlagAppend(g, [m], true);
    }
  }

  /** Depth `d` means `d` messages come first: the group of depth `d` follows the first
      `d` messages interleaved with the shallower groups */
  lemma {:induction false} GroupAtDepth<T>(ms: seq<T>, gs: seq<seq<T>>, d: nat) returns (rest: seq<T>)
    requires d <= |ms| && d < |gs|
    ensures Interleave(ms, gs) == Interleave(ms[..d], gs[..d]) + gs[d] + rest
    decreases d
  {
    if d == 0 {
      if ms == [] {
        rest := Flatten(gs[1..]);
      } else {
        rest := [ms[0]] + Interleave(ms[1..], gs[1..]);
      }
      assert gs[..0] == [];
    } else {
      rest := GroupAtDepth(ms[1..], gs[1..], d - 1);
      GroupAtDepthFront(ms, gs, d, rest);
    }
  }

  /** The step for a positive depth, from the split of the tails at one depth less */
  lemma {:induction false} GroupAtDepthFront<T>(ms: seq<T>, gs: seq<seq<T>>, d: nat, rest: seq<T>)
    requires 0 < d <= |ms| && d < |gs|
    requires Interleave(ms[1..], gs[1..]) == Interleave(ms[1..][..d - 1], gs[1..][..d - 1]) + gs[1..][d - 1] + rest
    ensures Interleave(ms, gs) == Interleave(ms[..d], gs[..d]) + gs[d] + rest
  {
    var front := gs[0] + [ms[0]];
    assert ms[1..][..d - 1] == ms[..d][1..];
    assert gs[1..][..d - 1] == gs[..d][1..];
    var inner := Interleave(ms[..d][1..], gs[..d][1..]);
    assert Interleave(ms[..d], gs[..d]) == front + inner;
    assert Interleave(ms, gs) == front + (inner + gs[d] + rest);
  }

  /** Together: in the spliced list the group of depth `d` comes after exactly `d`
      original messages, when the list has that many */
  lemma {:induction false} InjectedAtDepth(ms: seq<ChatPrompt>, cs: seq<Candidate>, maxDepth: nat, d: nat)
    requires forall i :: 0 <= i < |ms| ==> !ms[i].injected
    requires d <= |ms| && d <= maxDepth
    ensures exists before, rest :: Interleave(ms, Groups(cs, maxDepth)) == before + Group(cs, d) + rest
                                   && WithFlag(before, false) == ms[..d]
  {
    var gs := Groups(cs, maxDepth);
    var rest := GroupAtDepth(ms, gs, d);
    InterleaveSeparates(ms[..d], gs[..d]);
  }
}

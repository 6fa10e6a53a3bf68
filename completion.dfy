/** The host's chat-completion builder as the raw generation path uses it: messages,
    message collections, a token budget that reservations and additions draw on, and
    collections placed at positions of a sparse array that `getChat` reads in order.
    Token counting is a parameter. */
module Completion {
  import opened Wrappers
  import opened GenTypes

  /** A host `Message`: role, content, identifier, the name set on it and the image added to it */
  datatype Message = Message(role: string, content: Content, identifier: string, name: Option<string>, image: ImageInput)

  /** `Message.createAsync(role, content, identifier)` */
  function NewMessage(role: string, content: Content, identifier: string): (m: Message)
    ensures m.role == role && m.content == content && m.identifier == identifier
    ensures m.name.None? && m.image.NoImage?
  {
    Message(role, content, identifier, None, NoImage)
  }

  /** A host `MessageCollection` */
  datatype Collection = Collection(identifier: string, messages: seq<Message>)

  function MessagesTokens(ms: seq<Message>, tokens: Message -> nat): nat {
    if ms == [] then 0 else MessagesTokens(ms[..|ms| - 1], tokens) + tokens(ms[|ms| - 1])
  }

  lemma {:induction false} MessagesTokensAppend(a: seq<Message>, b: seq<Message>, tokens: Message -> nat)
    ensures MessagesTokens(a + b, tokens) == MessagesTokens(a, tokens) + MessagesTokens(b, tokens)
    decreases |b|
  {
    if b == [] {
      assert a + b == a;
    } else {
      assert (a + b)[..|a + b| - 1] == a + b[..|b| - 1];
      MessagesTokensAppend(a, b[..|b| - 1], tokens);
    }
  }

  /** The collection at each position and the length of the host's array */
  datatype Layout = Layout(slots: map<nat, Collection>, size: nat)

  const EmptyLayout: Layout := Layout(map[], 0)

  predicate WellSized(l: Layout) {
    forall k :: k in l.slots ==> k < l.size
  }

  /** A collection added at a position */
  datatype Placement = Placement(collection: Collection, position: nat)

  /** `collection[position] = c`: a later collection at the same position replaces the earlier */
  function Place(l: Layout, p: Placement): (r: Layout)
    ensures WellSized(l) ==> WellSized(r)
    ensures p.position in r.slots && r.slots[p.position] == p.collection
    ensures forall k :: k != p.position ==> (k in r.slots <==> k in l.slots) && (k in l.slots ==> r.slots[k] == l.slots[k])
  {
    Layout(l.slots[p.position := p.collection], if p.position < l.size then l.size else p.position + 1)
  }

  /** The layout after placing every collection of a plan in turn */
  function Laid(l: Layout, plan: seq<Placement>): (r: Layout)
    ensures WellSized(l) ==> WellSized(r)
  {
    if plan == [] then l else Place(Laid(l, plan[..|plan| - 1]), plan[|plan| - 1])
  }

  lemma {:induction false} LaidAppend(l: Layout, a: seq<Placement>, b: seq<Placement>)
    ensures Laid(l, a + b) == Laid(Laid(l, a), b)
    decreases |b|
  {
    if b == [] {
      assert a + b == a;
    } else {
      assert (a + b)[..|a + b| - 1] == a + b[..|b| - 1];
      LaidAppend(l, a, b[..|b| - 1]);
    }
  }

  /** A position a plan fills holds the collection placed there last */
  lemma {:induction false} LaidLastWins(l: Layout, plan: seq<Placement>, i: nat)
    requires i < |plan|
    requires forall j :: i < j < |plan| ==> plan[j].position != plan[i].position
    ensures plan[i].position in Laid(l, plan).slots && Laid(l, plan).slots[plan[i].position] == plan[i].collection
  {
    if i < |plan| - 1 {
      LaidLastWins(l, plan[..|plan| - 1], i);
    }
  }

  /** The tokens the collections of a plan cost */
  function PlanTokens(plan: seq<Placement>, tokens: Message -> nat): nat {
    if plan == [] then 0 else PlanTokens(plan[..|plan| - 1], tokens) + MessagesTokens(plan[|plan| - 1].collection.messages, tokens)
  }

  lemma {:induction false} PlanTokensAppend(a: seq<Placement>, b: seq<Placement>, tokens: Message -> nat)
    ensures PlanTokens(a + b, tokens) == PlanTokens(a, tokens) + PlanTokens(b, tokens)
    decreases |b|
  {
    if b == [] {
      assert a + b == a;
    } else {
      assert (a + b)[..|a + b| - 1] == a + b[..|b| - 1];
      PlanTokensAppend(a, b[..|b| - 1], tokens);
    }
  }

  /** A plan of one or two placements */
  lemma {:induction false} PlanOfOne(l: Layout, p: Placement, tokens: Message -> nat)
    ensures Laid(l, [p]) == Place(l, p)
    ensures PlanTokens([p], tokens) == MessagesTokens(p.collection.messages, tokens)
  {
    assert [p][..0] == [];
  }

  lemma {:induction false} PlanOfTwo(l: Layout, p: Placement, q: Placement, tokens: Message -> nat)
    ensures Laid(l, [p, q]) == Place(Place(l, p), q)
    ensures PlanTokens([p, q], tokens) == MessagesTokens(p.collection.messages, tokens) + MessagesTokens(q.collection.messages, tokens)
  {
    assert [p, q][..1] == [p];
    PlanOfOne(l, p, tokens);
  }

  /** A plan that starts with one placement */
  lemma {:induction false} PlacedAfterOne(l: Layout, p: Placement, rest: seq<Placement>, tokens: Message -> nat)
    ensures Laid(l, [p] + rest) == Laid(Place(l, p), rest)
    ensures PlanTokens([p] + rest, tokens) == MessagesTokens(p.collection.messages, tokens) + PlanTokens(rest, tokens)
  {
    LaidAppend(l, [p], rest);
    PlanTokensAppend([p], rest, tokens);
    PlanOfOne(l, p, tokens);
  }

  /** `getChat`: the messages of the positions below `n` in order, gaps skipped */
  function Chat(l: Layout, n: nat): seq<Message> {
    if n == 0 then [] else Chat(l, n - 1) + (if n - 1 in l.slots then l.slots[n - 1].messages else [])
  }

  /** Every message of a placed collection reaches the chat, and nothing else does */
  lemma {:induction false} ChatMembers(l: Layout, n: nat, m: Message)
    ensures m in Chat(l, n) <==> exists k :: 0 <= k < n && k in l.slots && m in l.slots[k].messages
  {
    if n > 0 {
      ChatMembers(l, n - 1, m);
      var last := if n - 1 in l.slots then l.slots[n - 1].messages else [];
      assert m in Chat(l, n) <==> m in Chat(l, n - 1) || m in last;
    }
  }

  lemma {:induction false} ChatMembersAll(l: Layout, n: nat)
    ensures forall m :: m in Chat(l, n) <==> exists k :: 0 <= k < n && k in l.slots && m in l.slots[k].messages
  {
    forall m
      ensures m in Chat(l, n) <==> exists k :: 0 <= k < n && k in l.slots && m in l.slots[k].messages
    {
      ChatMembers(l, n, m);
    }
  }

  /** The host `ChatCompletion` */
  class ChatCompletion {
    const tokens: Message -> nat
    var budget: int
    var layout: Layout

    /** `new ChatCompletion()` then `setTokenBudget(context, response)` */
    constructor(tokens: Message -> nat, maxContext: int, maxTokens: int)
      ensures this.tokens == tokens && budget == maxContext - maxTokens && layout == EmptyLayout
    {
      this.tokens := tokens;
      budget := maxContext - maxTokens;
      layout := EmptyLayout;
    }

    /** `canAfford(message)`: the message fits exactly when reserving it leaves the
      budget non-negative */
    predicate CanAfford(m: Message)
      reads this
      ensures CanAfford(m) <==> budget - tokens(m) >= 0
    {
      tokens(m) <= budget
    }

    /** `reserveBudget(n)` for a number of tokens */
    method ReserveTokens(n: int)
      modifies this
      ensures budget == old(budget) - n && layout == old(layout)
    {
      budget := budget - n;
    }

    /** `reserveBudget(message)` */
    method ReserveBudget(m: Message)
      modifies this
      ensures budget == old(budget) - tokens(m) && layout == old(layout)
    {
      budget := budget - tokens(m);
    }

    /** `freeBudget(message)` */
    method FreeBudget(m: Message)
      modifies this
      ensures budget == old(budget) + tokens(m) && layout == old(layout)
    {
      budget := budget + tokens(m);
    }

    /** `add(collection, position)`: placed at the position and charged to the budget */
    method Add(c: Collection, position: nat)
      modifies this
      ensures layout == Place(old(layout), Placement(c, position))
      ensures budget == old(budget) - MessagesTokens(c.messages, tokens)
    {
      layout := Place(layout, Placement(c, position));
      budget := budget - MessagesTokens(c.messages, tokens);
    }

    /** `getChat()`: the messages of every collection placed below the layout's size */
    function GetChat(): (r: seq<Message>)
      reads this
      ensures forall m :: m in r <==> exists k :: 0 <= k < layout.size && k in layout.slots && m in layout.slots[k].messages
    {
      ChatMembersAll(layout, layout.size);
      Chat(layout, layout.size)
    }
  }
}

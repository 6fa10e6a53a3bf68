/** Search over variable values in the variable manager: a value matches a string
    query when its text, or the text of any key or value nested in it, contains the
    query ignoring ASCII case. Objects carry an identity `ref`; an object already
    visited during one search is skipped, which is what keeps the JavaScript walk
    finite on cyclic data. */
module Search {
  import opened Wrappers
  import opened Strings

  /** `SearchQuery = string | RegExp | undefined | null` */
  datatype SearchQuery = QueryText(text: string) | QueryRegExp | QueryUndefined | QueryNull

  /** A JavaScript value as the search sees it. Numbers are kept as their `String(n)`
      rendering; `Opaque` stands for functions, symbols and bigints. */
  datatype Value =
    | Null
    | Undefined
    | Str(s: string)
    | Num(repr: string)
    | Bool(b: bool)
    | Arr(items: seq<Value>)
    | Obj(ref: nat, entries: seq<Entry>)
    | Opaque
  datatype Entry = Entry(key: string, value: Value)

  /** `isSearching`: only the empty string, `undefined` and `null` mean "not searching" */
  predicate IsSearching(q: SearchQuery)
    ensures IsSearching(q) <==> (q.QueryText? && q.text != "") || q.QueryRegExp?
  {
    q != QueryText("") && q != QueryUndefined && q != QueryNull
  }

  /** `textMatches` for a string query */
  predicate TextMatches(text: string, query: string)
    ensures TextMatches(text, query) ==> query != "" && |query| <= |text|
  {
    var q := Lower(query);
    |q| > 0 && Contains(Lower(text), q)
  }

  /** A text containing the query matches it */
  lemma {:induction false} ContainedTextMatches(before: string, query: string, after: string)
    requires query != ""
    ensures TextMatches(before + query + after, query)
  {
    var s := before + query + after;
    assert s[|before|..|before| + |query|] == query;
    assert Lower(s)[|before|..|before| + |query|] == Lower(query);
    assert OccursAt(Lower(s), Lower(query), |before|);
  }

  /** The text of a primitive value (`normalizePrimitive`) */
  function PrimitiveText(v: Value): (t: string)
    requires v.Null? || v.Undefined? || v.Str? || v.Num? || v.Bool?
    ensures v.Str? ==> t == v.s
  {
    match v
    case Null => "null"
    case Undefined => "undefined"
    case Str(s) => s
    case Num(repr) => repr
    case Bool(b) => if b then "true" else "false"
  }

  /** Every object identity occurring in `v` */
  function Refs(v: Value): set<nat> {
    match v
    case Arr(items) => set i, r | 0 <= i < |items| && r in Refs(items[i]) :: r
    case Obj(ref, entries) => {ref} + set i, r | 0 <= i < |entries| && r in Refs(entries[i].value) :: r
    case _ => {}
  }

  /** Refs of the items before index `n` */
  function RefsBefore(items: seq<Value>, n: nat): set<nat>
    requires n <= |items|
  {
    set i, r | 0 <= i < n && r in Refs(items[i]) :: r
  }

  function EntryRefsBefore(entries: seq<Entry>, n: nat): set<nat>
    requires n <= |entries|
  {
    set i, r | 0 <= i < n && r in Refs(entries[i].value) :: r
  }

  /** No object identity occurs twice in `v`: the value is a tree without sharing */
  predicate TreeShaped(v: Value) {
    match v
    case Arr(items) =>
      (forall i :: 0 <= i < |items| ==> TreeShaped(items[i]))
      && (forall i, j :: 0 <= i < j < |items| ==> Refs(items[i]) !! Refs(items[j]))
    case Obj(ref, entries) =>
      (forall i :: 0 <= i < |entries| ==> TreeShaped(entries[i].value) && ref !in Refs(entries[i].value))
      && (forall i, j :: 0 <= i < j < |entries| ==> Refs(entries[i].value) !! Refs(entries[j].value))
    case _ => true
  }

  /** The meaning of a search on a tree: some primitive's text, or some key, matches */
  predicate Matches(v: Value, query: string) {
    match v
    case Arr(items) => exists i :: 0 <= i < |items| && Matches(items[i], query)
    case Obj(_, entries) =>
      exists i :: 0 <= i < |entries| && (TextMatches(entries[i].key, query) || Matches(entries[i].value, query))
    case Opaque => false
    case _ => TextMatches(PrimitiveText(v), query)
  }

  /** `valueMatchesSearch(value, query, visited)` for a string query. The visited set
      is threaded through the calls as the JavaScript `WeakSet` is shared by them. */
  method ValueMatchesSearch(v: Value, query: string, visited: set<nat>) returns (found: bool, visitedOut: set<nat>)
    decreases v, 1
    ensures visited <= visitedOut <= visited + Refs(v)
    ensures found ==> Matches(v, query)
    ensures v.Obj? && v.ref in visited ==> !found && visitedOut == visited
    ensures TreeShaped(v) && Refs(v) !! visited ==> found == Matches(v, query)
  {
    match v {
      case Null =>
        found, visitedOut := TextMatches(PrimitiveText(v), query), visited;
      case Undefined =>
        found, visitedOut := TextMatches(PrimitiveText(v), query), visited;
      case Str(_) =>
        found, visitedOut := TextMatches(PrimitiveText(v), query), visited;
      case Num(_) =>
        found, visitedOut := TextMatches(PrimitiveText(v), query), visited;
      case Bool(_) =>
        found, visitedOut := TextMatches(PrimitiveText(v), query), visited;
      case Opaque =>
        found, visitedOut := false, visited;
      case Arr(_) =>
        found, visitedOut := SearchItems(v, query, visited);
      case Obj(ref, _) =>
        if ref in visited {
          return false, visited;
        }
        found, visitedOut := SearchEntries(v, query, visited);
    }
  }

  /** The array branch: the items are searched in order, stopping at the first hit */
  method SearchItems(v: Value, query: string, visited: set<nat>) returns (found: bool, visitedOut: set<nat>)
    requires v.Arr?
    decreases v, 0
    ensures visited <= visitedOut <= visited + Refs(v)
    ensures found ==> Matches(v, query)
    ensures TreeShaped(v) && Refs(v) !! visited ==> found == Matches(v, query)
  {
    var items := v.items;
    visitedOut := visited;
    var i := 0;
    while i < |items|
      invariant 0 <= i <= |items|
      invariant visited <= visitedOut <= visited + RefsBefore(items, i)
      invariant TreeShaped(v) && Refs(v) !! visited ==>
                  forall j :: 0 <= j < i ==> !Matches(items[j], query)
    {
      var hit;
      ghost var before := visitedOut;
      hit, visitedOut := ValueMatchesSearch(items[i], query, visitedOut);
      if hit {
        return true, visitedOut;
      }
      if TreeShaped(v) && Refs(v) !! visited {
        DisjointFromLater(items, i, visited, before);
      }
      i := i + 1;
    }
    found := false;
  }

  /** The object branch, for an object not yet visited: it is marked visited, then each
      key and each value is searched in order, stopping at the first hit */
  method SearchEntries(v: Value, query: string, visited: set<nat>) returns (found: bool, visitedOut: set<nat>)
    requires v.Obj?
    decreases v, 0
    ensures visited + {v.ref} <= visitedOut <= visited + Refs(v)
    ensures found ==> Matches(v, query)
    ensures TreeShaped(v) && Refs(v) !! visited ==> found == Matches(v, query)
  {
    var entries := v.entries;
    visitedOut := visited + {v.ref};
    var i := 0;
    while i < |entries|
      invariant 0 <= i <= |entries|
      invariant visited + {v.ref} <= visitedOut <= visited + {v.ref} + EntryRefsBefore(entries, i)
      invariant TreeShaped(v) && Refs(v) !! visited ==>
                  forall j :: 0 <= j < i ==> !TextMatches(entries[j].key, query) && !Matches(entries[j].value, query)
    {
      if TextMatches(entries[i].key, query) {
        return true, visitedOut;
      }
      var hit;
      ghost var before := visitedOut;
      hit, visitedOut := ValueMatchesSearch(entries[i].value, query, visitedOut);
      if hit {
        return true, visitedOut;
      }
      if TreeShaped(v) && Refs(v) !! visited {
        EntryDisjointFromLater(v, i, visited, before);
      }
      i := i + 1;
    }
    found := false;
  }

  /** In a tree-shaped array, what the walk has visited before item `i` shares no
      identity with item `i`. */
  lemma {:induction false} DisjointFromLater(items: seq<Value>, i: nat, visited: set<nat>, seen: set<nat>)
    requires i < |items|
    requires forall j, k :: 0 <= j < k < |items| ==> Refs(items[j]) !! Refs(items[k])
    requires (set j, r | 0 <= j < |items| && r in Refs(items[j]) :: r) !! visited
    requires seen <= visited + RefsBefore(items, i)
    ensures Refs(items[i]) !! seen
  {
    forall r | r in Refs(items[i])
      ensures r !in seen
    {
      assert r in (set j, r | 0 <= j < |items| && r in Refs(items[j]) :: r);
      assert forall j :: 0 <= j < i ==> Refs(items[j]) !! Refs(items[i]);
    }
  }

  lemma {:induction false} EntryDisjointFromLater(v: Value, i: nat, visited: set<nat>, seen: set<nat>)
    requires v.Obj? && i < |v.entries| && TreeShaped(v) && Refs(v) !! visited
    requires seen <= visited + {v.ref} + EntryRefsBefore(v.entries, i)
    ensures Refs(v.entries[i].value) !! seen
  {
    var entries := v.entries;
    forall r | r in Refs(entries[i].value)
      ensures r !in seen
    {
      assert r in Refs(v);
      assert forall j :: 0 <= j < i ==> Refs(entries[j].value) !! Refs(entries[i].value);
    }
  }

  /** `nodeMatchesSearch`: the node's name, when it has one, or its value */
  method NodeMatchesSearch(name: Option<string>, v: Value, query: string) returns (found: bool)
    ensures found ==> (name.Some? && TextMatches(name.value, query)) || Matches(v, query)
    ensures TreeShaped(v) ==> (found <==> (name.Some? && TextMatches(name.value, query)) || Matches(v, query))
  {
    if name.Some? && TextMatches(name.value, query) {
      return true;
    }
    var visited;
    found, visited := ValueMatchesSearch(v, query, {});
  }

  /** An empty query matches nothing, whatever the value */
  lemma {:induction false} EmptyQueryMatchesNothing(v: Value)
    ensures !Matches(v, "")
  {
    match v
    case Arr(items) =>
      forall i | 0 <= i < |items|
        ensures !Matches(items[i], "")
      {
        EmptyQueryMatchesNothing(items[i]);
      }
    case Obj(_, entries) =>
      forall i | 0 <= i < |entries|
        ensures !Matches(entries[i].value, "")
      {
        EmptyQueryMatchesNothing(entries[i].value);
      }
    case _ =>
  }

  /** Matching ignores the ASCII case of the query */
  lemma {:induction false} TextMatchesIgnoresQueryCase(text: string, query: string)
    ensures TextMatches(text, query) == TextMatches(text, Lower(query))
  {
    LowerIdempotent(query);
  }

  lemma {:induction false} LowerIdempotent(s: string)
    ensures Lower(Lower(s)) == Lower(s)
  {
  }
}

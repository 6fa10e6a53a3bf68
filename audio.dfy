/** The deprecated audio slash commands (`/audioenable`, `/audioplay`,
    `/audiomode`, `/audioimport`, `/audioselect`) acting on the two players, the
    background-music store and the ambient store. Every command returns the empty
    string; an invalid argument leaves both stores as they are. */
module Audio {
  import opened Wrappers
  import opened Strings

  datatype Mode = RepeatOne | RepeatAll | Shuffle | PlayOneAndStop

  datatype Track = Track(url: string, title: string)

  /** One player's state, as the host store holds it */
  class AudioStore {
    var playlist: seq<Track>
    var src: string
    var progress: int
    var playing: bool
    var mode: Mode

    constructor(playlist: seq<Track>, src: string, progress: int, playing: bool, mode: Mode)
      ensures this.playlist == playlist && this.src == src && this.progress == progress
      ensures this.playing == playing && this.mode == mode
    {
      this.playlist := playlist;
      this.src := src;
      this.progress := progress;
      this.playing := playing;
      this.mode := mode;
    }
  }

  /** The `type` argument is accepted only when it is exactly `'bgm'` or `'ambient'` */
  predicate ValidType(t: string) {
    t == "bgm" || t == "ambient"
  }

  /** The `mode` argument of `/audiomode` and the store mode it selects */
  function ModeOf(m: string): (r: Option<Mode>)
    ensures r.Some? <==> m in ["repeat", "random", "single", "stop"]
    ensures m == "single" ==> r == Some(RepeatOne)
    ensures m == "repeat" ==> r == Some(RepeatAll)
    ensures m == "random" ==> r == Some(Shuffle)
    ensures m == "stop" ==> r == Some(PlayOneAndStop)
  {
    if m == "single" then Some(RepeatOne)
    else if m == "repeat" then Some(RepeatAll)
    else if m == "random" then Some(Shuffle)
    else if m == "stop" then Some(PlayOneAndStop)
    else None
  }

  /** The four accepted modes select four different store modes */
  lemma {:induction false} ModeOfInjective(a: string, b: string)
    requires ModeOf(a).Some? && ModeOf(a) == ModeOf(b)
    ensures a == b
  {
  }

  /** `Boolean(args.play ?? 'true')`, as written: every non-empty text is true,
      including `"false"` */
  predicate PlayFlag(play: Option<string>)
    ensures play.None? ==> PlayFlag(play)
    ensures play == Some("false") ==> PlayFlag(play)
  {
    Truthy(play.GetOr("true"))
  }

  /** The play flag as the commands' help describes it (`/audioplay type=ambient
      play=false` pauses, `/audioimport … play=false` does not auto-play): playing
      unless the argument says `"false"` */
  predicate PlayRequested(play: Option<string>)
    ensures play.None? ==> PlayRequested(play)
    ensures play == Some("false") ==> !PlayRequested(play)
  {
    play.GetOr("true") != "false"
  }

  /** As written, `play=false` still sets the player playing */
  lemma {:induction false} PlayFalseStillPlays()
    ensures PlayFlag(Some("false"))
    ensures !PlayRequested(Some("false"))
  {
  }

  /** As written, only an empty argument pauses */
  lemma {:induction false} PlayFlagPausesOnlyOnEmpty(play: Option<string>)
    ensures PlayFlag(play) <==> play != Some("")
  {
  }

  /** The intended flag pauses exactly on `"false"` and agrees with the written one
      on every other non-empty argument and on an absent one */
  lemma {:induction false} PlayRequestedAgreesElsewhere(play: Option<string>)
    ensures PlayRequested(play) <==> play != Some("false")
    ensures play != Some("false") && play != Some("") ==> (PlayRequested(play) <==> PlayFlag(play))
  {
  }

  /** `/audioenable`: kept for compatibility, does nothing */
  function AudioEnable(kind: string, state: Option<string>): (out: string)
    ensures out == ""
  {
    ""
  }

  /** `/audioplay`: the player's `playing` is set to the play flag as written, so
      `play=false` starts it and `play=` (empty) pauses it */
  method AudioPlay(bgm: AudioStore, ambient: AudioStore, kind: string, play: Option<string>) returns (out: string)
    requires bgm != ambient
    modifies bgm, ambient
    ensures out == ""
    ensures kind == "bgm" ==> bgm.playing == PlayFlag(play) && unchanged(ambient)
    ensures kind == "ambient" ==> ambient.playing == PlayFlag(play) && unchanged(bgm)
    ensures !ValidType(kind) ==> unchanged(bgm) && unchanged(ambient)
    ensures bgm.playlist == old(bgm.playlist) && bgm.src == old(bgm.src) && bgm.progress == old(bgm.progress)
    ensures bgm.mode == old(bgm.mode)
    ensures ambient.playlist == old(ambient.playlist) && ambient.src == old(ambient.src)
    ensures ambient.progress == old(ambient.progress) && ambient.mode == old(ambient.mode)
  {
    if !ValidType(kind) {
      return "";
    }
    var store := if kind == "bgm" then bgm else ambient;
    store.playing := PlayFlag(play);
    return "";
  }

  /** `/audiomode` */
  method AudioMode(bgm: AudioStore, ambient: AudioStore, kind: string, mode: string) returns (out: string)
    requires bgm != ambient
    modifies bgm, ambient
    ensures out == ""
    ensures !ValidType(kind) || ModeOf(mode).None? ==> unchanged(bgm) && unchanged(ambient)
    ensures kind == "bgm" && ModeOf(mode).Some? ==> bgm.mode == ModeOf(mode).value && unchanged(ambient)
    ensures kind == "ambient" && ModeOf(mode).Some? ==> ambient.mode == ModeOf(mode).value && unchanged(bgm)
    ensures bgm.playlist == old(bgm.playlist) && bgm.src == old(bgm.src) && bgm.progress == old(bgm.progress)
    ensures bgm.playing == old(bgm.playing)
    ensures ambient.playlist == old(ambient.playlist) && ambient.src == old(ambient.src)
    ensures ambient.progress == old(ambient.progress) && ambient.playing == old(ambient.playing)
  {
    if !ValidType(kind) || ModeOf(mode).None? {
      return "";
    }
    var store := if kind == "bgm" then bgm else ambient;
    store.mode := ModeOf(mode).value;
    return "";
  }

  predicate NoDup(xs: seq<string>) {
    forall i, j :: 0 <= i < j < |xs| ==> xs[i] != xs[j]
  }

  function UrlsOf(playlist: seq<Track>): (r: seq<string>)
    ensures |r| == |playlist| && forall i :: 0 <= i < |r| ==> r[i] == playlist[i].url
  {
    if playlist == [] then [] else [playlist[0].url] + UrlsOf(playlist[1..])
  }

  function TrimAll(xs: seq<string>): (r: seq<string>)
    ensures |r| == |xs| && forall i :: 0 <= i < |r| ==> r[i] == Trim(xs[i])
  {
    seq(|xs|, i requires 0 <= i < |xs| => Trim(xs[i]))
  }

  /** `.filter(url => url !== '')` */
  function DropEmpty(xs: seq<string>): (r: seq<string>)
    ensures forall x :: x in r <==> x in xs && x != ""
  {
    if xs == [] then []
    else if xs[0] == "" then DropEmpty(xs[1..])
    else [xs[0]] + DropEmpty(xs[1..])
  }

  /** `_.uniq`: the first occurrence of each text, in order */
  function Uniq(xs: seq<string>): (r: seq<string>)
    ensures NoDup(r)
    ensures forall x :: x in r <==> x in xs
  {
    if xs == [] then []
    else
      var u := Uniq(xs[..|xs| - 1]);
      assert xs == xs[..|xs| - 1] + [xs[|xs| - 1]];
      if xs[|xs| - 1] in u then u else u + [xs[|xs| - 1]]
  }

  /** `.filter(url => !store.playlist.some(item => item.url === url))` */
  function DropListed(xs: seq<string>, listed: seq<string>): (r: seq<string>)
    ensures forall x :: x in r <==> x in xs && x !in listed
    ensures NoDup(xs) ==> NoDup(r)
  {
    if xs == [] then []
    else if xs[0] in listed then DropListed(xs[1..], listed)
    else [xs[0]] + DropListed(xs[1..], listed)
  }

  /** The urls `/audioimport` adds: the comma-separated pieces, trimmed, non-empty,
      without repeats and not already in the playlist */
  function NewUrls(url: string, playlist: seq<Track>): (r: seq<string>)
    ensures NoDup(r)
    ensures forall u :: u in r ==> u != "" && u !in UrlsOf(playlist)
  {
    DropListed(Uniq(DropEmpty(TrimAll(Split(url, ",", false)))), UrlsOf(playlist))
  }

  function TracksOf(urls: seq<string>, titleOf: string -> string): (r: seq<Track>)
    ensures UrlsOf(r) == urls
  {
    if urls == [] then [] else [Track(urls[0], titleOf(urls[0]))] + TracksOf(urls[1..], titleOf)
  }

  /** What `/audioimport` adds is exactly the trimmed, non-empty pieces of the argument
      not yet in the playlist, each once */
  lemma {:induction false} NewUrlsExactly(url: string, playlist: seq<Track>, u: string)
    ensures NoDup(NewUrls(url, playlist))
    ensures u in NewUrls(url, playlist) <==>
              u != "" && u !in UrlsOf(playlist) && exists p :: p in Split(url, ",", false) && Trim(p) == u
  {
    PipelineExactly(Split(url, ",", false), UrlsOf(playlist), u);
  }

  lemma {:induction false} PipelineExactly(pieces: seq<string>, listed: seq<string>, u: string)
    ensures NoDup(DropListed(Uniq(DropEmpty(TrimAll(pieces))), listed))
    ensures u in DropListed(Uniq(DropEmpty(TrimAll(pieces))), listed) <==>
              u != "" && u !in listed && exists p :: p in pieces && Trim(p) == u
  {
    var trimmed := TrimAll(pieces);
    if u in trimmed {
      var i :| 0 <= i < |trimmed| && trimmed[i] == u;
      assert pieces[i] in pieces;
    }
    if exists p :: p in pieces && Trim(p) == u {
      var p :| p in pieces && Trim(p) == u;
      var i :| 0 <= i < |pieces| && pieces[i] == p;
      assert trimmed[i] == u;
    }
  }

  // ----------------------------------------------------------------- order

  /** The position of the first occurrence of `x` */
  function FirstIndex(xs: seq<string>, x: string): (r: nat)
    requires x in xs
    ensures r < |xs| && xs[r] == x && forall j :: 0 <= j < r ==> xs[j] != x
  {
    if xs[0] == x then 0 else 1 + FirstIndex(xs[1..], x)
  }

  /** Every text of `r` comes from `xs`, and any two texts of `r` first appear in the
      same order in both */
  predicate KeepsFirstOrder(r: seq<string>, xs: seq<string>) {
    (forall x :: x in r ==> x in xs)
    && forall x, y :: x in r && y in r ==> (FirstIndex(r, x) < FirstIndex(r, y) <==> FirstIndex(xs, x) < FirstIndex(xs, y))
  }

  lemma {:induction false} KeepsFirstOrderTrans(a: seq<string>, b: seq<string>, c: seq<string>)
    requires KeepsFirstOrder(a, b) && KeepsFirstOrder(b, c)
    ensures KeepsFirstOrder(a, c)
  {
  }

  /** Dropping the first text shifts the first occurrence of every other text by one */
  lemma {:induction false} FirstIndexTail(xs: seq<string>, x: string)
    requires x in xs && xs[0] != x
    ensures x in xs[1..] && FirstIndex(xs, x) == FirstIndex(xs[1..], x) + 1
  {
  }

  /** A text already in `a` is first found in `a` */
  lemma {:induction false} FirstIndexPrefix(a: seq<string>, b: seq<string>, x: string)
    requires x in a
    ensures FirstIndex(a + b, x) == FirstIndex(a, x)
  {
    var i := FirstIndex(a, x);
    assert (a + b)[i] == x;
    assert forall j :: 0 <= j < |a| ==> (a + b)[j] == a[j];
  }

  /** `filter` keeps the order of the texts it keeps */
  lemma {:induction false} DropEmptyKeepsOrder(xs: seq<string>)
    ensures KeepsFirstOrder(DropEmpty(xs), xs)
  {
    if xs != [] {
      var t := xs[1..];
      var rt := DropEmpty(t);
      DropEmptyKeepsOrder(t);
      var r := DropEmpty(xs);
      forall x, y | x in r && y in r
        ensures FirstIndex(r, x) < FirstIndex(r, y) <==> FirstIndex(xs, x) < FirstIndex(xs, y)
      {
        if xs[0] == "" {
          FirstIndexTail(xs, x);
          FirstIndexTail(xs, y);
        } else {
          assert r == [xs[0]] + rt;
          if x != xs[0] {
            FirstIndexTail(xs, x);
            FirstIndexTail(r, x);
          }
          if y != xs[0] {
            FirstIndexTail(xs, y);
            FirstIndexTail(r, y);
          }
        }
      }
    }
  }

  /** Dropping the listed urls keeps the order of the others */
  lemma {:induction false} DropListedKeepsOrder(xs: seq<string>, listed: seq<string>)
    ensures KeepsFirstOrder(DropListed(xs, listed), xs)
  {
    if xs != [] {
      var t := xs[1..];
      var rt := DropListed(t, listed);
      DropListedKeepsOrder(t, listed);
      var r := DropListed(xs, listed);
      forall x, y | x in r && y in r
        ensures FirstIndex(r, x) < FirstIndex(r, y) <==> FirstIndex(xs, x) < FirstIndex(xs, y)
      {
        if xs[0] in listed {
          FirstIndexTail(xs, x);
          FirstIndexTail(xs, y);
        } else {
          assert r == [xs[0]] + rt;
          if x != xs[0] {
            FirstIndexTail(xs, x);
            FirstIndexTail(r, x);
          }
          if y != xs[0] {
            FirstIndexTail(xs, y);
            FirstIndexTail(r, y);
          }
        }
      }
    }
  }

  /** `_.uniq` keeps each text where it first occurs */
  lemma {:induction false} UniqKeepsOrder(xs: seq<string>)
    ensures KeepsFirstOrder(Uniq(xs), xs)
  {
    if xs != [] {
      var init, last := xs[..|xs| - 1], xs[|xs| - 1];
      var u := Uniq(init);
      UniqKeepsOrder(init);
      assert xs == init + [last];
      var r := Uniq(xs);
      forall x, y | x in r && y in r
        ensures FirstIndex(r, x) < FirstIndex(r, y) <==> FirstIndex(xs, x) < FirstIndex(xs, y)
      {
        if x in u {
          FirstIndexPrefix(init, [last], x);
          FirstIndexPrefix(u, [last], x);
        }
        if y in u {
          FirstIndexPrefix(init, [last], y);
          FirstIndexPrefix(u, [last], y);
        }
        if x !in u {
          assert r == u + [last] && x == last && x !in init;
          assert FirstIndex(xs, x) == |init| && FirstIndex(r, x) == |u|;
        }
        if y !in u {
          assert r == u + [last] && y == last && y !in init;
          assert FirstIndex(xs, y) == |init| && FirstIndex(r, y) == |u|;
        }
      }
    }
  }

  /** `_.uniq` lists each text once, at increasing first positions in its input */
  lemma {:induction false} UniqFirstOccurrences(xs: seq<string>)
    ensures forall i, j :: 0 <= i < j < |Uniq(xs)| ==> FirstIndex(xs, Uniq(xs)[i]) < FirstIndex(xs, Uniq(xs)[j])
  {
    var r := Uniq(xs);
    UniqKeepsOrder(xs);
    forall i, j | 0 <= i < j < |r|
      ensures FirstIndex(xs, r[i]) < FirstIndex(xs, r[j])
    {
      assert FirstIndex(r, r[i]) == i && FirstIndex(r, r[j]) == j;
    }
  }

  /** The cleaned pieces keep the order in which they first appear among the trimmed
      pieces */
  lemma {:induction false} PipelineKeepsOrder(pieces: seq<string>, listed: seq<string>)
    ensures KeepsFirstOrder(DropListed(Uniq(DropEmpty(TrimAll(pieces))), listed), TrimAll(pieces))
  {
    var t := TrimAll(pieces);
    var d := DropEmpty(t);
    var u := Uniq(d);
    DropEmptyKeepsOrder(t);
    UniqKeepsOrder(d);
    DropListedKeepsOrder(u, listed);
    KeepsFirstOrderTrans(u, d, t);
    KeepsFirstOrderTrans(DropListed(u, listed), u, t);
  }

  /** The position of the first trimmed piece that is non-empty and not listed */
  function FirstNewPiece(trimmed: seq<string>, listed: seq<string>): (r: Option<nat>)
    ensures r.Some? ==> r.value < |trimmed| && trimmed[r.value] != "" && trimmed[r.value] !in listed
    ensures r.Some? ==> forall j :: 0 <= j < r.value ==> trimmed[j] == "" || trimmed[j] in listed
    ensures r.None? ==> forall j :: 0 <= j < |trimmed| ==> trimmed[j] == "" || trimmed[j] in listed
  {
    if trimmed == [] then None
    else if trimmed[0] != "" && trimmed[0] !in listed then Some(0)
    else match FirstNewPiece(trimmed[1..], listed)
      case None => None
      case Some(k) => Some(k + 1)
  }

  /** A list holding, in order of first occurrence, exactly the new texts of `t` is
      empty exactly when `t` has no new text, and otherwise starts with the first one */
  lemma {:induction false} FirstNewIsHead(t: seq<string>, listed: seq<string>, r: seq<string>)
    requires KeepsFirstOrder(r, t)
    requires forall u :: u in r <==> u in t && u != "" && u !in listed
    ensures var first := FirstNewPiece(t, listed);
            (r == [] <==> first.None?) && (first.Some? ==> r[0] == t[first.value])
  {
    var first := FirstNewPiece(t, listed);
    if r != [] {
      var w := r[0];
      assert w in r;
      var k := FirstIndex(t, w);
      var i := first.value;
      var v := t[i];
      assert v in r;
      assert FirstIndex(r, w) == 0 && FirstIndex(t, v) <= i <= k;
    }
    if first.Some? {
      assert t[first.value] in r;
    }
  }

  /** The cleaned pieces are exactly the non-empty trimmed pieces not listed */
  lemma {:induction false} PipelineMembers(pieces: seq<string>, listed: seq<string>, u: string)
    ensures u in DropListed(Uniq(DropEmpty(TrimAll(pieces))), listed) <==> u in TrimAll(pieces) && u != "" && u !in listed
  {
    var t := TrimAll(pieces);
    PipelineExactly(pieces, listed, u);
    if u in t {
      var j :| 0 <= j < |t| && t[j] == u;
      assert pieces[j] in pieces;
    }
    if exists p :: p in pieces && Trim(p) == u {
      var p :| p in pieces && Trim(p) == u;
      var j :| 0 <= j < |pieces| && pieces[j] == p;
      assert t[j] == u;
    }
  }

  /** The cleaned pieces are empty exactly when no trimmed piece is new, and otherwise
      start with the first new one */
  lemma {:induction false} PipelineHead(pieces: seq<string>, listed: seq<string>)
    ensures var r := DropListed(Uniq(DropEmpty(TrimAll(pieces))), listed);
            var first := FirstNewPiece(TrimAll(pieces), listed);
            (r == [] <==> first.None?) && (first.Some? ==> r[0] == TrimAll(pieces)[first.value])
  {
    var r := DropListed(Uniq(DropEmpty(TrimAll(pieces))), listed);
    PipelineKeepsOrder(pieces, listed);
    forall u
      ensures u in r <==> u in TrimAll(pieces) && u != "" && u !in listed
    {
      PipelineMembers(pieces, listed, u);
    }
    FirstNewIsHead(TrimAll(pieces), listed, r);
  }

  /** `/audioimport` adds nothing exactly when no piece is new, and otherwise the first
      url it adds (the one that plays) is the first new piece of the argument, trimmed */
  lemma {:induction false} NewUrlsHead(url: string, playlist: seq<Track>)
    ensures var first := FirstNewPiece(TrimAll(Split(url, ",", false)), UrlsOf(playlist));
            (NewUrls(url, playlist) == [] <==> first.None?)
            && (first.Some? ==> NewUrls(url, playlist)[0] == Trim(Split(url, ",", false)[first.value]))
  {
    PipelineHead(Split(url, ",", false), UrlsOf(playlist));
  }

  /** Importing keeps the playlist free of repeated urls */
  lemma {:induction false} ImportKeepsUrlsDistinct(url: string, playlist: seq<Track>, titleOf: string -> string)
    requires NoDup(UrlsOf(playlist))
    ensures NoDup(UrlsOf(playlist + TracksOf(NewUrls(url, playlist), titleOf)))
  {
    var added := NewUrls(url, playlist);
    var old_ := UrlsOf(playlist);
    NewUrlsExactly(url, playlist, "");
    assert forall x :: x in added ==> x !in old_ by {
      forall x | x in added
        ensures x !in old_
      {
        NewUrlsExactly(url, playlist, x);
      }
    }
    UrlsOfAppend(playlist, TracksOf(added, titleOf));
    DisjointConcatNoDup(old_, added);
  }

  lemma {:induction false} DisjointConcatNoDup(a: seq<string>, b: seq<string>)
    requires NoDup(a) && NoDup(b)
    requires forall x :: x in b ==> x !in a
    ensures NoDup(a + b)
  {
    var all := a + b;
    forall i, j | 0 <= i < j < |all|
      ensures all[i] != all[j]
    {
      if i < |a| && j >= |a| {
        assert all[j] == b[j - |a|] && b[j - |a|] in b;
        assert all[i] in a;
      }
    }
  }

  lemma {:induction false} UrlsOfAppend(a: seq<Track>, b: seq<Track>)
    ensures UrlsOf(a + b) == UrlsOf(a) + UrlsOf(b)
  {
    if a == [] {
      assert a + b == b;
    } else {
      assert (a + b)[1..] == a[1..] + b;
      UrlsOfAppend(a[1..], b);
    }
  }

  /** `/audioimport` */
  method AudioImport(bgm: AudioStore, ambient: AudioStore, kind: string, play: Option<string>, url: string,
                     titleOf: string -> string) returns (out: string)
    requires bgm != ambient
    modifies bgm, ambient
    ensures out == ""
    ensures !ValidType(kind) ==> unchanged(bgm) && unchanged(ambient)
    ensures kind == "bgm" ==> unchanged(ambient)
    ensures kind == "ambient" ==> unchanged(bgm)
    ensures ValidType(kind) ==>
              var store := if kind == "bgm" then bgm else ambient;
              var added := NewUrls(url, old(store.playlist));
              if added == [] then unchanged(store)
              else
                store.playlist == old(store.playlist) + TracksOf(added, titleOf)
                && store.mode == old(store.mode)
                && (if PlayFlag(play) then store.src == added[0] && store.progress == 0 && store.playing
                    else store.src == old(store.src) && store.progress == old(store.progress)
                         && store.playing == old(store.playing))
    ensures ValidType(kind) && PlayFlag(play) ==>
              var store := if kind == "bgm" then bgm else ambient;
              var first := FirstNewPiece(TrimAll(Split(url, ",", false)), UrlsOf(old(store.playlist)));
              first.Some? ==> store.src == Trim(Split(url, ",", false)[first.value]) && store.playing
  {
    if !ValidType(kind) {
      return "";
    }
    var store := if kind == "bgm" then bgm else ambient;
    NewUrlsHead(url, store.playlist);
    var added := NewUrls(url, store.playlist);
    ImportUrls(store, added, play, titleOf);
    return "";
  }

  /** The part of `/audioimport` after the urls are worked out: nothing to add changes
      nothing, otherwise the tracks are appended and, when asked, the first one plays */
  method ImportUrls(store: AudioStore, added: seq<string>, play: Option<string>, titleOf: string -> string)
    modifies store
    ensures added == [] ==> unchanged(store)
    ensures added != [] ==>
              store.playlist == old(store.playlist) + TracksOf(added, titleOf)
              && store.mode == old(store.mode)
              && (if PlayFlag(play) then store.src == added[0] && store.progress == 0 && store.playing
                  else store.src == old(store.src) && store.progress == old(store.progress)
                       && store.playing == old(store.playing))
  {
    if |added| == 0 {
      return;
    }
    store.playlist := store.playlist + TracksOf(added, titleOf);
    if PlayFlag(play) {
      store.src := added[0];
      store.progress := 0;
      store.playing := true;
    }
  }

  /** `/audioselect`. The type is lower-cased but not validated before the store
      lookup; a type naming neither player changes nothing here. */
  method AudioSelect(bgm: AudioStore, ambient: AudioStore, kind: string, url: string,
                     titleOf: string -> string) returns (out: string)
    requires bgm != ambient
    modifies bgm, ambient
    ensures out == ""
    ensures url == "" || !ValidType(Lower(kind)) ==> unchanged(bgm) && unchanged(ambient)
    ensures url != "" && ValidType(Lower(kind)) ==>
              var store := if Lower(kind) == "bgm" then bgm else ambient;
              var other := if Lower(kind) == "bgm" then ambient else bgm;
              unchanged(other)
              && store.playlist == (if url in UrlsOf(old(store.playlist)) then old(store.playlist)
                                    else old(store.playlist) + [Track(url, titleOf(url))])
              && store.src == url && store.progress == 0 && store.playing && store.mode == old(store.mode)
  {
    if url == "" {
      return "";
    }
    var t := Lower(kind);
    if !ValidType(t) {
      return "";
    }
    var store := if t == "bgm" then bgm else ambient;
    if url !in UrlsOf(store.playlist) {
      store.playlist := store.playlist + [Track(url, titleOf(url))];
    }
    store.src := url;
    store.progress := 0;
    store.playing := true;
    return "";
  }

  /** Selecting a url keeps the playlist free of repeated urls and leaves the selected
      url in it */
  lemma {:induction false} SelectKeepsUrlsDistinct(playlist: seq<Track>, url: string, title: string)
    requires NoDup(UrlsOf(playlist))
    ensures url !in UrlsOf(playlist) ==> NoDup(UrlsOf(playlist + [Track(url, title)]))
    ensures url in UrlsOf(playlist + [Track(url, title)])
  {
    UrlsOfAppend(playlist, [Track(url, title)]);
  }
}

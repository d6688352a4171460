/**
  parseResults of src/core/dl/youtube_search.go: a depth-first walk over a decoded JSON tree that collects
  video tracks until a limit. A Go map is walked in any order; an object here lists its entries in the order
  the walk happens to take, and every statement is for all such orders.
*/
module Search {
  import opened Common
  import opened Durations

  datatype Json =
    | Null
    | Bool(b: bool)
    | Num(n: real)
    | Str(s: string)
    | Arr(items: seq<Json>)
    | Obj(entries: seq<Entry>)
  datatype Entry = Entry(key: string, value: Json)

  datatype Step = Key(k: string) | Index(i: int)

  datatype MusicTrack = MusicTrack(
    Id: string, Url: string, Title: string, Thumbnail: string, Duration: int, Views: string, Channel: string)

  /** m[k], nil when the key is missing. */
  function Lookup(entries: seq<Entry>, k: string): Json {
    if entries == [] then Null else if entries[0].key == k then entries[0].value else Lookup(entries[1..], k)
  }

  /** dig: follow a path of keys and indices; nil as soon as it cannot be followed. */
  function Dig(v: Json, path: seq<Step>): Json
    decreases |path|
  {
    if path == [] then v
    else match path[0]
      case Key(k) => if v.Obj? then Dig(Lookup(v.entries, k), path[1..]) else Null
      case Index(i) => if v.Arr? && 0 <= i < |v.items| then Dig(v.items[i], path[1..]) else Null
  }

  function SafeString(v: Json): string {
    if v.Str? then v.s else ""
  }

  const YT_WATCH_URL := "https://www.youtube.com/watch?v="

  /** Each node is the next one's parent by this path. */
  ghost predicate Follows(nodes: seq<Json>, path: seq<Step>) {
    |nodes| == |path| + 1 && forall i | 0 <= i < |path| :: IsParent(nodes[i], path[i], nodes[i + 1])
  }

  ghost predicate IsParent(v: Json, step: Step, child: Json) {
    match step
    case Key(k) => v.Obj? && Entry(k, child) in v.entries
    case Index(i) => v.Arr? && 0 <= i < |v.items| && v.items[i] == child
  }

  /** What dig gives, when it is not nil, is where the path leads. */
  lemma {:induction false} DigFollows(v: Json, path: seq<Step>) returns (nodes: seq<Json>)
    requires Dig(v, path) != Null
    ensures Follows(nodes, path) && nodes[0] == v && nodes[|path|] == Dig(v, path)
    decreases |path|
  {
    if path == [] {
      nodes := [v];
    } else {
      var child := match path[0] case Key(k) => Lookup(v.entries, k) case Index(i) => v.items[i];
      if path[0].Key? && child != Null {
        LookupIsEntry(v.entries, path[0].k);
      }
      assert child != Null by {
        NothingBelowNull(path[1..]);
      }
      var rest := DigFollows(child, path[1..]);
      nodes := [v] + rest;
      assert forall i | 1 <= i < |path| :: nodes[i] == rest[i - 1] && nodes[i + 1] == rest[i] && path[i] == path[1..][i - 1];
    }
  }

  /** And where a path leads, dig finds it: a map has a key once. */
  lemma {:induction false} DigFinds(nodes: seq<Json>, path: seq<Step>)
    requires Follows(nodes, path)
    requires forall i | 0 <= i < |path| && nodes[i].Obj? :: DistinctKeys(nodes[i].entries)
    ensures Dig(nodes[0], path) == nodes[|path|]
    decreases |path|
  {
    if path != [] {
      assert IsParent(nodes[0], path[0], nodes[1]);
      if path[0].Key? {
        var es := nodes[0].entries;
        var j :| 0 <= j < |es| && es[j] == Entry(path[0].k, nodes[1]);
        LookupFinds(es, j);
      }
      forall i | 0 <= i < |path| - 1 ensures IsParent(nodes[1..][i], path[1..][i], nodes[1..][i + 1]) {
        assert IsParent(nodes[i + 1], path[i + 1], nodes[i + 2]);
      }
      DigFinds(nodes[1..], path[1..]);
    }
  }

  lemma NothingBelowNull(path: seq<Step>)
    ensures Dig(Null, path) == Null
  {
  }

  lemma {:induction false} LookupIsEntry(es: seq<Entry>, k: string)
    requires Lookup(es, k) != Null
    ensures Entry(k, Lookup(es, k)) in es
  {
    if es[0].key != k {
      LookupIsEntry(es[1..], k);
    }
  }

  /** dig, as the loop it is. */
  method FollowPath(v: Json, path: seq<Step>) returns (cur: Json)
    ensures cur == Dig(v, path)
  {
    cur := v;
    for i := 0 to |path|
      invariant Dig(cur, path[i..]) == Dig(v, path)
    {
      if cur == Null {
        return;
      }
      assert path[i..][1..] == path[i + 1..];
      match path[i]
      case Key(k) =>
        if !cur.Obj? {
          return Null;
        }
        cur := Lookup(cur.entries, k);
      case Index(n) =>
        if !cur.Arr? || n < 0 || n >= |cur.items| {
          return Null;
        }
        cur := cur.items[n];
    }
  }

  /** safeString of what dig finds. */
  method TextAt(v: Json, path: seq<Step>) returns (s: string)
    ensures IsText(Dig(v, path), s)
  {
    var x := FollowPath(v, path);
    s := SafeString(x);
  }

  predicate IsText(v: Json, s: string) {
    if v.Str? then s == v.s else s == ""
  }

  predicate IsLiveBadge(badge: Json) {
    Dig(badge, [Key("metadataBadgeRenderer"), Key("style")]) == Str("BADGE_STYLE_TYPE_LIVE_NOW")
  }

  /** The body of isLiveNow's loop. */
  method SaysLive(badge: Json) returns (live: bool)
    ensures live == IsLiveBadge(badge)
  {
    var meta := FollowPath(badge, [Key("metadataBadgeRenderer")]);
    live := meta.Obj? && SafeString(Lookup(meta.entries, "style")) == "BADGE_STYLE_TYPE_LIVE_NOW";
  }

  /** isLiveNow: some badge is the live badge. */
  method IsLiveNow(vr: Json) returns (live: bool)
    requires vr.Obj?
    ensures live == LiveNow(vr)
  {
    var badges := Lookup(vr.entries, "badges");
    if !badges.Arr? {
      return false;
    }
    for i := 0 to |badges.items|
      invariant forall j | 0 <= j < i :: !IsLiveBadge(badges.items[j])
    {
      var says := SaysLive(badges.items[i]);
      if says {
        return true;
      }
    }
    live := false;
  }

  predicate LiveNow(vr: Json)
    requires vr.Obj?
  {
    var badges := Lookup(vr.entries, "badges");
    badges.Arr? && exists i | 0 <= i < |badges.items| :: IsLiveBadge(badges.items[i])
  }

  /** The track of one videoRenderer: none when it is live, or lacks an id, a title or a length. */
  function TrackOf(vr: Json): seq<MusicTrack>
    requires vr.Obj?
  {
    var id := SafeString(Lookup(vr.entries, "videoId"));
    var title := SafeString(Dig(vr, [Key("title"), Key("runs"), Index(0), Key("text")]));
    var durationText := SafeString(Dig(vr, [Key("lengthText"), Key("simpleText")]));
    if LiveNow(vr) || id == "" || title == "" || durationText == "" then []
    else [MusicTrack(id, YT_WATCH_URL + id, title,
                     SafeString(Dig(vr, [Key("thumbnail"), Key("thumbnails"), Index(0), Key("url")])),
                     ParsedDuration(durationText),
                     SafeString(Dig(vr, [Key("viewCountText"), Key("simpleText")])),
                     SafeString(Dig(vr, [Key("ownerText"), Key("runs"), Index(0), Key("text")])))]
  }

  /** It is not live, and has an id, a title and a length. */
  predicate Presentable(vr: Json)
    requires vr.Obj?
  {
    && !LiveNow(vr) && !IsText(Dig(vr, [Key("videoId")]), "")
    && !IsText(Dig(vr, [Key("title"), Key("runs"), Index(0), Key("text")]), "")
    && !IsText(Dig(vr, [Key("lengthText"), Key("simpleText")]), "")
  }

  /** `t` is the video of the renderer `vr`: named, playable by its own address, not live, and as vr describes it. */
  ghost predicate IsVideoOf(t: MusicTrack, vr: Json) {
    && vr.Obj? && !LiveNow(vr)
    && t.Id != "" && t.Title != "" && t.Url == YT_WATCH_URL + t.Id
    && Dig(vr, [Key("videoId")]) == Str(t.Id)
    && Dig(vr, [Key("title"), Key("runs"), Index(0), Key("text")]) == Str(t.Title)
    && (exists text :: Dig(vr, [Key("lengthText"), Key("simpleText")]) == Str(text) && text != "" && t.Duration == ParsedDuration(text))
    && IsText(Dig(vr, [Key("thumbnail"), Key("thumbnails"), Index(0), Key("url")]), t.Thumbnail)
    && IsText(Dig(vr, [Key("viewCountText"), Key("simpleText")]), t.Views)
    && IsText(Dig(vr, [Key("ownerText"), Key("runs"), Index(0), Key("text")]), t.Channel)
  }

  lemma DigOne(v: Json, k: string)
    ensures Dig(v, [Key(k)]) == if v.Obj? then Lookup(v.entries, k) else Null
  {
    assert [Key(k)][1..] == [];
  }

  lemma TrackOfIsVideo(vr: Json)
    requires vr.Obj?
    ensures |TrackOf(vr)| == if Presentable(vr) then 1 else 0
    ensures forall t | t in TrackOf(vr) :: IsVideoOf(t, vr)
  {
    DigOne(vr, "videoId");
  }

  // ----- the unlimited collection -----

  /** Every track of the tree, in pre-order; a videoRenderer object hides what is below and beside it. */
  function Collect(node: Json): seq<MusicTrack>
    decreases node
  {
    match node
    case Arr(items) => CollectItems(items)
    case Obj(entries) =>
      var vr := Lookup(entries, "videoRenderer");
      if vr.Obj? then TrackOf(vr) else CollectEntries(entries)
    case _ => []
  }

  function CollectItems(items: seq<Json>): seq<MusicTrack>
    decreases items
  {
    if items == [] then [] else CollectItems(items[..|items| - 1]) + Collect(items[|items| - 1])
  }

  function CollectEntries(entries: seq<Entry>): seq<MusicTrack>
    decreases entries
  {
    if entries == [] then [] else CollectEntries(entries[..|entries| - 1]) + Collect(entries[|entries| - 1].value)
  }

  /** `tracks` followed by as many of `more` as the limit still allows. */
  function UpTo(tracks: seq<MusicTrack>, more: seq<MusicTrack>, limit: int): seq<MusicTrack> {
    if |tracks| >= limit then tracks
    else tracks + if |more| <= limit - |tracks| then more else more[..limit - |tracks|]
  }

  lemma UpToConcat(tracks: seq<MusicTrack>, a: seq<MusicTrack>, b: seq<MusicTrack>, limit: int)
    ensures UpTo(UpTo(tracks, a, limit), b, limit) == UpTo(tracks, a + b, limit)
  {
    if |tracks| < limit {
      var room := limit - |tracks|;
      if |a| < room && |a| + |b| > room {
        assert (a + b)[..room] == a + b[..room - |a|];
      } else if |a| >= room {
        assert (a + b)[..room] == a[..room];
      }
    }
  }

  // ----- the walk, appending through a pointer -----

  class TrackList {
    var tracks: seq<MusicTrack>

    constructor ()
      ensures tracks == []
    {
      tracks := [];
    }
  }

  /**
    parseResults yields the initial tracks followed by the first (limit - initial) tracks of the unlimited
    collection, for every tree and every order in which its maps are walked.
  */
  method ParseResults(node: Json, out: TrackList, limit: int)
    modifies out
    ensures out.tracks == UpTo(old(out.tracks), Collect(node), limit)
    decreases node
  {
    if |out.tracks| >= limit {
      return;
    }
    match node
    case Arr(items) =>
      for i := 0 to |items|
        invariant out.tracks == UpTo(old(out.tracks), CollectItems(items[..i]), limit)
      {
        assert items[..i + 1][..i] == items[..i];
        UpToConcat(old(out.tracks), CollectItems(items[..i]), Collect(items[i]), limit);
        if |out.tracks| >= limit {
          FullStaysFull(old(out.tracks), items, i, limit);
          return;
        }
        ParseResults(items[i], out, limit);
      }
      assert items[..|items|] == items;
    case Obj(entries) =>
      var vr := FollowPath(node, [Key("videoRenderer")]);
      DigOne(node, "videoRenderer");
      if vr.Obj? {
        ParseVideo(vr, out);
        return;
      }
      for i := 0 to |entries|
        invariant out.tracks == UpTo(old(out.tracks), CollectEntries(entries[..i]), limit)
      {
        assert entries[..i + 1][..i] == entries[..i];
        UpToConcat(old(out.tracks), CollectEntries(entries[..i]), Collect(entries[i].value), limit);
        ParseResults(entries[i].value, out, limit);
      }
      assert entries[..|entries|] == entries;
    case _ =>
  }

  lemma {:induction false} FullStaysFull(tracks: seq<MusicTrack>, items: seq<Json>, i: nat, limit: int)
    requires i <= |items| && |UpTo(tracks, CollectItems(items[..i]), limit)| >= limit
    ensures UpTo(tracks, CollectItems(items[..i]), limit) == UpTo(tracks, CollectItems(items), limit)
    decreases |items| - i
  {
    if i < |items| {
      assert items[..i + 1][..i] == items[..i];
      UpToConcat(tracks, CollectItems(items[..i]), Collect(items[i]), limit);
      FullStaysFull(tracks, items, i + 1, limit);
    } else {
      assert items[..i] == items;
    }
  }

  /** The body of the walk at a videoRenderer. */
  method ParseVideo(vr: Json, out: TrackList)
    requires vr.Obj?
    modifies out
    ensures out.tracks == old(out.tracks) + TrackOf(vr)
    ensures |out.tracks| == |old(out.tracks)| + if Presentable(vr) then 1 else 0
    ensures forall t | t in out.tracks[|old(out.tracks)|..] :: IsVideoOf(t, vr)
  {
    TrackOfIsVideo(vr);
    var live := IsLiveNow(vr);
    if live {
      return;
    }
    var id := SafeString(Lookup(vr.entries, "videoId"));
    var title := TextAt(vr, [Key("title"), Key("runs"), Index(0), Key("text")]);
    var durationText := TextAt(vr, [Key("lengthText"), Key("simpleText")]);
    if id == "" || title == "" || durationText == "" {
      return;
    }
    var thumbnail := TextAt(vr, [Key("thumbnail"), Key("thumbnails"), Index(0), Key("url")]);
    var duration := ParseDuration(durationText);
    var views := TextAt(vr, [Key("viewCountText"), Key("simpleText")]);
    var channel := TextAt(vr, [Key("ownerText"), Key("runs"), Index(0), Key("text")]);
    var track := MusicTrack(id, YT_WATCH_URL + id, title, thumbnail, duration, views, channel);
    out.tracks := out.tracks + [track];
  }

  /** Started within the limit the result stays within it, and a smaller limit gives a prefix of a larger one's. */
  lemma LimitsArePrefixes(tracks: seq<MusicTrack>, node: Json, l: int, l': int)
    requires |tracks| <= l <= l'
    ensures |UpTo(tracks, Collect(node), l)| <= l
    ensures tracks <= UpTo(tracks, Collect(node), l) <= UpTo(tracks, Collect(node), l')
  {
  }

  // ----- what is collected: the presentable renderers, in the order of their positions -----

  /** A position in a tree: which child to take at each level. */
  type Path = seq<nat>

  /** The renderer at a position, if the walk comes to one there: a renderer hides what is below and beside it. */
  function RendererAt(node: Json, path: Path): Option<Json>
    decreases |path|
  {
    match node
    case Arr(items) => if path != [] && path[0] < |items| then RendererAt(items[path[0]], path[1..]) else None
    case Obj(entries) =>
      var vr := Lookup(entries, "videoRenderer");
      if vr.Obj? then (if path == [] then Some(vr) else None)
      else if path != [] && path[0] < |entries| then RendererAt(entries[path[0]].value, path[1..]) else None
    case _ => None
  }

  ghost predicate ShownAt(node: Json, path: Path) {
    var vr := RendererAt(node, path);
    vr.Some? && vr.value.Obj? && Presentable(vr.value)
  }

  /** The order in which a walk comes to positions. */
  predicate Precedes(p: Path, q: Path)
    decreases |p|
  {
    q != [] && (p == [] || p[0] < q[0] || (p[0] == q[0] && Precedes(p[1..], q[1..])))
  }

  ghost predicate InOrder(ps: seq<Path>) {
    forall i, j | 0 <= i < j < |ps| :: Precedes(ps[i], ps[j])
  }

  /** `ts` are the videos of the renderers at the positions `ps`, one by one. */
  ghost predicate Videos(node: Json, ps: seq<Path>, ts: seq<MusicTrack>) {
    |ts| == |ps| && forall i | 0 <= i < |ps| :: IsVideoAt(ts[i], node, ps[i])
  }

  ghost predicate IsVideoAt(t: MusicTrack, node: Json, path: Path) {
    ShownAt(node, path) && IsVideoOf(t, RendererAt(node, path).value)
  }

  /** `ps` are exactly the positions of presentable renderers, in order, and `ts` are their videos one by one. */
  ghost predicate Lists(node: Json, ps: seq<Path>, ts: seq<MusicTrack>) {
    && InOrder(ps) && (forall p :: p in ps <==> ShownAt(node, p))
    && Videos(node, ps, ts)
  }

  function Below(n: nat, ps: seq<Path>): (r: seq<Path>)
    ensures |r| == |ps| && forall i | 0 <= i < |ps| :: r[i] == [n] + ps[i]
  {
    seq(|ps|, i requires 0 <= i < |ps| => [n] + ps[i])
  }

  /** The same, for the children of a node up to the n-th. */
  ghost predicate ListsUpTo(node: Json, n: nat, ps: seq<Path>, ts: seq<MusicTrack>) {
    && InOrder(ps) && (forall p :: p in ps <==> p != [] && p[0] < n && ShownAt(node, p))
    && Videos(node, ps, ts)
  }

  /** `child` is the n-th child that the walk of `node` descends to. */
  ghost predicate IsChild(node: Json, n: nat, child: Json) {
    match node
    case Arr(items) => n < |items| && items[n] == child
    case Obj(entries) => !Lookup(entries, "videoRenderer").Obj? && n < |entries| && entries[n].value == child
    case _ => false
  }

  lemma BelowChild(node: Json, n: nat, child: Json, p: Path)
    requires IsChild(node, n, child)
    ensures RendererAt(node, [n] + p) == RendererAt(child, p)
  {
    assert ([n] + p)[1..] == p;
  }

  lemma BelowIsOrdered(n: nat, ps: seq<Path>)
    requires InOrder(ps)
    ensures InOrder(Below(n, ps))
  {
    var r := Below(n, ps);
    forall i, j | 0 <= i < j < |r| ensures Precedes(r[i], r[j]) {
      assert r[i][1..] == ps[i] && r[j][1..] == ps[j];
    }
  }

  lemma BelowMembers(node: Json, n: nat, child: Json, ps: seq<Path>, p: Path)
    requires IsChild(node, n, child) && forall q :: q in ps <==> ShownAt(child, q)
    ensures p in Below(n, ps) <==> p != [] && p[0] == n && ShownAt(node, p)
  {
    var r := Below(n, ps);
    if p in r {
      var i :| 0 <= i < |r| && r[i] == p;
      assert ps[i] in ps && p == [n] + ps[i];
      BelowChild(node, n, child, ps[i]);
    }
    if p != [] && p[0] == n && ShownAt(node, p) {
      assert p == [n] + p[1..];
      BelowChild(node, n, child, p[1..]);
      assert p[1..] in ps;
      var i :| 0 <= i < |ps| && ps[i] == p[1..];
      assert r[i] == p;
    }
  }

  lemma BelowVideos(node: Json, n: nat, child: Json, ps: seq<Path>, ts: seq<MusicTrack>)
    requires IsChild(node, n, child) && Videos(child, ps, ts)
    ensures Videos(node, Below(n, ps), ts)
  {
    forall i | 0 <= i < |ps| ensures IsVideoAt(ts[i], node, Below(n, ps)[i]) {
      BelowChild(node, n, child, ps[i]);
      assert IsVideoAt(ts[i], child, ps[i]);
    }
  }

  lemma VideosConcat(node: Json, ps: seq<Path>, ts: seq<MusicTrack>, qs: seq<Path>, us: seq<MusicTrack>)
    requires Videos(node, ps, ts) && Videos(node, qs, us)
    ensures Videos(node, ps + qs, ts + us)
  {
  }

  lemma OrderedConcat(ps: seq<Path>, n: nat, qs: seq<Path>)
    requires InOrder(ps) && InOrder(qs)
    requires (forall p | p in ps :: p != [] && p[0] < n) && (forall q | q in qs :: q != [] && q[0] == n)
    ensures InOrder(ps + qs)
  {
    var r := ps + qs;
    forall i, j | 0 <= i < j < |r| ensures Precedes(r[i], r[j]) {
      assert i < |ps| ==> r[i] in ps;
      assert j >= |ps| ==> r[j] in qs;
    }
  }

  /** One child more. */
  lemma ListsOneMore(node: Json, n: nat, child: Json, ps: seq<Path>, ts: seq<MusicTrack>, qs: seq<Path>, us: seq<MusicTrack>)
    requires IsChild(node, n, child) && ListsUpTo(node, n, ps, ts) && Lists(child, qs, us)
    ensures ListsUpTo(node, n + 1, ps + Below(n, qs), ts + us)
  {
    var below := Below(n, qs);
    forall p ensures p in below <==> p != [] && p[0] == n && ShownAt(node, p) {
      BelowMembers(node, n, child, qs, p);
    }
    BelowIsOrdered(n, qs);
    OrderedConcat(ps, n, below);
    BelowVideos(node, n, child, qs, us);
    VideosConcat(node, ps, ts, below, us);
  }

  /**
    Exactly what is collected, with no mention of the walk: the videos of the presentable renderers of the
    tree, one for each position and in the order of the positions.
  */
  lemma {:induction false} CollectsAllInOrder(node: Json) returns (ps: seq<Path>)
    ensures Lists(node, ps, Collect(node))
    decreases node
  {
    match node
    case Arr(items) =>
      ps := ItemsInOrder(items, node);
      assert forall p | ShownAt(node, p) :: p != [] && p[0] < |items|;
    case Obj(entries) =>
      var vr := Lookup(entries, "videoRenderer");
      if vr.Obj? {
        ps := LeafInOrder(node, vr);
      } else {
        ps := EntriesInOrder(entries, node);
        assert forall p | ShownAt(node, p) :: p != [] && p[0] < |entries|;
      }
    case _ =>
      ps := [];
  }

  lemma LeafInOrder(node: Json, vr: Json) returns (ps: seq<Path>)
    requires node.Obj? && Lookup(node.entries, "videoRenderer") == vr && vr.Obj?
    ensures Lists(node, ps, TrackOf(vr))
  {
    TrackOfIsVideo(vr);
    ps := if Presentable(vr) then [[]] else [];
    assert forall p | ShownAt(node, p) :: p == [];
    assert RendererAt(node, []) == Some(vr);
    if Presentable(vr) {
      assert TrackOf(vr)[0] in TrackOf(vr);
    }
  }

  lemma {:induction false} ItemsInOrder(items: seq<Json>, node: Json) returns (ps: seq<Path>)
    requires node.Arr? && items <= node.items
    ensures ListsUpTo(node, |items|, ps, CollectItems(items))
    decreases items
  {
    ps := [];
    if items != [] {
      var n := |items| - 1;
      var front := ItemsInOrder(items[..n], node);
      var last := CollectsAllInOrder(items[n]);
      ListsOneMore(node, n, items[n], front, CollectItems(items[..n]), last, Collect(items[n]));
      ps := front + Below(n, last);
    }
  }

  lemma {:induction false} EntriesInOrder(entries: seq<Entry>, node: Json) returns (ps: seq<Path>)
    requires node.Obj? && entries <= node.entries && !Lookup(node.entries, "videoRenderer").Obj?
    ensures ListsUpTo(node, |entries|, ps, CollectEntries(entries))
    decreases entries
  {
    ps := [];
    if entries != [] {
      var n := |entries| - 1;
      var front := EntriesInOrder(entries[..n], node);
      var last := CollectsAllInOrder(entries[n].value);
      ListsOneMore(node, n, entries[n].value, front, CollectEntries(entries[..n]), last, Collect(entries[n].value));
      ps := front + Below(n, last);
    }
  }

  /** In particular every track collected is the video of some renderer, */
  lemma CollectedAreVideos(node: Json, t: MusicTrack)
    requires t in Collect(node)
    ensures exists path :: IsVideoAt(t, node, path)
  {
    var ps := CollectsAllInOrder(node);
    var i :| 0 <= i < |ps| && Collect(node)[i] == t;
    assert IsVideoAt(t, node, ps[i]);
  }

  /** and nothing presentable is missed. */
  lemma NothingIsMissed(node: Json, path: Path)
    requires ShownAt(node, path)
    ensures exists t :: t in Collect(node) && IsVideoOf(t, RendererAt(node, path).value)
  {
    var ps := CollectsAllInOrder(node);
    var i :| 0 <= i < |ps| && ps[i] == path;
    assert Collect(node)[i] in Collect(node);
  }

  // ----- other orders of the maps -----

  /** A map has a key once. */
  ghost predicate DistinctKeys(es: seq<Entry>) {
    forall i, j | 0 <= i < j < |es| :: es[i].key != es[j].key
  }

  ghost predicate SameEntry(e: Entry, f: Entry)
    decreases e
  {
    e.key == f.key && Same(e.value, f.value)
  }

  function WithoutAt(es: seq<Entry>, j: nat): seq<Entry>
    requires j < |es|
  {
    es[..j] + es[j + 1..]
  }

  /** The same entries, listed in whatever order. */
  ghost predicate Reordered(es: seq<Entry>, fs: seq<Entry>)
    decreases es
  {
    if es == [] then fs == []
    else
      var n := |es| - 1;
      exists j: nat | j < |fs| :: SameEntry(es[n], fs[j]) && Reordered(es[..n], WithoutAt(fs, j))
  }

  /** The same tree, the entries of its maps listed in whatever order. */
  ghost predicate Same(a: Json, b: Json)
    decreases a
  {
    match a
    case Arr(items) => b.Arr? && |b.items| == |items| && forall i | 0 <= i < |items| :: Same(items[i], b.items[i])
    case Obj(entries) => b.Obj? && DistinctKeys(entries) && DistinctKeys(b.entries) && Reordered(entries, b.entries)
    case _ => a == b
  }

  lemma {:induction false} LookupFinds(es: seq<Entry>, j: nat)
    requires DistinctKeys(es) && j < |es|
    ensures Lookup(es, es[j].key) == es[j].value
  {
    if j > 0 {
      LookupFinds(es[1..], j - 1);
    }
  }

  lemma {:induction false} LookupSkips(es: seq<Entry>, j: nat, k: string)
    requires j < |es| && es[j].key != k
    ensures Lookup(es, k) == Lookup(WithoutAt(es, j), k)
  {
    if j > 0 {
      LookupSkips(es[1..], j - 1, k);
      assert WithoutAt(es, j)[1..] == WithoutAt(es[1..], j - 1);
    } else {
      assert WithoutAt(es, j) == es[1..];
    }
  }

  /** Looking up a key finds the last entry and its counterpart, or does not need them. */
  lemma LookupLast(es: seq<Entry>, fs: seq<Entry>, j: nat, k: string)
    requires DistinctKeys(es) && DistinctKeys(fs) && es != [] && j < |fs| && es[|es| - 1].key == fs[j].key
    ensures var n := |es| - 1;
            && DistinctKeys(es[..n]) && DistinctKeys(WithoutAt(fs, j))
            && if k == es[n].key then Lookup(es, k) == es[n].value && Lookup(fs, k) == fs[j].value
               else Lookup(es, k) == Lookup(es[..n], k) && Lookup(fs, k) == Lookup(WithoutAt(fs, j), k)
  {
    var n := |es| - 1;
    if k == es[n].key {
      LookupFinds(es, n);
      LookupFinds(fs, j);
    } else {
      LookupSkips(es, n, k);
      LookupSkips(fs, j, k);
      assert WithoutAt(es, n) == es[..n];
    }
  }

  lemma Counterpart(es: seq<Entry>, fs: seq<Entry>) returns (j: nat)
    requires Reordered(es, fs) && es != []
    ensures j < |fs| && SameEntry(es[|es| - 1], fs[j]) && Reordered(es[..|es| - 1], WithoutAt(fs, j))
  {
    j :| j < |fs| && SameEntry(es[|es| - 1], fs[j]) && Reordered(es[..|es| - 1], WithoutAt(fs, j));
  }

  lemma {:induction false} LookupSame(es: seq<Entry>, fs: seq<Entry>, k: string)
    requires DistinctKeys(es) && DistinctKeys(fs) && Reordered(es, fs)
    ensures Same(Lookup(es, k), Lookup(fs, k))
    decreases |es|
  {
    if es != [] {
      var n := |es| - 1;
      var j := Counterpart(es, fs);
      LookupLast(es, fs, j, k);
      if k != es[n].key {
        LookupSame(es[..n], WithoutAt(fs, j), k);
      }
    }
  }

  lemma {:induction false} DigSame(a: Json, b: Json, path: seq<Step>)
    requires Same(a, b)
    ensures Same(Dig(a, path), Dig(b, path))
    decreases |path|
  {
    if path != [] {
      match path[0]
      case Key(k) =>
        if a.Obj? {
          LookupSame(a.entries, b.entries, k);
          DigSame(Lookup(a.entries, k), Lookup(b.entries, k), path[1..]);
        }
      case Index(i) =>
        if a.Arr? && 0 <= i < |a.items| {
          DigSame(a.items[i], b.items[i], path[1..]);
        }
    }
  }

  lemma TextSame(a: Json, b: Json, path: seq<Step>)
    requires Same(a, b)
    ensures SafeString(Dig(a, path)) == SafeString(Dig(b, path))
  {
    DigSame(a, b, path);
  }

  lemma BadgeSame(a: Json, b: Json)
    requires Same(a, b)
    ensures IsLiveBadge(a) <==> IsLiveBadge(b)
  {
    DigSame(a, b, [Key("metadataBadgeRenderer"), Key("style")]);
  }

  lemma LiveSame(a: Json, b: Json)
    requires a.Obj? && Same(a, b)
    ensures LiveNow(a) <==> LiveNow(b)
  {
    LookupSame(a.entries, b.entries, "badges");
    var x, y := Lookup(a.entries, "badges"), Lookup(b.entries, "badges");
    if x.Arr? {
      forall i | 0 <= i < |x.items| ensures IsLiveBadge(x.items[i]) <==> IsLiveBadge(y.items[i]) {
        BadgeSame(x.items[i], y.items[i]);
      }
    }
  }

  lemma TrackSame(a: Json, b: Json)
    requires a.Obj? && Same(a, b)
    ensures TrackOf(a) == TrackOf(b)
  {
    LiveSame(a, b);
    LookupSame(a.entries, b.entries, "videoId");
    TextSame(a, b, [Key("title"), Key("runs"), Index(0), Key("text")]);
    TextSame(a, b, [Key("lengthText"), Key("simpleText")]);
    TextSame(a, b, [Key("thumbnail"), Key("thumbnails"), Index(0), Key("url")]);
    TextSame(a, b, [Key("viewCountText"), Key("simpleText")]);
    TextSame(a, b, [Key("ownerText"), Key("runs"), Index(0), Key("text")]);
  }

  lemma CollectSnoc(es: seq<Entry>, e: Entry)
    ensures CollectEntries(es + [e]) == CollectEntries(es) + Collect(e.value)
  {
    assert (es + [e])[..|es|] == es;
  }

  lemma WithoutAtSnoc(es: seq<Entry>, j: nat, e: Entry)
    requires j < |es|
    ensures WithoutAt(es + [e], j) == WithoutAt(es, j) + [e]
  {
  }

  /** An entry's tracks can be set aside. */
  lemma {:induction false} SetAside(es: seq<Entry>, j: nat)
    requires j < |es|
    ensures multiset(CollectEntries(es)) == multiset(CollectEntries(WithoutAt(es, j))) + multiset(Collect(es[j].value))
    decreases |es|
  {
    var n := |es| - 1;
    var front, last := es[..n], es[n];
    assert es == front + [last];
    CollectSnoc(front, last);
    if j == n {
      assert WithoutAt(es, j) == front;
    } else {
      SetAside(front, j);
      WithoutAtSnoc(front, j, last);
      CollectSnoc(WithoutAt(front, j), last);
    }
  }

  lemma {:induction false} EntriesSame(es: seq<Entry>, fs: seq<Entry>)
    requires Reordered(es, fs)
    ensures multiset(CollectEntries(es)) == multiset(CollectEntries(fs))
    decreases es
  {
    if es != [] {
      var n := |es| - 1;
      var j := Counterpart(es, fs);
      EntriesSame(es[..n], WithoutAt(fs, j));
      OrderOnlyPermutes(es[n].value, fs[j].value);
      SetAside(fs, j);
    }
  }

  lemma {:induction false} ItemsSame(xs: seq<Json>, ys: seq<Json>)
    requires |xs| == |ys| && forall i | 0 <= i < |xs| :: Same(xs[i], ys[i])
    ensures multiset(CollectItems(xs)) == multiset(CollectItems(ys))
    decreases xs
  {
    if xs != [] {
      var n := |xs| - 1;
      ItemsSame(xs[..n], ys[..n]);
      OrderOnlyPermutes(xs[n], ys[n]);
    }
  }

  /** Whatever order the maps are walked in, the unlimited collection has the same tracks, as often. */
  lemma {:induction false} OrderOnlyPermutes(a: Json, b: Json)
    requires Same(a, b)
    ensures multiset(Collect(a)) == multiset(Collect(b))
    decreases a
  {
    match a
    case Arr(items) => ItemsSame(items, b.items);
    case Obj(entries) =>
      LookupSame(entries, b.entries, "videoRenderer");
      var vr := Lookup(entries, "videoRenderer");
      if vr.Obj? {
        TrackSame(vr, Lookup(b.entries, "videoRenderer"));
      } else {
        EntriesSame(entries, b.entries);
      }
    case _ =>
  }
}

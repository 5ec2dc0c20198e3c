/** The playlist worker (radio-timeshift-shift.js): it serves stored audio
    segments and builds an HLS media playlist (RFC 8216) over the segments
    stored under one broadcaster prefix, either as an archive ending with
    EXT-X-ENDLIST or as a sliding live window of about forty seconds.
    The clock (`Date.now()`) and the object store are parameters. */
module Timeshift {
  import opened Wrappers
  import opened Strings

  /** A stored segment as the playlist sees it: its object key and its
      upload instant in milliseconds since the epoch. */
  datatype Segment = Segment(key: string, time: int)

  /** A stored object as `get` returns it. */
  datatype StoredObject = StoredObject(body: seq<byte>, httpEtag: string)

  /** The object store: `list(prefix)` is every page of the listing under a
      key prefix, concatenated; `get(key)` is the object, if any. */
  datatype Bucket = Bucket(list: string -> seq<Segment>, get: string -> Option<StoredObject>)

  /** The parts of an incoming request the worker looks at. */
  datatype Request = Request(
    origin: string,
    pathname: string,
    ago: Option<string>,
    mode: Option<string>,
    ifNoneMatch: Option<string>)

  datatype Body = NoBody | Text(text: string) | Blob(bytes: seq<byte>)

  /** A response: status, body and the ETag header when one is set. */
  datatype Response = Response(status: nat, body: Body, etag: Option<string>)

  const BannerText := "Radio Timeshift Worker v6.4"
  const MissingAgoText := "`ago` param is required."
  const LiveWindowSeconds: nat := 40
  const MinTargetDuration: nat := 60

  // ---------------------------------------------------------------------
  // parseAgo

  /** Milliseconds per unit letter, after lower-casing; 0 for any other. */
  function UnitMillis(unit: char): (ms: nat)
    ensures ms == 1000 <==> unit == 's'
    ensures ms == 60 * 1000 <==> unit == 'm'
    ensures ms == 60 * 60 * 1000 <==> unit == 'h'
    ensures ms == 24 * 60 * 60 * 1000 <==> unit == 'd'
    ensures ms == 0 <==> unit !in "smhd"
  {
    match unit
    case 's' => 1000
    case 'm' => 60 * 1000
    case 'h' => 60 * 60 * 1000
    case 'd' => 24 * 60 * 60 * 1000
    case _ => 0
  }

  /** The text before the unit letter. */
  function AgoNumber(ago: string): string {
    Slice(ago, 0, -1)
  }

  /** `parseAgo`: a duration such as "30m" in milliseconds. The last
      character is the unit, the text before it is read by `parseInt`.
      (`toLowerCase` is applied to ASCII letters only: no other character
      lower-cases to one of s, m, h or d.) */
  function ParseAgo(ago: Option<string>): (ms: int)
    ensures ago.None? || ago == Some("") ==> ms == 0
    ensures ago.Some? && ago.value != "" && ParseInt(AgoNumber(ago.value)).None? ==> ms == 0
    ensures ago.Some? && ago.value != "" && LowerAscii(ago.value[|ago.value| - 1]) !in "smhd" ==> ms == 0
  {
    if ago.None? || ago.value == "" then 0
    else
      var s := ago.value;
      var unit := LowerAscii(s[|s| - 1]);
      match ParseInt(AgoNumber(s))
      case None => 0
      case Some(value) => value * UnitMillis(unit)
  }

  /** A count followed by a unit letter, in either case, scales the count
      by the unit's length in milliseconds; any other letter gives 0. */
  lemma ParseAgoOfCount(n: nat, unit: char)
    ensures ParseAgo(Some(NatToString(n) + [unit])) ==
      n * (if unit in "sS" then 1000
           else if unit in "mM" then 60000
           else if unit in "hH" then 3600000
           else if unit in "dD" then 86400000
           else 0)
  {
    var s := NatToString(n) + [unit];
    assert AgoNumber(s) == NatToString(n) + [];
    ParseIntOfDecimal(n, []);
  }

  // ---------------------------------------------------------------------
  // routing and key derivation

  /** `url.pathname.slice(1, -5)`: the broadcaster prefix of a playlist path. */
  function PlaylistPrefix(pathname: string): (prefix: string)
    ensures StartsWith(pathname, "/") && EndsWith(pathname, ".m3u8") ==>
              pathname == "/" + prefix + ".m3u8"
  {
    var prefix := Slice(pathname, 1, -5);
    if StartsWith(pathname, "/") && EndsWith(pathname, ".m3u8") then
      assert pathname[|pathname| - 5] == '.';
      assert pathname == [pathname[0]] + pathname[1..|pathname| - 5] + pathname[|pathname| - 5..];
      prefix
    else prefix
  }

  /** `url.pathname.slice(5)`: the object key of a segment path. */
  function SegmentKey(pathname: string): (key: string)
    ensures StartsWith(pathname, "/get/") ==> pathname == "/get/" + key
  {
    Slice(pathname, 5, |pathname|)
  }

  datatype Route = SegmentRoute | PlaylistRoute | BannerRoute

  /** The dispatch in `fetch`: the `/get/` test comes first. */
  function RouteOf(pathname: string): (r: Route)
    ensures r == SegmentRoute <==> StartsWith(pathname, "/get/")
    ensures r == PlaylistRoute <==> !StartsWith(pathname, "/get/") && EndsWith(pathname, ".m3u8")
  {
    if StartsWith(pathname, "/get/") then SegmentRoute
    else if EndsWith(pathname, ".m3u8") then PlaylistRoute
    else BannerRoute
  }

  // ---------------------------------------------------------------------
  // durations

  /** Seconds per segment: 5 for the KBS prefixes, 9 for every other. */
  function SegmentSeconds(prefix: string): (dur: nat)
    ensures dur == 5 || dur == 9
    ensures dur == 5 <==> StartsWith(prefix, "kbs")
  {
    if StartsWith(prefix, "kbs") then 5 else 9
  }

  /** `Math.max(60, Math.ceil(dur * 3))`: the least whole number of seconds
      that is at least 60 and at least three segment durations. */
  function TargetDuration(dur: nat): (tgt: nat)
    ensures tgt >= MinTargetDuration && tgt >= 3 * dur
    ensures tgt == MinTargetDuration || tgt == 3 * dur
  {
    if 3 * dur > MinTargetDuration then 3 * dur else MinTargetDuration
  }

  /** `Math.ceil(40 / dur)`: the fewest segments that cover the live window. */
  function LiveCount(dur: nat): (count: nat)
    requires dur > 0
    ensures count > 0
    ensures (count - 1) * dur < LiveWindowSeconds <= count * dur
  {
    var count := (LiveWindowSeconds + dur - 1) / dur;
    var r := (LiveWindowSeconds + dur - 1) % dur;
    assert LiveWindowSeconds + dur - 1 == count * dur + r;
    assert (count - 1) * dur == count * dur - dur;
    count
  }

  /** Both broadcasters get a 60-second target duration; the live window
      is 8 KBS segments or 5 segments of any other prefix. */
  lemma TimingOfPrefix(prefix: string)
    ensures TargetDuration(SegmentSeconds(prefix)) == 60
    ensures LiveCount(SegmentSeconds(prefix)) == if StartsWith(prefix, "kbs") then 8 else 5
  {
  }

  // ---------------------------------------------------------------------
  // selection

  /** `arr.findIndex(x => x.time >= startTime)`: the first segment uploaded
      at or after `startTime`, or -1. */
  function FindIndex(arr: seq<Segment>, startTime: int): (idx: int)
    ensures -1 <= idx < |arr|
    ensures idx == -1 <==> forall i :: 0 <= i < |arr| ==> arr[i].time < startTime
    ensures idx >= 0 ==> arr[idx].time >= startTime
    ensures idx >= 0 ==> forall i :: 0 <= i < idx ==> arr[i].time < startTime
  {
    if arr == [] then -1
    else if arr[0].time >= startTime then 0
    else
      var k := FindIndex(arr[1..], startTime);
      if k < 0 then -1 else k + 1
  }

  /** `arr.filter(x => x.time >= startTime)`: the segments uploaded at or
      after `startTime`, in their order. */
  function SegmentsFrom(arr: seq<Segment>, startTime: int): (r: seq<Segment>)
    ensures forall i :: 0 <= i < |r| ==> r[i].time >= startTime
    ensures multiset(r) <= multiset(arr)
    ensures forall x :: x in arr && x.time >= startTime ==> x in r
    ensures forall x :: x in r ==> x in arr
  {
    if arr == [] then []
    else
      assert arr == [arr[0]] + arr[1..];
      (if arr[0].time >= startTime then [arr[0]] else []) + SegmentsFrom(arr[1..], startTime)
  }

  /** The segments and the EXT-X-MEDIA-SEQUENCE value of a playlist. */
  datatype Selection = Selection(segments: seq<Segment>, mediaSequence: int)

  /** The branch in `generatePlaylist` that picks `selected` and `seq`. */
  function Select(arr: seq<Segment>, startTime: int, live: bool, count: nat): (s: Selection)
    requires count > 0
    ensures !live ==> s.mediaSequence == 0 && s.segments == SegmentsFrom(arr, startTime)
    ensures live ==> |s.segments| <= count
    ensures forall x :: x in s.segments ==> x in arr
    ensures live && FindIndex(arr, startTime) >= 0 ==>
              var idx := FindIndex(arr, startTime);
              s.mediaSequence == idx && s.segments == arr[idx..Min(idx + count, |arr|)]
    ensures live && FindIndex(arr, startTime) < 0 ==>
              s.mediaSequence == |arr| - count && s.segments == arr[Max(0, |arr| - count)..]
  {
    if live then
      var idx := FindIndex(arr, startTime);
      if idx < 0 then Selection(Slice(arr, -(count as int), |arr|), |arr| - count)
      else Selection(Slice(arr, idx, idx + count), idx)
    else Selection(SegmentsFrom(arr, startTime), 0)
  }

  /** When no segment is recent enough and fewer than `count` are stored,
      the live playlist lists all of them under a negative media sequence
      number (which RFC 8216 section 4.3.3.2 does not allow). */
  lemma LiveShortStoreHasNegativeSequence(arr: seq<Segment>, startTime: int, count: nat)
    requires count > 0 && |arr| < count
    requires forall i :: 0 <= i < |arr| ==> arr[i].time < startTime
    ensures Select(arr, startTime, true, count) == Selection(arr, |arr| - count)
    ensures Select(arr, startTime, true, count).mediaSequence < 0
  {
    assert arr[0..] == arr;
  }

  predicate Ordered(arr: seq<Segment>) {
    forall i, j :: 0 <= i < j < |arr| ==> arr[i].time <= arr[j].time
  }

  lemma {:induction false} SegmentsFromAll(arr: seq<Segment>, startTime: int)
    requires forall i :: 0 <= i < |arr| ==> arr[i].time >= startTime
    ensures SegmentsFrom(arr, startTime) == arr
    decreases |arr|
  {
    if arr != [] {
      SegmentsFromAll(arr[1..], startTime);
    }
  }

  /** The filter keeps order: filtering a concatenation is concatenating
      the filtered parts. */
  lemma {:induction false} SegmentsFromAppend(a: seq<Segment>, b: seq<Segment>, startTime: int)
    ensures SegmentsFrom(a + b, startTime) == SegmentsFrom(a, startTime) + SegmentsFrom(b, startTime)
    decreases |a|
  {
    if a == [] {
      assert a + b == b;
    } else {
      assert (a + b)[0] == a[0];
      assert (a + b)[1..] == a[1..] + b;
      SegmentsFromAppend(a[1..], b, startTime);
    }
  }

  /** A single segment is kept exactly when it is recent enough. */
  lemma SegmentsFromOne(x: Segment, startTime: int)
    ensures SegmentsFrom([x], startTime) == if x.time >= startTime then [x] else []
  {
    assert [x][1..] == [];
  }

  lemma OrderedTail(arr: seq<Segment>)
    requires Ordered(arr) && arr != []
    ensures Ordered(arr[1..])
  {
    var tail := arr[1..];
    forall i, j | 0 <= i < j < |tail| ensures tail[i].time <= tail[j].time {
      assert tail[i] == arr[i + 1] && tail[j] == arr[j + 1];
    }
  }

  lemma SegmentsFromSkip(arr: seq<Segment>, startTime: int)
    requires arr != [] && arr[0].time < startTime
    ensures SegmentsFrom(arr, startTime) == SegmentsFrom(arr[1..], startTime)
  {
    assert [] + SegmentsFrom(arr[1..], startTime) == SegmentsFrom(arr[1..], startTime);
  }

  lemma OrderedFromFirst(arr: seq<Segment>, startTime: int)
    requires Ordered(arr) && arr != [] && arr[0].time >= startTime
    ensures forall i :: 0 <= i < |arr| ==> arr[i].time >= startTime
  {
    forall i | 0 < i < |arr| ensures arr[i].time >= startTime {
      assert arr[0].time <= arr[i].time;
    }
  }

  /** On segments in upload order, the archive selection is the suffix
      that starts at the first segment the live search finds. */
  lemma {:induction false} ArchiveIsSuffix(arr: seq<Segment>, startTime: int)
    requires Ordered(arr)
    ensures var idx := FindIndex(arr, startTime);
            SegmentsFrom(arr, startTime) == if idx < 0 then [] else arr[idx..]
    decreases |arr|
  {
    if arr != [] {
      if arr[0].time >= startTime {
        assert FindIndex(arr, startTime) == 0;
        OrderedFromFirst(arr, startTime);
        SegmentsFromAll(arr, startTime);
        assert arr[0..] == arr;
      } else {
        var tail := arr[1..];
        OrderedTail(arr);
        SegmentsFromSkip(arr, startTime);
        ArchiveIsSuffix(tail, startTime);
        var k := FindIndex(tail, startTime);
        assert FindIndex(arr, startTime) == if k < 0 then -1 else k + 1;
        if k >= 0 {
          assert tail[k..] == arr[k + 1..];
        }
      }
    }
  }

  /** The first `count` elements of `s[i..]` are the window `s[i..i + count]`,
      cut at the end of `s`. */
  lemma WindowOfSuffix<T>(s: seq<T>, i: nat, count: nat)
    requires i <= |s|
    ensures s[i..][..Min(count, |s| - i)] == s[i..Min(i + count, |s|)]
  {
  }

  /** The live window, as the branch of `generatePlaylist` slices it. */
  lemma LiveWindow(arr: seq<Segment>, startTime: int, count: nat)
    requires count > 0 && FindIndex(arr, startTime) >= 0
    ensures var idx := FindIndex(arr, startTime);
            Select(arr, startTime, true, count).segments == arr[idx..][..Min(count, |arr| - idx)]
  {
    var idx := FindIndex(arr, startTime);
    assert Select(arr, startTime, true, count).segments == arr[idx..Min(idx + count, |arr|)];
    WindowOfSuffix(arr, idx, count);
  }

  /** On segments in upload order, when some segment is recent enough the
      live window is the first `count` segments of the archive selection. */
  lemma LiveIsPrefixOfArchive(arr: seq<Segment>, startTime: int, count: nat)
    requires count > 0 && Ordered(arr) && FindIndex(arr, startTime) >= 0
    ensures var archive := SegmentsFrom(arr, startTime);
            Select(arr, startTime, true, count).segments == archive[..Min(count, |archive|)]
  {
    LiveWindow(arr, startTime, count);
    ArchiveIsSuffix(arr, startTime);
  }

  // ---------------------------------------------------------------------
  // sorting

  lemma OrderedSnoc(s: seq<Segment>, x: Segment)
    requires Ordered(s)
    requires forall i :: 0 <= i < |s| ==> s[i].time <= x.time
    ensures Ordered(s + [x])
  {
    var r := s + [x];
    forall i, j | 0 <= i < j < |r| ensures r[i].time <= r[j].time {
      assert r[i] == s[i];
      if j < |s| {
        assert r[j] == s[j];
      }
    }
  }

  lemma OrderedPrefix(s: seq<Segment>, n: nat)
    requires Ordered(s) && n <= |s|
    ensures Ordered(s[..n])
  {
    var p := s[..n];
    forall i, j | 0 <= i < j < |p| ensures p[i].time <= p[j].time {
      assert p[i] == s[i] && p[j] == s[j];
    }
  }

  /** Inserts `x` after every element uploaded no later than it. */
  function InsertByTime(sorted: seq<Segment>, x: Segment): (r: seq<Segment>)
    ensures multiset(r) == multiset(sorted) + multiset{x}
    ensures Ordered(sorted) ==> Ordered(r)
    decreases |sorted|
  {
    if sorted == [] || sorted[|sorted| - 1].time <= x.time then
      assert Ordered(sorted) ==> Ordered(sorted + [x]) by {
        if Ordered(sorted) {
          forall i | 0 <= i < |sorted| ensures sorted[i].time <= x.time {
            assert sorted[i].time <= sorted[|sorted| - 1].time;
          }
          OrderedSnoc(sorted, x);
        }
      }
      sorted + [x]
    else
      var init, last := sorted[..|sorted| - 1], sorted[|sorted| - 1];
      assert sorted == init + [last];
      var r' := InsertByTime(init, x);
      assert Ordered(sorted) ==> Ordered(r' + [last]) by {
        if Ordered(sorted) {
          OrderedPrefix(sorted, |sorted| - 1);
          forall i | 0 <= i < |r'| ensures r'[i].time <= last.time {
            assert r'[i] in multiset(r');
            assert r'[i] in multiset(init) || r'[i] == x;
            if r'[i] in multiset(init) {
              var k :| 0 <= k < |init| && init[k] == r'[i];
              assert sorted[k] == init[k];
            }
          }
          OrderedSnoc(r', last);
        }
      }
      r' + [last]
  }

  /** `objs.sort((a, b) => a.uploaded - b.uploaded)`, a stable sort, as an
      insertion sort. */
  function SortByTime(s: seq<Segment>): (r: seq<Segment>)
    ensures Ordered(r)
    ensures multiset(r) == multiset(s)
    decreases |s|
  {
    if s == [] then []
    else
      assert s == s[..|s| - 1] + [s[|s| - 1]];
      InsertByTime(SortByTime(s[..|s| - 1]), s[|s| - 1])
  }

  /** The segments uploaded at instant `t`, in their order. */
  function UploadedAt(s: seq<Segment>, t: int): seq<Segment> {
    if s == [] then []
    else UploadedAt(s[..|s| - 1], t) + (if s[|s| - 1].time == t then [s[|s| - 1]] else [])
  }

  /** `UploadedAt` of a sequence ending in `last`. */
  lemma UploadedAtSnoc(s: seq<Segment>, last: Segment, t: int)
    ensures UploadedAt(s + [last], t) == UploadedAt(s, t) + (if last.time == t then [last] else [])
  {
    assert (s + [last])[..|s|] == s;
  }

  lemma {:induction false} InsertKeepsTies(sorted: seq<Segment>, x: Segment, t: int)
    ensures UploadedAt(InsertByTime(sorted, x), t) ==
            UploadedAt(sorted, t) + (if x.time == t then [x] else [])
    decreases |sorted|
  {
    if sorted == [] || sorted[|sorted| - 1].time <= x.time {
      UploadedAtSnoc(sorted, x, t);
    } else {
      var init, last := sorted[..|sorted| - 1], sorted[|sorted| - 1];
      assert sorted == init + [last];
      var r' := InsertByTime(init, x);
      assert InsertByTime(sorted, x) == r' + [last];
      var tx := if x.time == t then [x] else [];
      var tl := if last.time == t then [last] else [];
      assert tx == [] || tl == [];
      calc {
        UploadedAt(InsertByTime(sorted, x), t);
        { UploadedAtSnoc(r', last, t); }
        UploadedAt(r', t) + tl;
        { InsertKeepsTies(init, x, t); }
        UploadedAt(init, t) + tx + tl;
        UploadedAt(init, t) + tl + tx;
        { UploadedAtSnoc(init, last, t); }
        UploadedAt(sorted, t) + tx;
      }
    }
  }

  /** The sort is stable: segments uploaded at the same instant keep their
      listing order. */
  lemma {:induction false} SortIsStable(s: seq<Segment>, t: int)
    ensures UploadedAt(SortByTime(s), t) == UploadedAt(s, t)
    decreases |s|
  {
    if s != [] {
      SortIsStable(s[..|s| - 1], t);
      InsertKeepsTies(SortByTime(s[..|s| - 1]), s[|s| - 1], t);
    }
  }

  // ---------------------------------------------------------------------
  // rendering

  /** `#EXTINF:${dur.toFixed(3)},` for a whole number of seconds. */
  function ExtInf(dur: nat): string {
    "#EXTINF:" + NatToString(dur) + ".000,"
  }

  function SegmentUri(origin: string, key: string): string {
    origin + "/get/" + key
  }

  function Header(tgt: nat, mediaSequence: int): seq<string> {
    ["#EXTM3U", "#EXT-X-VERSION:3",
     "#EXT-X-TARGETDURATION:" + NatToString(tgt),
     "#EXT-X-MEDIA-SEQUENCE:" + IntToString(mediaSequence)]
  }

  /** Two lines per segment: its EXTINF tag and its URI. */
  function Entries(dur: nat, origin: string, segs: seq<Segment>): (lines: seq<string>)
    ensures |lines| == 2 * |segs|
    ensures forall i :: 0 <= i < |segs| ==>
              lines[2 * i] == ExtInf(dur) && lines[2 * i + 1] == SegmentUri(origin, segs[i].key)
  {
    if segs == [] then []
    else Entries(dur, origin, segs[..|segs| - 1]) + [ExtInf(dur), SegmentUri(origin, segs[|segs| - 1].key)]
  }

  function Footer(live: bool): string {
    if live then "#EXT-X-DISCONTINUITY" else "#EXT-X-ENDLIST"
  }

  /** The lines of a media playlist: four header tags, two lines per
      selected segment in order, then the closing tag. */
  function PlaylistLines(origin: string, dur: nat, tgt: nat, sel: Selection, live: bool): (lines: seq<string>)
    ensures |lines| == 5 + 2 * |sel.segments|
    ensures lines[0] == "#EXTM3U" && lines[1] == "#EXT-X-VERSION:3"
    ensures lines[2] == "#EXT-X-TARGETDURATION:" + NatToString(tgt)
    ensures lines[3] == "#EXT-X-MEDIA-SEQUENCE:" + IntToString(sel.mediaSequence)
    ensures forall i :: 0 <= i < |sel.segments| ==>
              lines[4 + 2 * i] == ExtInf(dur) && lines[5 + 2 * i] == SegmentUri(origin, sel.segments[i].key)
    ensures lines[|lines| - 1] == (if live then "#EXT-X-DISCONTINUITY" else "#EXT-X-ENDLIST")
  {
    var entries := Entries(dur, origin, sel.segments);
    var lines := Header(tgt, sel.mediaSequence) + entries + [Footer(live)];
    assert forall i :: 0 <= i < |sel.segments| ==>
             lines[4 + 2 * i] == entries[2 * i] && lines[5 + 2 * i] == entries[2 * i + 1];
    lines
  }

  /** What `generatePlaylist` decides from the request before writing. */
  datatype Plan = Plan(dur: nat, tgt: nat, live: bool, selection: Selection)

  function PlanOf(pathname: string, ago: Option<string>, mode: Option<string>, now: int,
                  segments: seq<Segment>): (p: Plan)
    ensures p.dur == 5 || p.dur == 9
    ensures p.tgt == 60
    ensures p.live <==> mode == Some("live")
    ensures p.dur == SegmentSeconds(PlaylistPrefix(pathname)) && p.tgt == TargetDuration(p.dur)
    ensures p.selection == Select(segments, now - ParseAgo(ago), p.live, LiveCount(p.dur))
  {
    var startTime := now - ParseAgo(ago);
    var live := mode == Some("live");
    var dur := SegmentSeconds(PlaylistPrefix(pathname));
    var count := LiveCount(dur);
    Plan(dur, TargetDuration(dur), live, Select(segments, startTime, live, count))
  }

  /** The body `generatePlaylist` returns: when neither the origin nor a
      key holds a line feed, split at line feeds it is the playlist's lines
      (and the empty piece after the final line feed). */
  function PlaylistText(origin: string, pathname: string, ago: Option<string>, mode: Option<string>,
                        now: int, segments: seq<Segment>): (text: string)
    ensures '\n' !in origin && (forall i :: 0 <= i < |segments| ==> '\n' !in segments[i].key) ==>
              var p := PlanOf(pathname, ago, mode, now, segments);
              Lines(text) == PlaylistLines(origin, p.dur, p.tgt, p.selection, p.live) + [""]
  {
    var p := PlanOf(pathname, ago, mode, now, segments);
    PlanLinesRoundTrip(origin, pathname, ago, mode, now, segments);
    Unlines(PlaylistLines(origin, p.dur, p.tgt, p.selection, p.live))
  }

  lemma NoLineFeedInNumber(n: nat)
    ensures '\n' !in NatToString(n)
  {
    var s := NatToString(n);
    assert forall i :: 0 <= i < |s| ==> s[i] != '\n';
  }

  lemma EntriesHaveNoLineFeed(dur: nat, origin: string, segs: seq<Segment>)
    requires '\n' !in origin
    requires forall i :: 0 <= i < |segs| ==> '\n' !in segs[i].key
    ensures forall k :: 0 <= k < |Entries(dur, origin, segs)| ==> '\n' !in Entries(dur, origin, segs)[k]
  {
    NoLineFeedInNumber(dur);
    var e := Entries(dur, origin, segs);
    forall k | 0 <= k < |e| ensures '\n' !in e[k] {
      var i := k / 2;
      if k == 2 * i {
        assert e[k] == ExtInf(dur);
      } else {
        assert e[k] == SegmentUri(origin, segs[i].key);
      }
    }
  }

  lemma HeaderHasNoLineFeed(tgt: nat, mediaSequence: int)
    ensures var h := Header(tgt, mediaSequence);
            forall k :: 0 <= k < |h| ==> '\n' !in h[k]
  {
    NoLineFeedInNumber(tgt);
    NoLineFeedInNumber(if mediaSequence < 0 then -mediaSequence else mediaSequence);
    var h := Header(tgt, mediaSequence);
    assert '\n' !in h[0] && '\n' !in h[1];
    assert h[2] == "#EXT-X-TARGETDURATION:" + NatToString(tgt);
    assert h[3] == "#EXT-X-MEDIA-SEQUENCE:" + IntToString(mediaSequence);
  }

  lemma NoLineFeedInParts(h: seq<string>, e: seq<string>, f: string)
    requires forall k :: 0 <= k < |h| ==> '\n' !in h[k]
    requires forall k :: 0 <= k < |e| ==> '\n' !in e[k]
    requires '\n' !in f
    ensures var lines := h + e + [f];
            forall k :: 0 <= k < |lines| ==> '\n' !in lines[k]
  {
    var lines := h + e + [f];
    forall k | 0 <= k < |lines| ensures '\n' !in lines[k] {
      if k < |h| {
        assert lines[k] == h[k];
      } else if k < |h| + |e| {
        assert lines[k] == e[k - |h|];
      }
    }
  }

  lemma PlaylistLinesHaveNoLineFeed(origin: string, dur: nat, tgt: nat, sel: Selection, live: bool)
    requires '\n' !in origin
    requires forall i :: 0 <= i < |sel.segments| ==> '\n' !in sel.segments[i].key
    ensures var lines := PlaylistLines(origin, dur, tgt, sel, live);
            forall k :: 0 <= k < |lines| ==> '\n' !in lines[k]
  {
    HeaderHasNoLineFeed(tgt, sel.mediaSequence);
    EntriesHaveNoLineFeed(dur, origin, sel.segments);
    assert '\n' !in Footer(live);
    NoLineFeedInParts(Header(tgt, sel.mediaSequence), Entries(dur, origin, sel.segments), Footer(live));
  }

  /** Read back line by line, a written playlist is its lines followed by
      the empty piece after the last line feed, as long as the origin and
      the keys hold no line feed. */
  lemma PlaylistLinesRoundTrip(origin: string, dur: nat, tgt: nat, sel: Selection, live: bool)
    requires '\n' !in origin
    requires forall i :: 0 <= i < |sel.segments| ==> '\n' !in sel.segments[i].key
    ensures Lines(Unlines(PlaylistLines(origin, dur, tgt, sel, live))) ==
            PlaylistLines(origin, dur, tgt, sel, live) + [""]
  {
    PlaylistLinesHaveNoLineFeed(origin, dur, tgt, sel, live);
    SplitUnlines(PlaylistLines(origin, dur, tgt, sel, live));
  }

  /** The planned lines, rendered and read back, when nothing they are made
      of holds a line feed. */
  lemma PlanLinesRoundTrip(origin: string, pathname: string, ago: Option<string>, mode: Option<string>,
                           now: int, segments: seq<Segment>)
    ensures '\n' !in origin && (forall i :: 0 <= i < |segments| ==> '\n' !in segments[i].key) ==>
              var p := PlanOf(pathname, ago, mode, now, segments);
              var lines := PlaylistLines(origin, p.dur, p.tgt, p.selection, p.live);
              Lines(Unlines(lines)) == lines + [""]
  {
    if '\n' !in origin && (forall i :: 0 <= i < |segments| ==> '\n' !in segments[i].key) {
      var p := PlanOf(pathname, ago, mode, now, segments);
      var sel := p.selection.segments;
      forall i | 0 <= i < |sel| ensures '\n' !in sel[i].key {
        assert sel[i] in segments;
      }
      PlaylistLinesRoundTrip(origin, p.dur, p.tgt, p.selection, p.live);
    }
  }

  // ---------------------------------------------------------------------
  // handlers

  lemma UnlinesOfFour(h: seq<string>)
    requires |h| == 4
    ensures Unlines(h) == h[0] + "\n" + h[1] + "\n" + h[2] + "\n" + h[3] + "\n"
  {
    assert Unlines(h[3..]) == h[3] + "\n" by {
      assert h[3..][1..] == [];
    }
    assert Unlines(h[2..]) == h[2] + "\n" + Unlines(h[3..]) by {
      assert h[2..][1..] == h[3..];
    }
    assert Unlines(h[1..]) == h[1] + "\n" + Unlines(h[2..]) by {
      assert h[1..][1..] == h[2..];
    }
  }

  /** The text the loop appends for one segment. */
  function EntryText(dur: nat, origin: string, key: string): string {
    "#EXTINF:" + NatToString(dur) + ".000,\n" + origin + "/get/" + key + "\n"
  }

  /** The text the header template produces. */
  function HeaderText(tgt: nat, mediaSequence: int): string {
    "#EXTM3U" + "\n" + "#EXT-X-VERSION:3" + "\n"
    + ("#EXT-X-TARGETDURATION:" + NatToString(tgt)) + "\n"
    + ("#EXT-X-MEDIA-SEQUENCE:" + IntToString(mediaSequence)) + "\n"
  }

  lemma HeaderTextIsLines(tgt: nat, mediaSequence: int)
    ensures Unlines(Header(tgt, mediaSequence)) == HeaderText(tgt, mediaSequence)
  {
    UnlinesOfFour(Header(tgt, mediaSequence));
  }

  /** One `+=` of the writing loop appends the two lines of the next segment. */
  lemma UnlinesEntriesStep(h: seq<string>, dur: nat, origin: string, sel: seq<Segment>, i: nat)
    requires i < |sel|
    ensures Unlines(h + Entries(dur, origin, sel[..i + 1])) ==
            Unlines(h + Entries(dur, origin, sel[..i])) + EntryText(dur, origin, sel[i].key)
  {
    var entry := [ExtInf(dur), SegmentUri(origin, sel[i].key)];
    assert sel[..i + 1][..i] == sel[..i];
    assert h + Entries(dur, origin, sel[..i + 1]) == h + Entries(dur, origin, sel[..i]) + entry;
    UnlinesAppend(h + Entries(dur, origin, sel[..i]), entry);
    assert Unlines(entry) == ExtInf(dur) + "\n" + Unlines([SegmentUri(origin, sel[i].key)]);
  }

  /** The writing half of `generatePlaylist`: the header template, one `+=`
      per selected segment, then the closing tag. */
  method WritePlaylist(origin: string, dur: nat, tgt: nat, selected: seq<Segment>, mediaSequence: int,
                       isLive: bool) returns (m3u: string)
    ensures m3u == Unlines(PlaylistLines(origin, dur, tgt, Selection(selected, mediaSequence), isLive))
  {
    ghost var header := Header(tgt, mediaSequence);
    m3u := HeaderText(tgt, mediaSequence);
    HeaderTextIsLines(tgt, mediaSequence);
    assert header + Entries(dur, origin, selected[..0]) == header;
    for i := 0 to |selected|
      invariant m3u == Unlines(header + Entries(dur, origin, selected[..i]))
    {
      UnlinesEntriesStep(header, dur, origin, selected, i);
      m3u := m3u + EntryText(dur, origin, selected[i].key);
    }
    assert selected[..|selected|] == selected;
    UnlinesAppend(header + Entries(dur, origin, selected), [Footer(isLive)]);
    m3u := m3u + Footer(isLive) + "\n";
  }

  /** `generatePlaylist`: decide the plan, then write the playlist. */
  method GeneratePlaylist(origin: string, pathname: string, ago: Option<string>, mode: Option<string>,
                          now: int, segments: seq<Segment>) returns (resp: Response)
    ensures resp == Response(200, Text(PlaylistText(origin, pathname, ago, mode, now, segments)), None)
  {
    var p := PlanOf(pathname, ago, mode, now, segments);
    var m3u := WritePlaylist(origin, p.dur, p.tgt, p.selection.segments, p.selection.mediaSequence, p.live);
    resp := Response(200, Text(m3u), None);
  }

  /** `handlePlaylist`: refuse a request without `ago`, otherwise list the
      prefix, sort by upload time and write the playlist. */
  method HandlePlaylist(req: Request, now: int, bucket: Bucket) returns (resp: Response)
    ensures req.ago.None? || req.ago == Some("") ==> resp == Response(400, Text(MissingAgoText), None)
    ensures req.ago.Some? && req.ago.value != "" ==>
              var listed := bucket.list(PlaylistPrefix(req.pathname) + "/");
              resp == Response(200, Text(PlaylistText(req.origin, req.pathname, req.ago, req.mode,
                                                      now, SortByTime(listed))), None)
  {
    var prefix := PlaylistPrefix(req.pathname);
    if req.ago.None? || req.ago.value == "" {
      return Response(400, Text(MissingAgoText), None);
    }
    var objs := bucket.list(prefix + "/");
    var segments := SortByTime(objs);
    resp := GeneratePlaylist(req.origin, req.pathname, req.ago, req.mode, now, segments);
  }

  /** `serveSegment`: the stored object under the path's key, 404 when there
      is none, 304 without a body when the client already holds its ETag. */
  function ServeSegment(req: Request, bucket: Bucket): (resp: Response)
    ensures var obj := bucket.get(SegmentKey(req.pathname));
            && (resp.status == 404 <==> obj.None?)
            && (resp.status == 304 <==> obj.Some? && req.ifNoneMatch == Some(obj.value.httpEtag))
            && (resp.status == 404 || resp.status == 304 || resp.status == 200)
            && (resp.status != 200 ==> resp.body == NoBody)
            && (resp.status == 200 ==> resp.body == Blob(obj.value.body))
            && (obj.Some? ==> resp.etag == Some(obj.value.httpEtag))
  {
    var key := SegmentKey(req.pathname);
    match bucket.get(key)
    case None => Response(404, NoBody, None)
    case Some(obj) =>
      if req.ifNoneMatch == Some(obj.httpEtag) then Response(304, NoBody, Some(obj.httpEtag))
      else Response(200, Blob(obj.body), Some(obj.httpEtag))
  }

  /** The worker's `fetch` entry point. */
  method Fetch(req: Request, now: int, bucket: Bucket) returns (resp: Response)
    ensures StartsWith(req.pathname, "/get/") ==> resp == ServeSegment(req, bucket)
    ensures RouteOf(req.pathname) == BannerRoute ==> resp == Response(200, Text(BannerText), None)
    ensures RouteOf(req.pathname) == PlaylistRoute && (req.ago.None? || req.ago == Some("")) ==>
              resp == Response(400, Text(MissingAgoText), None)
    ensures RouteOf(req.pathname) == PlaylistRoute && req.ago.Some? && req.ago.value != "" ==>
              var listed := bucket.list(PlaylistPrefix(req.pathname) + "/");
              resp == Response(200, Text(PlaylistText(req.origin, req.pathname, req.ago, req.mode,
                                                      now, SortByTime(listed))), None)
  {
    match RouteOf(req.pathname)
    case SegmentRoute => resp := ServeSegment(req, bucket);
    case PlaylistRoute => resp := HandlePlaylist(req, now, bucket);
    case BannerRoute => resp := Response(200, Text(BannerText), None);
  }
}

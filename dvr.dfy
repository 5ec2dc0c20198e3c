/** The segment collector (timeshift-dvr.js). One durable object per
    broadcast wakes up on an alarm, reads the broadcaster's HLS playlist,
    downloads the segments it has not seen yet into the object store, keeps
    a bounded window of the segment names it has seen, and sets its next
    alarm. A root worker creates and stops these objects.

    The network, the object store, JSON parsing, URL resolution, number
    conversion and the clock are parameters. The object's durable storage
    is the value `storage`; the in-memory `Set` of seen names is `seen`, a
    sequence in insertion order. */
module Dvr {
  import opened Wrappers
  import opened Strings

  const WindowSize: nat := 500
  const MaxRetry: nat := 3
  const SaveInterval: int := 600000
  const MinBurstGap: real := 200.0
  const DefaultDelay: real := 5000.0
  const DefaultInterval: real := 5000.0
  const SetupDelay: int := 1000

  // ---------------------------------------------------------------------
  // segment lines

  /** `c` is the ASCII letter `lower` in either case (the `i` flag of the
      regular expression). */
  predicate IsLetter(c: char, lower: char) {
    LowerAscii(c) == lower
  }

  /** At `i`, `l` has `.aac` or `.ts`, in any case, followed by `?` or by
      the end of `l`. */
  predicate ExtensionAt(l: string, i: nat) {
    i < |l| && l[i] == '.' &&
    (|| (i + 4 <= |l| && IsLetter(l[i + 1], 'a') && IsLetter(l[i + 2], 'a') && IsLetter(l[i + 3], 'c')
         && (i + 4 == |l| || l[i + 4] == '?'))
     || (i + 3 <= |l| && IsLetter(l[i + 1], 't') && IsLetter(l[i + 2], 's')
         && (i + 3 == |l| || l[i + 3] == '?')))
  }

  /** The test `/\.(aac|ts)(\?|$)/i` of a line. */
  predicate HasMediaExtension(l: string) {
    exists i :: 0 <= i < |l| && ExtensionAt(l, i)
  }

  /** A line that names a media segment. */
  predicate IsSegmentLine(l: string) {
    l != "" && l[0] != '#' && HasMediaExtension(l)
  }

  /** The segment lines among `lines`, in their order. */
  function SegmentLines(lines: seq<string>): (r: seq<string>)
    ensures forall l :: l in r <==> l in lines && IsSegmentLine(l)
    ensures |r| <= |lines|
  {
    if lines == [] then []
    else
      assert lines == [lines[0]] + lines[1..];
      (if IsSegmentLine(lines[0]) then [lines[0]] else []) + SegmentLines(lines[1..])
  }

  /** Filtering keeps the order of the lines: the segment lines of a
      concatenation are those of each part, one after the other. */
  lemma {:induction false} SegmentLinesAppend(a: seq<string>, b: seq<string>)
    ensures SegmentLines(a + b) == SegmentLines(a) + SegmentLines(b)
    decreases |a|
  {
    if a == [] {
      assert a + b == b;
    } else {
      assert (a + b)[0] == a[0];
      assert (a + b)[1..] == a[1..] + b;
      SegmentLinesAppend(a[1..], b);
    }
  }

  /** `m3u8.split("\n").filter(...)`: the segment list of a media playlist. */
  function SegmentList(body: string): (r: seq<string>)
    ensures forall l :: l in r <==> l in Lines(body) && IsSegmentLine(l)
  {
    SegmentLines(Lines(body))
  }

  /** A name followed by `.ts` and, optionally, a query is a segment line. */
  lemma TsLineIsSegment(name: string, query: string)
    requires name != "" && name[0] != '#'
    requires query == "" || query[0] == '?'
    ensures IsSegmentLine(name + ".ts" + query)
  {
    var l := name + ".ts" + query;
    assert l[|name|] == '.' && l[|name| + 1] == 't' && l[|name| + 2] == 's';
    assert |name| + 3 == |l| || l[|name| + 3] == '?';
    assert ExtensionAt(l, |name|);
  }

  /** A name followed by `.aac` and, optionally, a query is a segment line. */
  lemma AacLineIsSegment(name: string, query: string)
    requires name != "" && name[0] != '#'
    requires query == "" || query[0] == '?'
    ensures IsSegmentLine(name + ".aac" + query)
  {
    var l := name + ".aac" + query;
    assert l[|name|] == '.' && l[|name| + 1] == 'a' && l[|name| + 2] == 'a' && l[|name| + 3] == 'c';
    assert |name| + 4 == |l| || l[|name| + 4] == '?';
    assert ExtensionAt(l, |name|);
  }

  // ---------------------------------------------------------------------
  // master playlists

  /** A body that lists variant streams and no media segment. */
  predicate IsMasterPlaylist(body: string) {
    Contains(body, "#EXT-X-STREAM-INF") && !Contains(body, "#EXTINF")
  }

  /** The `find` test: a non-empty line that is not a tag. */
  predicate IsUriLine(l: string) {
    l != "" && l[0] != '#'
  }

  /** The index of the first URI line. */
  function FirstUriLine(lines: seq<string>): (r: Option<nat>)
    ensures r.Some? ==> r.value < |lines| && IsUriLine(lines[r.value])
    ensures r.Some? ==> forall j :: 0 <= j < r.value ==> !IsUriLine(lines[j])
    ensures r.None? <==> forall j :: 0 <= j < |lines| ==> !IsUriLine(lines[j])
  {
    if lines == [] then None
    else if IsUriLine(lines[0]) then Some(0)
    else
      match FirstUriLine(lines[1..])
      case None => None
      case Some(k) => Some(k + 1)
  }

  /** The trimmed first URI line of a master playlist, if it has one. */
  function VariantUri(body: string): (r: Option<string>)
    ensures r.None? <==> forall l :: l in Lines(body) ==> !IsUriLine(l)
    ensures r.Some? ==>
              && FirstUriLine(Lines(body)).Some?
              && r.value == Trim(Lines(body)[FirstUriLine(Lines(body)).value])
  {
    var lines := Lines(body);
    match FirstUriLine(lines)
    case None => None
    case Some(i) => Some(Trim(lines[i]))
  }

  /** `raw` as is when it starts with `http`, otherwise resolved against
      `base`; `None` when the resolution throws. */
  function Absolute(raw: string, base: string, resolve: (string, string) -> Option<string>): (r: Option<string>)
    ensures StartsWith(raw, "http") ==> r == Some(raw)
    ensures !StartsWith(raw, "http") ==> r == resolve(raw, base)
  {
    if StartsWith(raw, "http") then Some(raw) else resolve(raw, base)
  }

  // ---------------------------------------------------------------------
  // keys

  /** `raw.split("?")[0]`: the segment's name in the seen window. */
  function DedupKey(raw: string): (k: string)
    ensures StartsWith(raw, k) && '?' !in k
  {
    BeforeFirst(raw, '?')
  }

  /** Two lines for the same file that differ only in their query share a
      dedup key: the key is the text before the query. */
  lemma DedupKeyOfQuery(name: string, query: string)
    requires '?' !in name
    requires query == "" || query[0] == '?'
    ensures DedupKey(name + query) == name
  {
    BeforeFirstOf(name, query, '?');
  }

  /** `abs.split("/").pop().split("?")[0]`: the file name of a URL. */
  function FileName(abs: string): (f: string)
    ensures '/' !in f && '?' !in f
  {
    var last := AfterLast(abs, '/');
    var f := BeforeFirst(last, '?');
    assert forall k :: 0 <= k < |f| ==> f[k] == last[k];
    f
  }

  /** The file name of `dir/name?query` is `name`, when the query holds no
      `/`. */
  lemma FileNameOf(dir: string, name: string, query: string)
    requires '/' !in name && '?' !in name && '/' !in query
    requires query == "" || query[0] == '?'
    ensures FileName(dir + "/" + name + query) == name
  {
    assert dir + "/" + name + query == dir + ['/'] + (name + query);
    assert '/' !in name + query;
    AfterLastOf(dir, name + query, '/');
    BeforeFirstOf(name, query, '?');
  }

  /** `${PREFIX}/${file}`: where the segment is stored. */
  function StorageKey(prefix: string, abs: string): (k: string)
    ensures StartsWith(k, prefix + "/")
    ensures k == prefix + "/" + FileName(abs)
  {
    prefix + "/" + FileName(abs)
  }

  /** The content type a segment is stored with. */
  function ContentType(key: string): (t: string)
    ensures EndsWith(key, ".ts") <==> t == "video/mp2t"
    ensures t == "video/mp2t" || t == "audio/aac"
  {
    if EndsWith(key, ".ts") then "video/mp2t" else "audio/aac"
  }

  // ---------------------------------------------------------------------
  // downloads

  /** An object written to the store. */
  datatype Put = Put(key: string, body: seq<byte>, contentType: string)

  /** How a download ended: the number of attempts made and what was
      stored, if anything. */
  datatype Download = Download(attempts: nat, stored: Option<Put>)

  /** `downloadAndPut(url, key, n)`. `attempt(url, key, k)` is the body
      stored by attempt `k`, or `None` when that attempt threw (a network
      error, a status that is not ok, a failed write). The function never
      fails: after the last attempt it gives up. */
  function DownloadAndPut(attempt: (string, string, nat) -> Option<seq<byte>>, url: string, key: string,
                          n: nat): (d: Download)
    requires 1 <= n <= MaxRetry
    ensures n <= d.attempts <= MaxRetry
    ensures forall k :: n <= k < d.attempts ==> attempt(url, key, k).None?
    ensures d.stored.Some? ==>
              attempt(url, key, d.attempts).Some? &&
              d.stored.value == Put(key, attempt(url, key, d.attempts).value, ContentType(key))
    ensures d.stored.None? <==> forall k :: n <= k <= MaxRetry ==> attempt(url, key, k).None?
    decreases MaxRetry - n
  {
    match attempt(url, key, n)
    case Some(body) => Download(n, Some(Put(key, body, ContentType(key))))
    case None =>
      if n < MaxRetry then DownloadAndPut(attempt, url, key, n + 1)
      else Download(n, None)
  }

  // ---------------------------------------------------------------------
  // the seen window

  predicate NoDuplicates(s: seq<string>) {
    forall i, j :: 0 <= i < j < |s| ==> s[i] != s[j]
  }

  /** `seen.add(key)`, then, when the set holds more than `WindowSize`
      names, `seen.delete` of the oldest one. */
  function Remember(seen: seq<string>, key: string): (r: seq<string>)
    ensures |seen| <= WindowSize ==> |r| <= WindowSize && key in r
    ensures NoDuplicates(seen) ==> NoDuplicates(r)
    ensures key in seen && |seen| <= WindowSize ==> r == seen
    ensures key !in seen && |seen| < WindowSize ==> r == seen + [key]
    ensures key !in seen && |seen| == WindowSize ==> r == seen[1..] + [key]
  {
    var added := if key in seen then seen else seen + [key];
    assert NoDuplicates(seen) ==> NoDuplicates(added) by {
      if NoDuplicates(seen) && key !in seen {
        forall i, j | 0 <= i < j < |added| ensures added[i] != added[j] {
          if j == |seen| {
            assert added[i] == seen[i];
          }
        }
      }
    }
    if |added| > WindowSize then
      assert forall i :: 0 <= i < |added| - 1 ==> added[1..][i] == added[i + 1];
      assert |seen| <= WindowSize ==> key == added[|added| - 1];
      added[1..]
    else added
  }

  /** The names of `keys` remembered one after the other. */
  function RememberAll(seen: seq<string>, keys: seq<string>): (r: seq<string>)
    ensures |seen| <= WindowSize ==> |r| <= WindowSize
    ensures |seen| <= WindowSize && NoDuplicates(seen) ==> NoDuplicates(r)
    decreases |keys|
  {
    if keys == [] then seen
    else Remember(RememberAll(seen, keys[..|keys| - 1]), keys[|keys| - 1])
  }

  /** At most the `n` last elements of `s`. */
  function Newest(s: seq<string>, n: nat): (r: seq<string>)
    ensures |r| == if |s| < n then |s| else n
  {
    if |s| <= n then s else s[|s| - n..]
  }

  lemma NoDuplicatesPrefix(s: seq<string>, n: nat)
    requires NoDuplicates(s) && n <= |s|
    ensures NoDuplicates(s[..n])
  {
    forall i, j | 0 <= i < j < n ensures s[..n][i] != s[..n][j] {
      assert s[..n][i] == s[i] && s[..n][j] == s[j];
    }
  }

  lemma LastNotInNewest(all: seq<string>, k: string, n: nat)
    requires NoDuplicates(all + [k])
    ensures k !in Newest(all, n)
  {
    var before := Newest(all, n);
    var s := all + [k];
    forall i | 0 <= i < |before| ensures before[i] != k {
      var m := if |all| <= n then i else |all| - n + i;
      assert before[i] == all[m] == s[m];
      assert k == s[|all|];
    }
  }

  lemma NewestSnoc(all: seq<string>, k: string, n: nat)
    requires n > 0
    ensures |all| < n ==> Newest(all + [k], n) == Newest(all, n) + [k]
    ensures |all| >= n ==> Newest(all + [k], n) == Newest(all, n)[1..] + [k]
  {
    if |all| >= n {
      assert Newest(all, n) == all[|all| - n..];
      assert Newest(all, n)[1..] + [k] == (all + [k])[|all| + 1 - n..];
    }
  }

  /** With names that are all new, the window after a poll is exactly the
      `WindowSize` most recently inserted names: evictions are oldest
      first and nothing else is dropped. */
  lemma {:induction false} RememberAllIsNewest(seen: seq<string>, keys: seq<string>)
    requires |seen| <= WindowSize
    requires NoDuplicates(seen + keys)
    ensures RememberAll(seen, keys) == Newest(seen + keys, WindowSize)
    decreases |keys|
  {
    if keys == [] {
      assert seen + keys == seen;
    } else {
      var init, k := keys[..|keys| - 1], keys[|keys| - 1];
      var all := seen + init;
      assert seen + keys == all + [k];
      NoDuplicatesPrefix(seen + keys, |all|);
      assert (seen + keys)[..|all|] == all;
      RememberAllIsNewest(seen, init);
      LastNotInNewest(all, k, WindowSize);
      NewestSnoc(all, k, WindowSize);
    }
  }

  // ---------------------------------------------------------------------
  // collecting the new segments

  /** One queued download: the segment's dedup key, its absolute URL and
      its storage key. */
  datatype Job = Job(dedupKey: string, url: string, storageKey: string)

  function KeysOf(jobs: seq<Job>): (keys: seq<string>)
    ensures |keys| == |jobs|
    ensures forall i :: 0 <= i < |jobs| ==> keys[i] == jobs[i].dedupKey
  {
    if jobs == [] then [] else KeysOf(jobs[..|jobs| - 1]) + [jobs[|jobs| - 1].dedupKey]
  }

  /** The lines whose dedup key was not in `seen` when the poll started,
      in segment-list order. */
  function FreshLines(segList: seq<string>, seen: seq<string>): (r: seq<string>)
    ensures |r| <= |segList|
    ensures forall l :: l in r ==> l in segList && DedupKey(l) !in seen
  {
    if segList == [] then []
    else
      var raw := segList[|segList| - 1];
      FreshLines(segList[..|segList| - 1], seen) + (if DedupKey(raw) in seen then [] else [raw])
  }

  /** No unseen line is left out. */
  lemma {:induction false} FreshLinesComplete(segList: seq<string>, seen: seq<string>)
    ensures forall l :: l in segList && DedupKey(l) !in seen ==> l in FreshLines(segList, seen)
    decreases |segList|
  {
    if segList != [] {
      var init, raw := segList[..|segList| - 1], segList[|segList| - 1];
      FreshLinesComplete(init, seen);
      assert segList == init + [raw];
      forall l | l in segList && DedupKey(l) !in seen ensures l in FreshLines(segList, seen) {
        if l != raw {
          assert l in init;
        }
      }
    }
  }

  /** The selection keeps order: the fresh lines of two runs of lines are
      those of the first run followed by those of the second. */
  lemma {:induction false} FreshLinesAppend(a: seq<string>, b: seq<string>, seen: seq<string>)
    ensures FreshLines(a + b, seen) == FreshLines(a, seen) + FreshLines(b, seen)
    decreases |b|
  {
    if b == [] {
      assert a + b == a;
    } else {
      var init, raw := b[..|b| - 1], b[|b| - 1];
      assert (a + b)[..|a + b| - 1] == a + init;
      assert (a + b)[|a + b| - 1] == raw;
      FreshLinesAppend(a, init, seen);
    }
  }

  /** The download a fresh line queues: its dedup key, its absolute URL and
      the storage key derived from that URL. */
  predicate QueuedFor(j: Job, raw: string, playlist: string, prefix: string,
                      resolve: (string, string) -> Option<string>) {
    var abs := Absolute(raw, playlist, resolve);
    abs.Some? && j == Job(DedupKey(raw), abs.value, StorageKey(prefix, abs.value))
  }

  /** A fresh line whose URL cannot be resolved. */
  predicate Unresolvable(raw: string, seen: seq<string>, playlist: string,
                         resolve: (string, string) -> Option<string>) {
    DedupKey(raw) !in seen && Absolute(raw, playlist, resolve).None?
  }

  /** The downloads a poll queues, in segment-list order: one per line whose
      dedup key was not in `seen` when the poll started; `None` when
      resolving one of their URLs throws. */
  function Jobs(segList: seq<string>, seen: seq<string>, playlist: string, prefix: string,
                resolve: (string, string) -> Option<string>): (r: Option<seq<Job>>)
    ensures r.Some? ==> forall j :: j in r.value ==>
              j.dedupKey !in seen && j.storageKey == StorageKey(prefix, j.url)
    decreases |segList|
  {
    if segList == [] then Some([])
    else
      var init, raw := segList[..|segList| - 1], segList[|segList| - 1];
      assert forall i :: 0 <= i < |init| ==> init[i] == segList[i];
      match Jobs(init, seen, playlist, prefix, resolve)
      case None => None
      case Some(js) =>
        var dedupKey := DedupKey(raw);
        if dedupKey in seen then Some(js)
        else
          match Absolute(raw, playlist, resolve)
          case None => None
          case Some(abs) =>
            var job := Job(dedupKey, abs, StorageKey(prefix, abs));
            assert (js + [job])[..|js|] == js;
            Some(js + [job])
  }

  /** What the download of one job stores, if anything. */
  function Stored(attempt: (string, string, nat) -> Option<seq<byte>>, j: Job): Option<Put> {
    DownloadAndPut(attempt, j.url, j.storageKey, 1).stored
  }

  /** The objects a sequence of downloads writes, in order. */
  function PutsOf(jobs: seq<Job>, attempt: (string, string, nat) -> Option<seq<byte>>): (puts: seq<Put>)
    ensures |puts| <= |jobs|
    ensures forall p :: p in puts ==> exists j :: j in jobs && p.key == j.storageKey
  {
    if jobs == [] then []
    else
      var j := jobs[|jobs| - 1];
      var earlier := PutsOf(jobs[..|jobs| - 1], attempt);
      var d := DownloadAndPut(attempt, j.url, j.storageKey, 1);
      assert forall p :: p in earlier ==> exists i :: i in jobs && p.key == i.storageKey by {
        forall p | p in earlier ensures exists i :: i in jobs && p.key == i.storageKey {
          var i :| i in jobs[..|jobs| - 1] && p.key == i.storageKey;
          assert i in jobs;
        }
      }
      earlier + (if d.stored.Some? then [d.stored.value] else [])
  }

  /** Every download that stores something is written, and nothing else is. */
  lemma {:induction false} PutsOfStored(jobs: seq<Job>, attempt: (string, string, nat) -> Option<seq<byte>>)
    ensures forall j :: j in jobs && Stored(attempt, j).Some? ==> Stored(attempt, j).value in PutsOf(jobs, attempt)
    ensures forall p :: p in PutsOf(jobs, attempt) ==> exists j :: j in jobs && Stored(attempt, j) == Some(p)
    decreases |jobs|
  {
    if jobs != [] {
      var j := jobs[|jobs| - 1];
      var init := jobs[..|jobs| - 1];
      PutsOfStored(init, attempt);
      assert jobs == init + [j];
      var earlier := PutsOf(init, attempt);
      assert PutsOf(jobs, attempt) == earlier + (if Stored(attempt, j).Some? then [Stored(attempt, j).value] else []);
      forall p | p in earlier ensures exists i :: i in jobs && Stored(attempt, i) == Some(p) {
        var i :| i in init && Stored(attempt, i) == Some(p);
        assert i in jobs;
      }
      forall i | i in jobs ensures i in init || i == j {
      }
    }
  }

  // ---------------------------------------------------------------------
  // finding the media playlist

  /** What the object reaches for. `fetchText(url)` is the body, or `None`
      when the request throws; `lookup(body, sbs)` is the playlist URL of
      a JSON answer (`stream[0].source` for SBS, `channel_item[0].service_url`
      otherwise), or `None` when the parse throws or the field is missing;
      `resolve(rel, base)` is `new URL(rel, base).href`, or `None` when it
      throws; `attempt` is one try of a segment download. */
  datatype Network = Network(
    fetchText: string -> Option<string>,
    lookup: (string, bool) -> Option<string>,
    resolve: (string, string) -> Option<string>,
    attempt: (string, string, nat) -> Option<seq<byte>>)

  /** The playlist URL the API answers with: `None` when the API cannot be
      fetched, the looked-up JSON field when the trimmed answer is an
      object, otherwise the trimmed answer itself. */
  function PlaylistUrl(api: string, net: Network): (r: Option<string>)
    ensures net.fetchText(api).None? ==> r.None?
    ensures net.fetchText(api).Some? ==>
              var answer := Trim(net.fetchText(api).value);
              && (!StartsWith(answer, "{") ==> r == Some(answer))
              && (StartsWith(answer, "{") ==> r == net.lookup(net.fetchText(api).value, Contains(api, "sbs")))
  {
    match net.fetchText(api)
    case None => None
    case Some(apiBody) =>
      if StartsWith(Trim(apiBody), "{") then net.lookup(apiBody, Contains(api, "sbs"))
      else Some(Trim(apiBody))
  }

  /** Where a poll's segment list comes from. `Unavailable`: a request in a
      `try` failed. `Broken`: a master playlist without a URI line, or a
      URL that cannot be resolved outside any `try`. */
  datatype Source = Unavailable | Broken | Media(playlist: string, body: string)

  /** Steps 2 and 3 of `alarm`: the API, the playlist, and through a master
      playlist its first variant. The playlist URL is kept: segment URIs
      are later resolved against it, not against the variant. Without an
      answer from the API or the playlist the poll is only rescheduled. */
  function FetchMedia(api: string, net: Network): (src: Source)
    ensures PlaylistUrl(api, net).None? ==> src == Unavailable
    ensures PlaylistUrl(api, net).Some? && net.fetchText(PlaylistUrl(api, net).value).None? ==> src == Unavailable
    ensures PlaylistUrl(api, net).Some? && net.fetchText(PlaylistUrl(api, net).value).Some? ==>
              var playlist := PlaylistUrl(api, net).value;
              var m3u8 := net.fetchText(playlist).value;
              && (!IsMasterPlaylist(m3u8) ==> src == Media(playlist, m3u8))
              && (IsMasterPlaylist(m3u8) && VariantUri(m3u8).None? ==> src == Broken)
              && (IsMasterPlaylist(m3u8) && VariantUri(m3u8).Some? ==>
                    match Absolute(VariantUri(m3u8).value, playlist, net.resolve)
                    case None => src == Broken
                    case Some(variant) =>
                      src == (if net.fetchText(variant).Some? then Media(playlist, net.fetchText(variant).value)
                              else Unavailable))
  {
    match PlaylistUrl(api, net)
    case None => Unavailable
    case Some(playlist) =>
      match net.fetchText(playlist)
      case None => Unavailable
      case Some(m3u8) =>
        if IsMasterPlaylist(m3u8) then
          match VariantUri(m3u8)
          case None => Broken
          case Some(rel) =>
            match Absolute(rel, playlist, net.resolve)
            case None => Broken
            case Some(variant) =>
              match net.fetchText(variant)
              case None => Unavailable
              case Some(body) => Media(playlist, body)
        else Media(playlist, m3u8)
  }

  // ---------------------------------------------------------------------
  // scheduling

  /** `INTERVAL * fastFactor`, the burst gap, with `fastFactor` 0.25. */
  function Burst(interval: real): real {
    interval * 0.25
  }

  /** `Math.max(a, b)` on numbers that are not NaN. */
  function MaxReal(a: real, b: real): (m: real)
    ensures m >= a && m >= b && (m == a || m == b)
  {
    if a >= b then a else b
  }

  /** `Math.max(200, INTERVAL * 0.25)` after queueing downloads, otherwise
      `Math.max(0, INTERVAL - spent)`; `None` stands for `NaN`, the result
      when no INTERVAL is stored. */
  function NextGap(queued: bool, interval: Option<real>, spent: int): (gap: Option<real>)
    ensures interval.None? <==> gap.None?
    ensures interval.Some? && queued ==> gap == Some(MaxReal(MinBurstGap, Burst(interval.value)))
    ensures interval.Some? && !queued ==> gap == Some(MaxReal(0.0, interval.value - spent as real))
  {
    match interval
    case None => None
    case Some(i) =>
      if queued then Some(if Burst(i) > MinBurstGap then Burst(i) else MinBurstGap)
      else Some(if i - spent as real > 0.0 then i - spent as real else 0.0)
  }

  /** `next(ms)`: a delay of `0` or `undefined`/`NaN` becomes 5000 ms. */
  function AlarmDelay(ms: Option<real>): (d: real)
    ensures ms.None? || ms == Some(0.0) ==> d == DefaultDelay
    ensures ms.Some? && ms.value != 0.0 ==> d == ms.value
  {
    if ms.None? || ms.value == 0.0 then DefaultDelay else ms.value
  }

  /** After a poll the next alarm is always in the future, at least 200 ms
      away when downloads were queued. */
  lemma PollDelayIsPositive(queued: bool, interval: Option<real>, spent: int)
    ensures AlarmDelay(NextGap(queued, interval, spent)) > 0.0
    ensures queued ==> AlarmDelay(NextGap(queued, interval, spent)) >= MinBurstGap
  {
  }

  /** A poll with nothing new that took the whole interval or longer does
      not poll again at once: its gap of 0 becomes the 5000 ms default. */
  lemma LatePollWaitsDefault(interval: real, spent: int)
    requires spent as real >= interval
    ensures NextGap(false, Some(interval), spent) == Some(0.0)
    ensures AlarmDelay(NextGap(false, Some(interval), spent)) == DefaultDelay
  {
  }

  /** A poll with nothing new that finished early waits out the rest of the
      interval. */
  lemma EarlyPollWaitsRest(interval: real, spent: int)
    requires spent as real < interval
    ensures AlarmDelay(NextGap(false, Some(interval), spent)) == interval - spent as real
  {
  }

  // ---------------------------------------------------------------------
  // storage, setup and the root worker

  /** The object's durable storage: API, PREFIX, INTERVAL, SHUTDOWN,
      `_lastSave`, SEEN, and the alarm time last set (in milliseconds;
      deleted by `deleteAlarm`, kept when an alarm fires). */
  datatype Storage = Storage(
    api: Option<string>,
    prefix: Option<string>,
    interval: Option<real>,
    shutdown: bool,
    lastSave: Option<int>,
    savedSeen: Option<seq<string>>,
    alarm: Option<real>)

  /** The clock readings of one alarm: `t0`, the two reads of the backup
      step, the read for `spent`, and the read inside `next`. */
  datatype Clock = Clock(start: int, saveCheck: int, saveStamp: int, end: int, reschedule: int)

  /** `Number(interval) || 5000` for the `interval` of a `/setup` body;
      `None` is a missing field. */
  function SetupInterval(interval: Option<real>): (r: real)
    ensures r != 0.0
    ensures interval.None? || interval == Some(0.0) ==> r == DefaultInterval
    ensures interval.Some? && interval.value != 0.0 ==> r == interval.value
  {
    if interval.None? || interval.value == 0.0 then DefaultInterval else interval.value
  }

  /** The backup step: when more than ten minutes passed since the last
      backup (`_lastSave || 0`), store the window and the time. */
  function Saved(st: Storage, seen: seq<string>, clock: Clock): (r: Storage)
    ensures clock.saveCheck - st.lastSave.GetOr(0) > SaveInterval ==>
              r == st.(savedSeen := Some(seen), lastSave := Some(clock.saveStamp))
    ensures clock.saveCheck - st.lastSave.GetOr(0) <= SaveInterval ==> r == st
  {
    if clock.saveCheck - st.lastSave.GetOr(0) > SaveInterval then
      st.(savedSeen := Some(seen), lastSave := Some(clock.saveStamp))
    else st
  }

  /** The storage after a poll that reached step 7: backed up when due,
      with the next alarm set from the interval and the time the poll took. */
  function AfterPoll(st: Storage, seen: seq<string>, clock: Clock, queued: bool): Storage {
    var gap := NextGap(queued, st.interval, clock.end - clock.start);
    Saved(st, seen, clock).(alarm := Some(clock.reschedule as real + AlarmDelay(gap)))
  }

  predicate Truthy(s: Option<string>) {
    s.Some? && s.value != ""
  }

  /** Why a poll ended without downloading. */
  datatype IdleReason = NotConfigured | NoPlaylist | NoSegments

  /** How `alarm` ended: stopped by SHUTDOWN, rescheduled without a
      download, ended by an exception (no new alarm is set), or done with
      the given downloads queued. */
  datatype AlarmEnd = Stopped | Idle(reason: IdleReason) | Crashed | Polled(jobs: seq<Job>)

  /** The decision `alarm` takes from the storage, the window at the start
      of the poll and the network. It stops exactly when SHUTDOWN is set,
      idles when the instance is not configured, and downloads only from a
      media playlist, never a segment already in the window. */
  function Outcome(st: Storage, seen: seq<string>, net: Network): (e: AlarmEnd)
    ensures e == Stopped <==> st.shutdown
    ensures !st.shutdown && (!Truthy(st.api) || !Truthy(st.prefix)) ==> e == Idle(NotConfigured)
    ensures e.Polled? ==> Truthy(st.api) && Truthy(st.prefix) && FetchMedia(st.api.value, net).Media?
    ensures e.Polled? ==> forall j :: j in e.jobs ==>
              j.dedupKey !in seen && j.storageKey == StorageKey(st.prefix.value, j.url)
  {
    if st.shutdown then Stopped
    else if !Truthy(st.api) || !Truthy(st.prefix) then Idle(NotConfigured)
    else PollOutcome(FetchMedia(st.api.value, net), seen, st.prefix.value, net.resolve)
  }

  /** The part of the decision taken once the media playlist was looked for. */
  function PollOutcome(source: Source, seen: seq<string>, prefix: string,
                       resolve: (string, string) -> Option<string>): (e: AlarmEnd)
    ensures e.Polled? ==> source.Media? && SegmentList(source.body) != []
    ensures e.Polled? ==> forall j :: j in e.jobs ==>
              j.dedupKey !in seen && j.storageKey == StorageKey(prefix, j.url)
    ensures !e.Stopped? && e != Idle(NotConfigured)
    ensures source == Unavailable ==> e == Idle(NoPlaylist)
    ensures source == Broken ==> e == Crashed
    ensures source.Media? && SegmentList(source.body) == [] ==> e == Idle(NoSegments)
  {
    match source
    case Unavailable => Idle(NoPlaylist)
    case Broken => Crashed
    case Media(playlist, body) =>
      var segList := SegmentList(body);
      if segList == [] then Idle(NoSegments)
      else
        match Jobs(segList, seen, playlist, prefix, resolve)
        case None => Crashed
        case Some(jobs) => Polled(jobs)
  }

  /** A configured alarm that reads a media playlist with segment lines
      queues, one for one and in order, a download for each unseen line,
      unless one of those lines cannot be resolved, in which case it
      crashes. */
  lemma AlarmPollsFresh(st: Storage, seen: seq<string>, net: Network)
    requires !st.shutdown && Truthy(st.api) && Truthy(st.prefix)
    requires FetchMedia(st.api.value, net).Media?
    requires SegmentList(FetchMedia(st.api.value, net).body) != []
    ensures var src := FetchMedia(st.api.value, net);
            var segList := SegmentList(src.body);
            && (Outcome(st, seen, net).Polled? <==>
                  forall i :: 0 <= i < |segList| ==> !Unresolvable(segList[i], seen, src.playlist, net.resolve))
            && (!Outcome(st, seen, net).Polled? ==> Outcome(st, seen, net) == Crashed)
    ensures var src := FetchMedia(st.api.value, net);
            var lines := FreshLines(SegmentList(src.body), seen);
            Outcome(st, seen, net).Polled? ==>
              var jobs := Outcome(st, seen, net).jobs;
              |jobs| == |lines| &&
              forall i :: 0 <= i < |lines| ==> QueuedFor(jobs[i], lines[i], src.playlist, st.prefix.value, net.resolve)
  {
    var src := FetchMedia(st.api.value, net);
    var segList := SegmentList(src.body);
    JobsFailure(segList, seen, src.playlist, st.prefix.value, net.resolve);
    if Jobs(segList, seen, src.playlist, st.prefix.value, net.resolve).Some? {
      JobsAreFresh(segList, seen, src.playlist, st.prefix.value, net.resolve);
    }
  }

  /** The JSON body of a `/setup` call; a missing `interval` is `None`. */
  datatype SetupBody = SetupBody(url: string, prefix: string, interval: Option<real>)

  class MyDurableObject {
    var seen: seq<string>
    var storage: Storage

    ghost predicate Valid()
      reads this
    {
      |seen| <= WindowSize && NoDuplicates(seen)
    }

    /** A new instance over its durable storage, with an empty window. */
    constructor (stored: Storage)
      ensures seen == [] && storage == stored
      ensures Valid()
    {
      seen := [];
      storage := stored;
    }

    /** `next(ms)`: the alarm is set `ms || 5000` milliseconds after `now`. */
    method Next(now: int, ms: Option<real>)
      modifies this
      ensures storage == old(storage).(alarm := Some(now as real + AlarmDelay(ms)))
      ensures seen == old(seen)
    {
      var delay := if ms.None? || ms.value == 0.0 then DefaultDelay else ms.value;
      storage := storage.(alarm := Some(now as real + delay));
    }

    /** The loop of step 5 that queues the downloads. The dedup test reads
        the window as it was when the poll started, since no download has
        completed yet. */
    method CollectJobs(segList: seq<string>, playlist: string, prefix: string,
                       resolve: (string, string) -> Option<string>) returns (jobs: Option<seq<Job>>)
      ensures jobs == Jobs(segList, seen, playlist, prefix, resolve)
    {
      var queued: seq<Job> := [];
      for i := 0 to |segList|
        invariant Jobs(segList[..i], seen, playlist, prefix, resolve) == Some(queued)
      {
        var raw := segList[i];
        assert segList[..i + 1][..i] == segList[..i];
        assert segList[..i + 1][i] == raw;
        var dedupKey := DedupKey(raw);
        if dedupKey in seen {
          continue;
        }
        var abs := Absolute(raw, playlist, resolve);
        if abs.None? {
          JobsFailureIsFinal(segList, i + 1, seen, playlist, prefix, resolve);
          return None;
        }
        var file := FileName(abs.value);
        var r2Key := prefix + "/" + file;
        queued := queued + [Job(dedupKey, abs.value, r2Key)];
      }
      assert segList[..|segList|] == segList;
      return Some(queued);
    }

    /** The completions of the queued downloads, taken in queue order: each
        download runs to its end and then remembers its dedup key, whether
        or not anything was stored. */
    method StoreAll(jobs: seq<Job>, attempt: (string, string, nat) -> Option<seq<byte>>)
      returns (puts: seq<Put>)
      requires Valid()
      modifies this
      ensures Valid()
      ensures seen == RememberAll(old(seen), KeysOf(jobs))
      ensures puts == PutsOf(jobs, attempt)
      ensures storage == old(storage)
    {
      puts := [];
      for i := 0 to |jobs|
        invariant seen == RememberAll(old(seen), KeysOf(jobs[..i]))
        invariant puts == PutsOf(jobs[..i], attempt)
        invariant storage == old(storage)
        invariant Valid()
      {
        var job := jobs[i];
        StoreStep(old(seen), jobs, i, attempt);
        var d := DownloadAndPut(attempt, job.url, job.storageKey, 1);
        if d.stored.Some? {
          puts := puts + [d.stored.value];
        }
        seen := Remember(seen, job.dedupKey);
      }
      assert jobs[..|jobs|] == jobs;
    }

    /** `alarm()`: one poll. */
    method Alarm(clock: Clock, net: Network) returns (end: AlarmEnd, puts: seq<Put>)
      requires Valid()
      modifies this
      ensures Valid()
      ensures end == Outcome(old(storage), old(seen), net)
      ensures end.Stopped? || end.Crashed? ==> seen == old(seen) && storage == old(storage) && puts == []
      ensures end.Idle? ==> seen == old(seen) && puts == []
      ensures end.Idle? ==>
                storage == old(storage).(alarm := Some(clock.reschedule as real + AlarmDelay(old(storage.interval))))
      ensures end.Polled? ==> seen == RememberAll(old(seen), KeysOf(end.jobs))
      ensures end.Polled? ==> puts == PutsOf(end.jobs, net.attempt)
      ensures end.Polled? ==>
                storage == AfterPoll(old(storage), seen, clock, |end.jobs| > 0)
    {
      if storage.shutdown {
        return Stopped, [];
      }
      var api, prefix := storage.api, storage.prefix;
      if !Truthy(api) || !Truthy(prefix) {
        Next(clock.reschedule, storage.interval);
        return Idle(NotConfigured), [];
      }
      var source := FetchMedia(api.value, net);
      end, puts := Poll(source, prefix.value, clock, net.resolve, net.attempt);
    }

    /** Steps 4 to 7 of `alarm` once the media playlist was looked for:
        read its segments, queue the new ones and finish the poll. */
    method Poll(source: Source, prefix: string, clock: Clock,
                resolve: (string, string) -> Option<string>,
                attempt: (string, string, nat) -> Option<seq<byte>>) returns (end: AlarmEnd, puts: seq<Put>)
      requires Valid()
      modifies this
      ensures Valid()
      ensures end == PollOutcome(source, old(seen), prefix, resolve)
      ensures end.Crashed? ==> seen == old(seen) && storage == old(storage) && puts == []
      ensures end.Idle? ==> seen == old(seen) && puts == []
      ensures end.Idle? ==>
                storage == old(storage).(alarm := Some(clock.reschedule as real + AlarmDelay(old(storage.interval))))
      ensures end.Polled? ==> seen == RememberAll(old(seen), KeysOf(end.jobs))
      ensures end.Polled? ==> puts == PutsOf(end.jobs, attempt)
      ensures end.Polled? ==>
                storage == AfterPoll(old(storage), seen, clock, |end.jobs| > 0)
    {
      if source.Unavailable? {
        Next(clock.reschedule, storage.interval);
        return Idle(NoPlaylist), [];
      }
      if source.Broken? {
        return Crashed, [];
      }
      var segList := SegmentList(source.body);
      if |segList| == 0 {
        Next(clock.reschedule, storage.interval);
        return Idle(NoSegments), [];
      }
      var jobs := CollectJobs(segList, source.playlist, prefix, resolve);
      if jobs.None? {
        return Crashed, [];
      }
      puts := FinishPoll(jobs.value, clock, attempt);
      end := Polled(jobs.value);
    }

    /** Steps 5 to 7 of `alarm` once the downloads are queued: wait for
        them, back the window up when it is time, and set the next alarm. */
    method FinishPoll(jobs: seq<Job>, clock: Clock, attempt: (string, string, nat) -> Option<seq<byte>>)
      returns (puts: seq<Put>)
      requires Valid()
      modifies this
      ensures Valid()
      ensures seen == RememberAll(old(seen), KeysOf(jobs))
      ensures puts == PutsOf(jobs, attempt)
      ensures storage == AfterPoll(old(storage), seen, clock, |jobs| > 0)
    {
      puts := StoreAll(jobs, attempt);
      Reschedule(clock, |jobs| > 0);
    }

    /** Steps 6 and 7 of `alarm`: back the window up when it is time, then
        set the next alarm from the time the poll took. */
    method Reschedule(clock: Clock, queued: bool)
      modifies this
      ensures storage == AfterPoll(old(storage), seen, clock, queued)
      ensures seen == old(seen)
    {
      var interval := storage.interval;
      var lastSave := storage.lastSave.GetOr(0);
      if clock.saveCheck - lastSave > SaveInterval {
        storage := storage.(savedSeen := Some(seen));
        storage := storage.(lastSave := Some(clock.saveStamp));
      }
      var spent := clock.end - clock.start;
      var gap := NextGap(queued, interval, spent);
      Next(clock.reschedule, gap);
    }

    /** `/setup`: store the configuration, clear SHUTDOWN, stamp the backup
        time and set the first alarm one second later. */
    method Setup(body: SetupBody, stampNow: int, alarmNow: int)
      modifies this
      ensures storage == old(storage).(api := Some(body.url), prefix := Some(body.prefix),
                                       interval := Some(SetupInterval(body.interval)), shutdown := false,
                                       lastSave := Some(stampNow), alarm := Some((alarmNow + SetupDelay) as real))
      ensures seen == old(seen)
    {
      storage := storage.(api := Some(body.url));
      storage := storage.(prefix := Some(body.prefix));
      var interval := if body.interval.None? || body.interval.value == 0.0 then DefaultInterval
                      else body.interval.value;
      storage := storage.(interval := Some(interval));
      storage := storage.(shutdown := false);
      storage := storage.(lastSave := Some(stampNow));
      storage := storage.(alarm := Some((alarmNow + SetupDelay) as real));
    }

    /** `/shutdown`: set SHUTDOWN and delete the pending alarm. */
    method Shutdown()
      modifies this
      ensures storage == old(storage).(shutdown := true, alarm := None)
      ensures seen == old(seen)
    {
      storage := storage.(shutdown := true);
      storage := storage.(alarm := None);
    }

    /** The object's `fetch`: `/setup`, `/shutdown`, or a liveness answer. */
    method Rpc(pathname: string, body: SetupBody, stampNow: int, alarmNow: int) returns (text: string)
      modifies this
      ensures seen == old(seen)
      ensures pathname == "/setup" ==> text == "ok"
      ensures pathname == "/setup" ==>
                storage == old(storage).(api := Some(body.url), prefix := Some(body.prefix),
                                         interval := Some(SetupInterval(body.interval)), shutdown := false,
                                         lastSave := Some(stampNow), alarm := Some((alarmNow + SetupDelay) as real))
      ensures pathname == "/shutdown" ==> text == "stopped"
      ensures pathname == "/shutdown" ==>
                storage == old(storage).(shutdown := true, alarm := None)
      ensures pathname != "/setup" && pathname != "/shutdown" ==> text == "alive" && storage == old(storage)
    {
      if pathname == "/setup" {
        Setup(body, stampNow, alarmNow);
        return "ok";
      }
      if pathname == "/shutdown" {
        Shutdown();
        return "stopped";
      }
      return "alive";
    }
  }

  /** One more completed download: its key is remembered after the earlier
      ones and what it stores is written after theirs. */
  lemma StoreStep(seen: seq<string>, jobs: seq<Job>, i: nat, attempt: (string, string, nat) -> Option<seq<byte>>)
    requires i < |jobs|
    ensures RememberAll(seen, KeysOf(jobs[..i + 1])) == Remember(RememberAll(seen, KeysOf(jobs[..i])), jobs[i].dedupKey)
    ensures PutsOf(jobs[..i + 1], attempt) ==
            PutsOf(jobs[..i], attempt) + (if Stored(attempt, jobs[i]).Some? then [Stored(attempt, jobs[i]).value] else [])
  {
    assert jobs[..i + 1][..i] == jobs[..i];
    assert jobs[..i + 1][i] == jobs[i];
    assert KeysOf(jobs[..i + 1])[..i] == KeysOf(jobs[..i]);
  }

  /** The collection fails exactly when some fresh line's URL cannot be
      resolved. */
  lemma {:induction false} JobsFailure(segList: seq<string>, seen: seq<string>, playlist: string,
                                       prefix: string, resolve: (string, string) -> Option<string>)
    ensures Jobs(segList, seen, playlist, prefix, resolve).None? <==>
            exists i :: 0 <= i < |segList| && Unresolvable(segList[i], seen, playlist, resolve)
    decreases |segList|
  {
    if segList != [] {
      var init, raw := segList[..|segList| - 1], segList[|segList| - 1];
      JobsFailure(init, seen, playlist, prefix, resolve);
      UnresolvableSplit(segList, seen, playlist, resolve);
    }
  }

  lemma UnresolvableSplit(segList: seq<string>, seen: seq<string>, playlist: string,
                          resolve: (string, string) -> Option<string>)
    requires segList != []
    ensures var init, raw := segList[..|segList| - 1], segList[|segList| - 1];
            (exists i :: 0 <= i < |segList| && Unresolvable(segList[i], seen, playlist, resolve)) <==>
            (exists i :: 0 <= i < |init| && Unresolvable(init[i], seen, playlist, resolve))
            || Unresolvable(raw, seen, playlist, resolve)
  {
    var init, raw := segList[..|segList| - 1], segList[|segList| - 1];
    assert forall i :: 0 <= i < |init| ==> init[i] == segList[i];
    assert segList == init + [raw];
  }

  /** The queued downloads are the fresh lines, in segment-list order: the
      i-th job is the i-th fresh line's dedup key, its absolute URL and its
      storage key. */
  lemma {:induction false} JobsAreFresh(segList: seq<string>, seen: seq<string>, playlist: string,
                                        prefix: string, resolve: (string, string) -> Option<string>)
    requires Jobs(segList, seen, playlist, prefix, resolve).Some?
    ensures var jobs, lines := Jobs(segList, seen, playlist, prefix, resolve).value, FreshLines(segList, seen);
            |jobs| == |lines| &&
            forall i :: 0 <= i < |lines| ==> QueuedFor(jobs[i], lines[i], playlist, prefix, resolve)
    decreases |segList|
  {
    if segList != [] {
      var init, raw := segList[..|segList| - 1], segList[|segList| - 1];
      JobsAreFresh(init, seen, playlist, prefix, resolve);
      var js, fs := Jobs(init, seen, playlist, prefix, resolve).value, FreshLines(init, seen);
      if DedupKey(raw) !in seen {
        var abs := Absolute(raw, playlist, resolve).value;
        var job := Job(DedupKey(raw), abs, StorageKey(prefix, abs));
        assert Jobs(segList, seen, playlist, prefix, resolve).value == js + [job];
        assert FreshLines(segList, seen) == fs + [raw];
        assert QueuedFor(job, raw, playlist, prefix, resolve);
      }
    }
  }

  /** The keys a poll remembers are those of the fresh lines, in order. */
  lemma JobKeysAreFresh(segList: seq<string>, seen: seq<string>, playlist: string,
                        prefix: string, resolve: (string, string) -> Option<string>)
    requires Jobs(segList, seen, playlist, prefix, resolve).Some?
    ensures var keys, lines := KeysOf(Jobs(segList, seen, playlist, prefix, resolve).value), FreshLines(segList, seen);
            |keys| == |lines| && forall i :: 0 <= i < |lines| ==> keys[i] == DedupKey(lines[i])
  {
    JobsAreFresh(segList, seen, playlist, prefix, resolve);
  }

  /** Once a line's URL fails to resolve, the whole collection fails. */
  lemma {:induction false} JobsFailureIsFinal(segList: seq<string>, n: nat, seen: seq<string>, playlist: string,
                                              prefix: string, resolve: (string, string) -> Option<string>)
    requires n <= |segList|
    requires Jobs(segList[..n], seen, playlist, prefix, resolve).None?
    ensures Jobs(segList, seen, playlist, prefix, resolve).None?
  {
    JobsFailure(segList[..n], seen, playlist, prefix, resolve);
    var i :| 0 <= i < n && Unresolvable(segList[..n][i], seen, playlist, resolve);
    assert segList[..n][i] == segList[i];
    JobsFailure(segList, seen, playlist, prefix, resolve);
  }

  // ---------------------------------------------------------------------
  // the root worker

  /** The call the root worker makes on the named instance. */
  datatype Call = NoCall | SetupCall(name: string, body: SetupBody) | ShutdownCall(name: string)

  datatype RootResponse = RootResponse(status: nat, text: string, call: Call)

  const InitUsage := "usage: /init?name=&url=&prefix=&interval="
  const StopUsage := "usage: /stop?name="

  /** A query parameter that is present and not empty. */
  predicate Given(query: map<string, string>, name: string) {
    name in query && query[name] != ""
  }

  /** `Number(searchParams.get("interval")) * 1000 || undefined`, where
      `toNumber` is `Number` on a string (`None` for `NaN`) and a missing
      parameter reads as `Number(null)`, which is 0. */
  function InitInterval(query: map<string, string>, toNumber: string -> Option<real>): (r: Option<real>)
    ensures r.Some? ==> r.value != 0.0
    ensures "interval" !in query ==> r.None?
  {
    var n := if "interval" in query then toNumber(query["interval"]) else Some(0.0);
    if n.None? || n.value * 1000.0 == 0.0 then None else Some(n.value * 1000.0)
  }

  /** The root worker's `fetch`. */
  function RootFetch(pathname: string, query: map<string, string>, toNumber: string -> Option<real>)
    : (r: RootResponse)
    ensures pathname == "/init" ==>
              (r.status == 400 <==> !(Given(query, "name") && Given(query, "url") && Given(query, "prefix")))
    ensures pathname == "/init" && r.status == 400 ==> r.text == InitUsage && r.call == NoCall
    ensures pathname == "/init" && r.status != 400 ==>
              r.status == 200 && r.text == "instance \"" + query["name"] + "\" started" &&
              r.call == SetupCall(query["name"], SetupBody(query["url"], query["prefix"], InitInterval(query, toNumber)))
    ensures pathname == "/stop" ==> (r.status == 400 <==> !Given(query, "name"))
    ensures pathname == "/stop" && r.status == 400 ==> r.text == StopUsage && r.call == NoCall
    ensures pathname == "/stop" && r.status != 400 ==>
              r.status == 200 && r.text == "instance \"" + query["name"] + "\" stopped" &&
              r.call == ShutdownCall(query["name"])
    ensures pathname != "/init" && pathname != "/stop" ==> r == RootResponse(200, "root ok", NoCall)
  {
    if pathname == "/init" then
      if !Given(query, "name") || !Given(query, "url") || !Given(query, "prefix") then
        RootResponse(400, InitUsage, NoCall)
      else
        var body := SetupBody(query["url"], query["prefix"], InitInterval(query, toNumber));
        RootResponse(200, "instance \"" + query["name"] + "\" started", SetupCall(query["name"], body))
    else if pathname == "/stop" then
      if !Given(query, "name") then RootResponse(400, StopUsage, NoCall)
      else RootResponse(200, "instance \"" + query["name"] + "\" stopped", ShutdownCall(query["name"]))
    else RootResponse(200, "root ok", NoCall)
  }

  /** An instance created by `/init` polls every `interval` seconds, or
      every five seconds when the parameter is missing, zero or not a
      number. */
  lemma InitThenSetupInterval(query: map<string, string>, toNumber: string -> Option<real>)
    requires RootFetch("/init", query, toNumber).call.SetupCall?
    ensures var n := if "interval" in query then toNumber(query["interval"]) else Some(0.0);
            var stored := SetupInterval(RootFetch("/init", query, toNumber).call.body.interval);
            && (n.None? || n == Some(0.0) ==> stored == DefaultInterval)
            && (n.Some? && n.value != 0.0 ==> stored == n.value * 1000.0)
  {
  }
}

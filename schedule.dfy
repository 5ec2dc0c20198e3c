/** The weekly schedule crawler: for SBS Power FM and KBS Cool FM it asks
    for the week that starts on this week's Monday, keeps every table row
    that has both a time and a title, and writes the two lists under fixed
    storage prefixes. */
module Schedule {
  import opened Wrappers
  import opened Strings
  import opened Calendar

  /** A table row as the HTML parser hands it over: the stripped text of
      its time cell and of its title cell, `None` when the selector finds
      no such cell. */
  datatype Row = Row(timeCell: Option<string>, titleCell: Option<string>)

  /** One `{"name": ..., "time": ...}` entry. */
  datatype Program = Program(name: string, time: string)

  /** One broadcaster's `{"prefix": ..., "programs": [...]}`. */
  datatype Source = Source(prefix: string, programs: seq<Program>)

  /** Why the script stops before writing `schedule.json`: the request
      raised, or `select_one` found no cell and `.get_text` was called on
      `None`. */
  datatype Crash = RequestFailed | MissingCell

  /** The page fetch and the table-row selection, for a URL: `None` when
      the request raises. */
  type Web = string -> Option<seq<Row>>

  const SbsPrefix := "sbs/powerfm"
  const KbsPrefix := "kbs/25"

  /** `MONDAY.strftime(FMT)`, the date both requests ask for. */
  function QueryDate(today: Date): (ymd: string)
    requires Valid(today)
    ensures |ymd| == 8 && ParseYmd(ymd) == Some(Monday(today))
  {
    FormatYmdRoundTrip(Monday(today));
    FormatYmd(Monday(today))
  }

  /** The SBS Power FM weekly table for the week that starts on the
      given date: the date is the `pmDate` query value, between the
      63-character base and `&type=ra`. */
  function SbsUrl(ymd: string): (url: string)
    ensures |url| == 63 + |ymd| + 8
    ensures url[63..63 + |ymd|] == ymd && url[63 + |ymd|..] == "&type=ra"
  {
    "https://www.sbs.co.kr/schedule/index.html?channel=Power&pmDate=" + ymd + "&type=ra"
  }

  /** The KBS channel 24 weekly table for the week that starts on the
      given date: the date is the final `date` query value, after the
      71-character base. */
  function KbsUrl(ymd: string): (url: string)
    ensures |url| == 71 + |ymd| && url[71..] == ymd
  {
    "https://schedule.kbs.co.kr/?sname=schedule&stype=table&ch_code=24&date=" + ymd
  }

  /** Both URLs ask for this week's Monday, written as `YYYYMMDD`. */
  lemma UrlsAskForMonday(today: Date)
    requires Valid(today)
    ensures var sbs, kbs := SbsUrl(QueryDate(today)), KbsUrl(QueryDate(today));
            |sbs| == 79 && ParseYmd(sbs[63..71]) == Some(Monday(today))
            && |kbs| == 79 && ParseYmd(kbs[71..]) == Some(Monday(today))
  {
    var ymd := QueryDate(today);
    FormatYmdRoundTrip(Monday(today));
    var sbs, kbs := SbsUrl(ymd), KbsUrl(ymd);
    assert sbs[63..71] == ymd;
    assert kbs[71..] == ymd;
  }

  /** Python's truth value of a string: `if time and name`. */
  predicate NonEmpty(s: string) {
    |s| > 0
  }

  /** The entry a row yields, if any: `if time and name`, with a missing
      cell read as the empty string. */
  function RowProgram(row: Row): (p: Option<Program>)
    ensures p.Some? <==> NonEmpty(row.timeCell.GetOr("")) && NonEmpty(row.titleCell.GetOr(""))
    ensures p.Some? ==> row.timeCell == Some(p.value.time) && row.titleCell == Some(p.value.name)
    ensures row.timeCell.None? || row.titleCell.None? ==> p.None?
  {
    var time := row.timeCell.GetOr("");
    var name := row.titleCell.GetOr("");
    if NonEmpty(time) && NonEmpty(name) then Some(Program(name, time)) else None
  }

  /** The entries of one row: none, or the one it yields. */
  function Yield(row: Row): (ps: seq<Program>)
    ensures |ps| <= 1
    ensures forall k :: 0 <= k < |ps| ==> NonEmpty(ps[k].name) && NonEmpty(ps[k].time)
  {
    var p := RowProgram(row);
    if p.Some? then [p.value] else []
  }

  /** The entries the first `n` rows yield, in row order: `programs` after
      `n` turns of the loop. */
  function KeptPrefix(rows: seq<Row>, n: nat): (ps: seq<Program>)
    requires n <= |rows|
    ensures |ps| <= n
    ensures forall k :: 0 <= k < |ps| ==> NonEmpty(ps[k].name) && NonEmpty(ps[k].time)
  {
    if n == 0 then [] else KeptPrefix(rows, n - 1) + Yield(rows[n - 1])
  }

  /** The entries all the rows yield, in row order. */
  function Kept(rows: seq<Row>): (ps: seq<Program>)
    ensures |ps| <= |rows|
    ensures forall k :: 0 <= k < |ps| ==> NonEmpty(ps[k].name) && NonEmpty(ps[k].time)
  {
    KeptPrefix(rows, |rows|)
  }

  /** The entries of the first `n` rows depend on those rows only. */
  lemma {:induction false} KeptPrefixAgree(rows: seq<Row>, other: seq<Row>, n: nat)
    requires n <= |rows| && n <= |other|
    requires forall k :: 0 <= k < n ==> rows[k] == other[k]
    ensures KeptPrefix(rows, n) == KeptPrefix(other, n)
  {
    if n > 0 {
      KeptPrefixAgree(rows, other, n - 1);
    }
  }

  lemma {:induction false} KeptPrefixAppend(a: seq<Row>, b: seq<Row>, n: nat)
    requires n <= |b|
    ensures KeptPrefix(a + b, |a| + n) == Kept(a) + KeptPrefix(b, n)
  {
    if n == 0 {
      KeptPrefixAgree(a + b, a, |a|);
    } else {
      KeptPrefixAppend(a, b, n - 1);
      assert (a + b)[|a| + n - 1] == b[n - 1];
    }
  }

  /** Filtering works row by row: the entries of two runs of rows are
      those of the first followed by those of the second. */
  lemma KeptAppend(a: seq<Row>, b: seq<Row>)
    ensures Kept(a + b) == Kept(a) + Kept(b)
  {
    KeptPrefixAppend(a, b, |b|);
  }

  lemma KeptSingle(row: Row)
    ensures Kept([row]) == Yield(row)
  {
    assert KeptPrefix([row], 1) == KeptPrefix([row], 0) + Yield(row);
  }

  /** Each row's entries come after those of the rows before it and before
      those of the rows after it. */
  lemma KeptSplit(rows: seq<Row>, i: nat)
    requires i < |rows|
    ensures Kept(rows) == Kept(rows[..i]) + Yield(rows[i]) + Kept(rows[i + 1..])
  {
    SplitAt(rows, i);
    KeptAppend(rows[..i] + [rows[i]], rows[i + 1..]);
    KeptAppend(rows[..i], [rows[i]]);
    KeptSingle(rows[i]);
  }

  /** A row with both a time and a title is kept, right after the entries
      of the rows before it. */
  lemma QualifyingRowIsKept(rows: seq<Row>, i: nat)
    requires i < |rows| && RowProgram(rows[i]).Some?
    ensures |Kept(rows[..i])| < |Kept(rows)|
    ensures Kept(rows)[|Kept(rows[..i])|] == Program(rows[i].titleCell.value, rows[i].timeCell.value)
  {
    KeptSplit(rows, i);
  }

  /** A row the KBS loop skips without error: a missing cell becomes "". */
  lemma IncompleteRowIsSkipped(rows: seq<Row>, i: nat)
    requires i < |rows| && Incomplete(rows[i])
    ensures Kept(rows) == Kept(rows[..i]) + Kept(rows[i + 1..])
  {
    KeptSplit(rows, i);
  }

  lemma SplitAt<T>(s: seq<T>, i: nat)
    requires i < |s|
    ensures s == s[..i] + [s[i]] + s[i + 1..]
  {
  }

  predicate Incomplete(row: Row) {
    row.timeCell.None? || row.titleCell.None?
  }

  /** `fetch_sbs()`: a row without a `th.time` cell or a title cell stops
      the script; otherwise the qualifying rows, in order. */
  method FetchSbs(ymd: string, web: Web) returns (r: Result<Source, Crash>)
    ensures web(SbsUrl(ymd)).None? ==> r == Err(RequestFailed)
    ensures web(SbsUrl(ymd)).Some? ==>
              var rows := web(SbsUrl(ymd)).value;
              ((exists i :: 0 <= i < |rows| && Incomplete(rows[i])) ==> r == Err(MissingCell))
              && ((forall i :: 0 <= i < |rows| ==> !Incomplete(rows[i])) ==> r == Ok(Source(SbsPrefix, Kept(rows))))
  {
    var url := SbsUrl(ymd);
    var fetched := web(url);
    if fetched.None? {
      return Err(RequestFailed);
    }
    var rows := fetched.value;
    var programs := [];
    for i := 0 to |rows|
      invariant programs == KeptPrefix(rows, i)
      invariant forall k :: 0 <= k < i ==> !Incomplete(rows[k])
    {
      var tr := rows[i];
      if tr.timeCell.None? || tr.titleCell.None? {
        return Err(MissingCell);
      }
      var time := tr.timeCell.value;
      var name := tr.titleCell.value;
      if NonEmpty(time) && NonEmpty(name) {
        programs := programs + [Program(name, time)];
      }
    }
    return Ok(Source(SbsPrefix, programs));
  }

  /** `fetch_kbs()`: a missing cell reads as "" and its row is skipped. */
  method FetchKbs(ymd: string, web: Web) returns (r: Result<Source, Crash>)
    ensures web(KbsUrl(ymd)).None? ==> r == Err(RequestFailed)
    ensures web(KbsUrl(ymd)).Some? ==> r == Ok(Source(KbsPrefix, Kept(web(KbsUrl(ymd)).value)))
  {
    var url := KbsUrl(ymd);
    var fetched := web(url);
    if fetched.None? {
      return Err(RequestFailed);
    }
    var rows := fetched.value;
    var programs := [];
    for i := 0 to |rows|
      invariant programs == KeptPrefix(rows, i)
    {
      var tr := rows[i];
      var time := if tr.timeCell.Some? then tr.timeCell.value else "";
      var name := if tr.titleCell.Some? then tr.titleCell.value else "";
      if NonEmpty(time) && NonEmpty(name) {
        programs := programs + [Program(name, time)];
      }
    }
    return Ok(Source(KbsPrefix, programs));
  }

  /** The `__main__` block: the `schedule` document for the week whose
      Monday is written `ymd` (`MONDAY.strftime(FMT)`, see `QueryDate`).
      SBS is fetched first, and a crash in either fetcher leaves no
      document. */
  method BuildSchedule(ymd: string, web: Web) returns (r: Result<map<string, Source>, Crash>)
    ensures var sbsRows, kbsRows := web(SbsUrl(ymd)), web(KbsUrl(ymd));
            r.Ok? ==> sbsRows.Some? && kbsRows.Some? && r.value.Keys == {"sbs", "kbs"}
                      && r.value["sbs"] == Source(SbsPrefix, Kept(sbsRows.value))
                      && r.value["kbs"] == Source(KbsPrefix, Kept(kbsRows.value))
    ensures var sbsRows, kbsRows := web(SbsUrl(ymd)), web(KbsUrl(ymd));
            r.Err? <==> sbsRows.None? || kbsRows.None?
                        || exists i :: 0 <= i < |sbsRows.value| && Incomplete(sbsRows.value[i])
  {
    var sbs := FetchSbs(ymd, web);
    if sbs.Err? {
      return Err(sbs.error);
    }
    var kbs := FetchKbs(ymd, web);
    if kbs.Err? {
      return Err(kbs.error);
    }
    return Ok(map["sbs" := sbs.value, "kbs" := kbs.value]);
  }
}

/**
 * `S3ReportManager`: the bucket that holds the portfolio manager's memory
 * between runs, as a map from object key to body. The failures of the
 * storage service (a `put_object` that raises, a `ClientError` on a read)
 * are parameters of the methods that meet them.
 */
module S3Client {
  import opened Common

  /** What an object holds: text, or the position history as a JSON dictionary. */
  datatype Body = Text(text: string) | JsonDict(entries: map<string, string>)

  const LatestKey: string := "summaries/latest.txt"
  const HistoryKey: string := "positions/history.json"
  const ReportsRoot: string := "reports/"

  /** `summaries/{iteration_id}.txt`. */
  function SummaryKey(iterationId: string): string {
    "summaries/" + iterationId + ".txt"
  }

  /** `reports/{ticker}/`. */
  function ReportPrefix(ticker: string): string {
    ReportsRoot + ticker + "/"
  }

  /** `reports/{ticker}/{date}/{name}`. */
  function ReportKey(ticker: string, date: string, name: string): string {
    ReportPrefix(ticker) + date + "/" + name
  }

  /** `logs/{iteration_id}/message_tool.log`. */
  function LogKey(iterationId: string): string {
    "logs/" + iterationId + "/message_tool.log"
  }

  /** The prefix `list_reports` asks for: one ticker's reports, or all of them when no ticker is given. */
  function ListPrefix(ticker: Option<string>): string {
    if ticker.Some? && |ticker.value| > 0 then ReportPrefix(ticker.value) else ReportsRoot
  }

  // ---------------------------------------------------------------------
  // The key scheme keeps the kinds of objects apart

  /** Only the iteration id "latest" names the same object as the latest summary. */
  lemma SummaryKeyIsLatestOnlyForLatest(iterationId: string)
    ensures SummaryKey(iterationId) == LatestKey <==> iterationId == "latest"
  {
    if SummaryKey(iterationId) == LatestKey {
      var k := SummaryKey(iterationId);
      assert |iterationId| == 6;
      forall i | 0 <= i < 6
        ensures iterationId[i] == "latest"[i]
      {
        assert iterationId[i] == k[10 + i];
        assert LatestKey[10 + i] == "latest"[i];
      }
    }
  }

  /** Report, log and summary keys can never hit the position history or, bar the summaries, the latest summary. */
  lemma KeysAreApart(ticker: string, date: string, name: string, iterationId: string)
    ensures ReportKey(ticker, date, name) != LatestKey && ReportKey(ticker, date, name) != HistoryKey
    ensures LogKey(iterationId) != LatestKey && LogKey(iterationId) != HistoryKey
    ensures SummaryKey(iterationId) != HistoryKey
  {
    assert ReportKey(ticker, date, name)[0] == 'r' && LogKey(iterationId)[0] == 'l';
    assert SummaryKey(iterationId)[0] == 's';
    assert LatestKey[0] == 's' && HistoryKey[0] == 'p';
  }

  /** Every report key lies under its ticker's prefix, and under the prefix of all reports. */
  lemma ReportKeyIsListed(ticker: string, date: string, name: string)
    ensures StartsWith(ReportKey(ticker, date, name), ListPrefix(Some(ticker)))
    ensures StartsWith(ReportKey(ticker, date, name), ListPrefix(None))
  {
    var k := ReportKey(ticker, date, name);
    assert k == ReportPrefix(ticker) + (date + "/" + name);
    assert k[..|ReportPrefix(ticker)|] == ReportPrefix(ticker);
    assert k[..|ReportsRoot|] == ReportsRoot;
  }

  // ---------------------------------------------------------------------
  // Local files

  /** A file of the local reports directory. */
  datatype LocalFile = LocalFile(name: string, content: string)

  /**
   * A name `Path.glob('*.md')` matches: it ends in ".md". Unlike the shell,
   * pathlib's glob also matches hidden names such as ".notes.md" or ".md".
   */
  predicate IsMarkdownName(name: string) {
    |name| >= 3 && name[|name| - 3..] == ".md"
  }

  /** The objects the markdown files of a reports directory become, the later file winning a shared name. */
  function MarkdownUploads(ticker: string, date: string, files: seq<LocalFile>): map<string, Body> {
    if |files| == 0 then map[]
    else
      var init, f := files[..|files| - 1], files[|files| - 1];
      var m := MarkdownUploads(ticker, date, init);
      if IsMarkdownName(f.name) then m[ReportKey(ticker, date, f.name) := Text(f.content)] else m
  }

  /** Exactly the markdown files give objects, each under its report key. */
  lemma {:induction false} MarkdownUploadKeys(ticker: string, date: string, files: seq<LocalFile>)
    ensures forall k :: k in MarkdownUploads(ticker, date, files) ==>
              exists i :: 0 <= i < |files| && IsMarkdownName(files[i].name) && k == ReportKey(ticker, date, files[i].name)
    ensures forall i :: 0 <= i < |files| && IsMarkdownName(files[i].name) ==>
              ReportKey(ticker, date, files[i].name) in MarkdownUploads(ticker, date, files)
  {
    if |files| > 0 {
      var init, f := files[..|files| - 1], files[|files| - 1];
      MarkdownUploadKeys(ticker, date, init);
      forall k | k in MarkdownUploads(ticker, date, files)
        ensures exists i :: 0 <= i < |files| && IsMarkdownName(files[i].name) && k == ReportKey(ticker, date, files[i].name)
      {
        if k in MarkdownUploads(ticker, date, init) {
          var i :| 0 <= i < |init| && IsMarkdownName(init[i].name) && k == ReportKey(ticker, date, init[i].name);
          assert files[i] == init[i];
        } else {
          assert files[|files| - 1] == f;
        }
      }
      forall i | 0 <= i < |files| && IsMarkdownName(files[i].name)
        ensures ReportKey(ticker, date, files[i].name) in MarkdownUploads(ticker, date, files)
      {
        if i < |init| {
          assert files[i] == init[i];
        }
      }
    }
  }

  /** Every key `upload_reports` writes, the sibling `index.html` last. */
  function ReportUploads(ticker: string, date: string, files: seq<LocalFile>, html: Option<string>): map<string, Body> {
    var m := MarkdownUploads(ticker, date, files);
    if html.Some? then m[ReportKey(ticker, date, "index.html") := Text(html.value)] else m
  }

  /** Every object an upload of reports writes is one `list_reports` finds under the ticker. */
  lemma UploadsAreUnderTicker(ticker: string, date: string, files: seq<LocalFile>, html: Option<string>)
    ensures forall k :: k in ReportUploads(ticker, date, files, html) ==>
              StartsWith(k, ListPrefix(Some(ticker))) && k != LatestKey && k != HistoryKey
  {
    forall k | k in ReportUploads(ticker, date, files, html)
      ensures StartsWith(k, ListPrefix(Some(ticker))) && k != LatestKey && k != HistoryKey
    {
      if k in MarkdownUploads(ticker, date, files) {
        MarkdownUploadKeys(ticker, date, files);
        var i :| 0 <= i < |files| && IsMarkdownName(files[i].name) && k == ReportKey(ticker, date, files[i].name);
        ReportKeyIsListed(ticker, date, files[i].name);
        KeysAreApart(ticker, date, files[i].name, "");
      } else {
        ReportKeyIsListed(ticker, date, "index.html");
        KeysAreApart(ticker, date, "index.html", "");
      }
    }
  }

  // ---------------------------------------------------------------------
  // The manager

  /** The objects the manager reads hold the kind of body it writes there. */
  predicate WellKept(objects: map<string, Body>) {
    (LatestKey in objects ==> objects[LatestKey].Text?) && (HistoryKey in objects ==> objects[HistoryKey].JsonDict?)
  }

  /** Writing objects at keys other than the two it reads keeps a bucket well kept. */
  lemma WellKeptUnion(objects: map<string, Body>, writes: map<string, Body>)
    requires WellKept(objects)
    requires forall k :: k in writes ==> k != LatestKey && k != HistoryKey
    ensures WellKept(objects + writes)
  {
  }

  lemma UnionUpdate(a: map<string, Body>, b: map<string, Body>, k: string, v: Body)
    ensures (a + b)[k := v] == a + b[k := v]
  {
  }

  /** The bucket after `save_summary`: nothing written, the iteration's copy only, or both copies. */
  function AfterSaveSummary(objects: map<string, Body>, summary: string, iterationId: string,
                            firstFails: bool, secondFails: bool): map<string, Body>
  {
    if firstFails then objects
    else if secondFails then objects[SummaryKey(iterationId) := Text(summary)]
    else objects[SummaryKey(iterationId) := Text(summary)][LatestKey := Text(summary)]
  }

  class S3ReportManager {
    const bucketName: string
    const region: string
    var objects: map<string, Body>

    predicate Valid()
      reads this
    {
      WellKept(objects)
    }

    /** The manager over a bucket that already holds `existing`. */
    constructor(bucketName: string, region: string, existing: map<string, Body>)
      requires WellKept(existing)
      ensures this.bucketName == bucketName && this.region == region
      ensures objects == existing && Valid()
    {
      this.bucketName := bucketName;
      this.region := region;
      objects := existing;
    }

    /**
     * `upload_reports`: with no reports directory nothing is written and the
     * result is False; otherwise every markdown file, then the sibling
     * index.html, is put under `reports/{ticker}/{date}/`.
     */
    method UploadReports(ticker: string, date: string, dir: Option<seq<LocalFile>>, html: Option<string>)
      returns (ok: bool)
      requires Valid()
      modifies this`objects
      ensures Valid()
      ensures ok <==> dir.Some?
      ensures dir.None? ==> objects == old(objects)
      ensures dir.Some? ==> objects == old(objects) + ReportUploads(ticker, date, dir.value, html)
    {
      if dir.None? {
        return false;
      }
      var files, before := dir.value, objects;
      PutMarkdown(ticker, date, files);
      if html.Some? {
        UnionUpdate(before, MarkdownUploads(ticker, date, files), ReportKey(ticker, date, "index.html"), Text(html.value));
        objects := objects[ReportKey(ticker, date, "index.html") := Text(html.value)];
      }
      UploadsAreUnderTicker(ticker, date, files, html);
      WellKeptUnion(before, ReportUploads(ticker, date, files, html));
      ok := true;
    }

    /** The loop of `upload_reports` over the markdown files, in listing order. */
    method PutMarkdown(ticker: string, date: string, files: seq<LocalFile>)
      modifies this`objects
      ensures objects == old(objects) + MarkdownUploads(ticker, date, files)
    {
      var i := 0;
      while i < |files|
        invariant 0 <= i <= |files|
        invariant objects == old(objects) + MarkdownUploads(ticker, date, files[..i])
      {
        assert files[..i + 1][..i] == files[..i];
        if IsMarkdownName(files[i].name) {
          UnionUpdate(old(objects), MarkdownUploads(ticker, date, files[..i]),
                      ReportKey(ticker, date, files[i].name), Text(files[i].content));
          objects := objects[ReportKey(ticker, date, files[i].name) := Text(files[i].content)];
        }
        i := i + 1;
      }
      assert files[..i] == files;
    }

    /** `upload_log`: a missing log file gives False and writes nothing; otherwise the log is put under its iteration. */
    method UploadLog(iterationId: string, log: Option<string>) returns (ok: bool)
      requires Valid()
      modifies this`objects
      ensures Valid()
      ensures ok <==> log.Some?
      ensures log.None? ==> objects == old(objects)
      ensures log.Some? ==> objects == old(objects)[LogKey(iterationId) := Text(log.value)]
    {
      if log.None? {
        return false;
      }
      KeysAreApart("", "", "", iterationId);
      objects := objects[LogKey(iterationId) := Text(log.value)];
      ok := true;
    }

    /** `get_last_summary`: the latest summary, or None when there is none or the read fails. */
    function GetLastSummary(readFails: bool): (r: Option<string>)
      requires Valid()
      reads this
      ensures r.None? <==> readFails || LatestKey !in objects
      ensures r.Some? ==> objects[LatestKey] == Text(r.value)
    {
      if readFails || LatestKey !in objects then None else Some(objects[LatestKey].text)
    }

    /**
     * `save_summary`: the summary is put under its iteration's key, then
     * under `summaries/latest.txt`; a failing put stops there and gives False.
     */
    method SaveSummary(summary: string, iterationId: string, firstFails: bool, secondFails: bool)
      returns (ok: bool)
      requires Valid()
      modifies this`objects
      ensures Valid()
      ensures ok <==> !firstFails && !secondFails
      ensures objects == AfterSaveSummary(old(objects), summary, iterationId, firstFails, secondFails)
      ensures firstFails ==> objects == old(objects)
      ensures !firstFails && secondFails ==> objects == old(objects)[SummaryKey(iterationId) := Text(summary)]
      ensures ok ==> objects == old(objects)[SummaryKey(iterationId) := Text(summary)][LatestKey := Text(summary)]
      ensures ok ==> GetLastSummary(false) == Some(summary)
      ensures !ok && iterationId != "latest" ==> GetLastSummary(false) == old(GetLastSummary(false))
    {
      KeysAreApart("", "", "", iterationId);
      SummaryKeyIsLatestOnlyForLatest(iterationId);
      if firstFails {
        return false;
      }
      objects := objects[SummaryKey(iterationId) := Text(summary)];
      if secondFails {
        return false;
      }
      objects := objects[LatestKey := Text(summary)];
      ok := true;
    }

    /** `get_position_history`: the stored dictionary, or {} when there is none or the read fails. */
    function GetPositionHistory(readFails: bool): (h: map<string, string>)
      requires Valid()
      reads this
      ensures readFails || HistoryKey !in objects ==> h == map[]
      ensures !readFails && HistoryKey in objects ==> objects[HistoryKey] == JsonDict(h)
    {
      if readFails || HistoryKey !in objects then map[] else objects[HistoryKey].entries
    }

    /** `save_position_history`: the dictionary is put as JSON; a failing put gives False and writes nothing. */
    method SavePositionHistory(history: map<string, string>, fails: bool) returns (ok: bool)
      requires Valid()
      modifies this`objects
      ensures Valid()
      ensures ok <==> !fails
      ensures fails ==> objects == old(objects)
      ensures ok ==> objects == old(objects)[HistoryKey := JsonDict(history)]
      ensures ok ==> GetPositionHistory(false) == history
      ensures GetLastSummary(false) == old(GetLastSummary(false))
    {
      if fails {
        return false;
      }
      objects := objects[HistoryKey := JsonDict(history)];
      ok := true;
    }

    /** `list_reports`: the keys under the asked prefix, none when the listing fails. */
    function ListReports(ticker: Option<string>, listFails: bool): (r: set<string>)
      reads this
      ensures forall k :: k in r ==> k in objects && StartsWith(k, ListPrefix(ticker))
      ensures !listFails ==> forall k :: k in objects && StartsWith(k, ListPrefix(ticker)) ==> k in r
      ensures listFails ==> r == {}
    {
      if listFails then {} else set k | k in objects && StartsWith(k, ListPrefix(ticker))
    }
  }

  /** A ticker's reports are among all reports. */
  lemma TickerListingIsPartOfAll(m: S3ReportManager, ticker: string)
    ensures m.ListReports(Some(ticker), false) <= m.ListReports(None, false)
  {
    forall k | k in m.ListReports(Some(ticker), false)
      ensures k in m.ListReports(None, false)
    {
      if |ticker| > 0 {
        assert k[..|ReportsRoot|] == k[..|ReportPrefix(ticker)|][..|ReportsRoot|];
      }
    }
  }
}

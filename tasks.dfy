/** The task server: task ids, the two task tables and the handlers that
    read and write them (`api_server.py`). */
module Tasks {

  import opened Wrappers
  import opened Strings
  import Crawler

  const Pending := "pending"
  const Running := "running"
  const Completed := "completed"
  const Failed := "failed"
  const Analyzing := "analyzing"

  const MsgCreated := "任务已创建，正在启动..."
  const MsgCrawling := "正在爬取数据..."
  const MsgCrawled := "数据爬取完成"
  const MsgCrawlFailed := "爬取失败: "
  const MsgAnalyzing := "正在进行数据分析..."
  const MsgAnalyzed := "分析完成"
  const MsgAnalysisFailed := "分析失败: "

  /** The crawler's data directory, as `os.path.join` prefixes it. */
  const DataDir := "data/"

  /** An optional request field is truthy: present and not empty. */
  predicate Truthy(o: Option<string>) {
    o.Some? && |o.value| > 0
  }

  // ---------------------------------------------------------------------
  // generate_task_id

  /** `generate_task_id` for the time stamp `timestamp`: the prefix tells
      which field named the task, the field's value sits between the
      prefix and the time stamp, and the id ends with the time stamp. */
  function TaskId(categoryId: Option<string>, keyword: Option<string>, timestamp: string): (id: string)
    ensures StartsWith(id, "cat_") <==> Truthy(categoryId)
    ensures StartsWith(id, "kw_") <==> !Truthy(categoryId) && Truthy(keyword)
    ensures StartsWith(id, "task_") <==> !Truthy(categoryId) && !Truthy(keyword)
    ensures EndsWith(id, "_" + timestamp)
    ensures Truthy(categoryId) ==> |id| == 5 + |categoryId.value| + |timestamp| && id[4..|id| - |timestamp| - 1] == categoryId.value
    ensures !Truthy(categoryId) && Truthy(keyword) ==> |id| == 4 + |keyword.value| + |timestamp| && id[3..|id| - |timestamp| - 1] == keyword.value
  {
    if Truthy(categoryId) then
      var id := "cat_" + categoryId.value + "_" + timestamp;
      assert id == "cat_" + (categoryId.value + "_" + timestamp) && id[0] == 'c';
      assert id[|id| - |timestamp| - 1..] == "_" + timestamp;
      id
    else if Truthy(keyword) then
      var id := "kw_" + keyword.value + "_" + timestamp;
      assert id == "kw_" + (keyword.value + "_" + timestamp) && id[0] == 'k';
      assert id[|id| - |timestamp| - 1..] == "_" + timestamp;
      id
    else
      var id := "task_" + timestamp;
      assert id[0] == 't';
      assert id[|id| - |timestamp| - 1..] == "_" + timestamp;
      id
  }

  // ---------------------------------------------------------------------
  // The task tables

  /** How `os.path.exists` sees a stored path: a text, or the pair of
      report paths the analysis returns. */
  datatype PathValue = PathStr(path: string) | PathPair(first: string, second: string)

  /** An entry of `task_status`. */
  datatype StatusEntry = StatusEntry(status: string, message: string)

  /** An entry of `task_results`; an absent key is `None`. */
  datatype ResultEntry = ResultEntry(status: string, message: string, filePath: Option<string>,
                                     fileName: Option<string>, analysisFile: Option<PathValue>,
                                     error: Option<string>)

  /** The `TaskStatus` answer. */
  datatype TaskView = TaskView(taskId: string, status: string, message: string, result: Option<ResultEntry>)

  /** A handler's answer, or the HTTP status of the error it raised. */
  datatype Reply<T> = Answer(value: T) | Refused(code: int)

  /** The file a download sends and the name it is sent under. */
  datatype Download = Download(path: string, name: string)

  /** `result.get("analysis_file")` is truthy: a non-empty text, or a pair. */
  predicate PathTruthy(v: Option<PathValue>) {
    v.Some? && (v.value.PathPair? || |v.value.path| > 0)
  }

  /** The answer of `get_task_status`. */
  function StatusOf(ts: map<string, StatusEntry>, tr: map<string, ResultEntry>, id: string): (r: Reply<TaskView>)
    ensures r.Refused? <==> id !in ts && id !in tr
    ensures r.Refused? ==> r.code == 404
    ensures r.Answer? ==> r.value.taskId == id
    ensures id in tr ==> r.Answer? && r.value.status == tr[id].status
                         && r.value.message == tr[id].message && r.value.result == Some(tr[id])
    ensures id !in tr && id in ts ==> r.Answer? && r.value.status == ts[id].status
                                      && r.value.message == ts[id].message && r.value.result.None?
  {
    if id !in ts && id !in tr then Refused(404)
    else if id in tr then Answer(TaskView(id, tr[id].status, tr[id].message, Some(tr[id])))
    else Answer(TaskView(id, ts[id].status, ts[id].message, None))
  }

  /** The raw data download of one entry. */
  function RawDownload(e: ResultEntry, present: string -> bool): (r: Reply<Download>)
    ensures r.Answer? <==> Truthy(e.filePath) && present(e.filePath.value) && e.fileName.Some?
    ensures r.Answer? ==> r.value == Download(e.filePath.value, e.fileName.value)
    ensures r.Refused? ==> r.code == (if Truthy(e.filePath) && present(e.filePath.value) then 500 else 404)
  {
    if !Truthy(e.filePath) || !present(e.filePath.value) then Refused(404)
    else match e.fileName
      case None => Refused(500)
      case Some(name) => Answer(Download(e.filePath.value, name))
  }

  /** The analysis download of one entry: `os.path.exists` raises on a
      pair, which the server answers with 500. */
  function AnalysisDownload(e: ResultEntry, present: string -> bool): (r: Reply<Download>)
    ensures r.Answer? <==> PathTruthy(e.analysisFile) && e.analysisFile.value.PathStr? && present(e.analysisFile.value.path)
    ensures r.Answer? ==> (r.value.path == e.analysisFile.value.path
      && EndsWith(r.value.path, r.value.name) && '/' !in r.value.name)
    ensures r.Refused? ==> r.code == (if PathTruthy(e.analysisFile) && e.analysisFile.value.PathPair? then 500 else 404)
  {
    if !PathTruthy(e.analysisFile) then Refused(404)
    else match e.analysisFile.value
      case PathPair(_, _) => Refused(500)
      case PathStr(p) => if !present(p) then Refused(404) else Answer(Download(p, Basename(p)))
  }

  /** The answer of `download_file`: `type == 'analysis'` selects the
      analysis file, any other type the raw data. */
  function DownloadOf(tr: map<string, ResultEntry>, id: string, kind: string, present: string -> bool): (r: Reply<Download>)
    ensures id !in tr ==> r == Refused(404)
    ensures id in tr && kind == "analysis" ==> r == AnalysisDownload(tr[id], present)
    ensures id in tr && kind != "analysis" ==> r == RawDownload(tr[id], present)
  {
    if id !in tr then Refused(404)
    else if kind == "analysis" then AnalysisDownload(tr[id], present)
    else RawDownload(tr[id], present)
  }

  /** Deleting the entry raises: its analysis file is a pair. */
  predicate DeleteRaises(e: ResultEntry) {
    PathTruthy(e.analysisFile) && e.analysisFile.value.PathPair?
  }

  /** The files `delete_task` removes for an entry, in order: the raw
      file, then the analysis file, each when set and present. */
  function Removals(e: ResultEntry, present: string -> bool): (r: seq<string>)
    ensures |r| <= 2
    ensures forall f :: f in r ==> present(f)
    ensures (Truthy(e.filePath) && present(e.filePath.value)) <==> (|r| > 0 && e.filePath.Some? && r[0] == e.filePath.value)
  {
    (if Truthy(e.filePath) && present(e.filePath.value) then [e.filePath.value] else [])
      + (match e.analysisFile
         case Some(PathStr(p)) => if |p| > 0 && present(p) then [p] else []
         case _ => [])
  }

  /** The answer of `delete_task`. */
  function DeleteReply(ts: map<string, StatusEntry>, tr: map<string, ResultEntry>, id: string): (r: Reply<()>)
    ensures r.Refused? <==> (id !in ts && id !in tr) || (id in tr && DeleteRaises(tr[id]))
    ensures r.Refused? ==> r.code == (if id !in ts && id !in tr then 404 else 500)
  {
    if id !in ts && id !in tr then Refused(404)
    else if id in tr && DeleteRaises(tr[id]) then Refused(500)
    else Answer(())
  }

  /** The guards of `start_analyze`, in their order. */
  function AnalyzeGuard(tr: map<string, ResultEntry>, id: string, present: string -> bool): (r: Reply<()>)
    ensures r.Answer? <==> id in tr && tr[id].status == Completed
                           && Truthy(tr[id].filePath) && present(tr[id].filePath.value)
    ensures r.Refused? ==> r.code == (if id in tr && tr[id].status != Completed then 400 else 404)
  {
    if id !in tr then Refused(404)
    else if tr[id].status != Completed then Refused(400)
    else if !Truthy(tr[id].filePath) || !present(tr[id].filePath.value) then Refused(404)
    else Answer(())
  }

  /** The entry once the analysis is under way. */
  function AnalysisStarted(e: ResultEntry): ResultEntry {
    e.(status := Analyzing, message := MsgAnalyzing)
  }

  /** The entry after the analysis: the pair of report paths on success,
      the error text on failure. */
  function Analyzed(e: ResultEntry, outcome: Result<(string, string)>): (r: ResultEntry)
    ensures r.filePath == e.filePath && r.fileName == e.fileName && r.error == e.error
    ensures r.status == (if outcome.Ok? then Completed else Failed)
    ensures outcome.Ok? ==> r.analysisFile == Some(PathPair(outcome.value.0, outcome.value.1))
    ensures outcome.Err? ==> r.analysisFile == e.analysisFile
  {
    match outcome
    case Ok(files) => e.(status := Completed, message := MsgAnalyzed, analysisFile := Some(PathPair(files.0, files.1)))
    case Err(text) => e.(status := Failed, message := MsgAnalysisFailed + text)
  }

  // ---------------------------------------------------------------------
  // crawl_data

  /** The crawler's query once `crawl_data` has set the category and
      keyword. */
  function CrawlParams(categoryId: Option<string>, keyword: Option<string>): map<string, string> {
    var p := Crawler.EchoTikCrawler.InitialParams();
    var p := if Truthy(categoryId) then p[Crawler.CategoryParam := categoryId.value] else p;
    if Truthy(keyword) then p[Crawler.KeywordParam := keyword.value] else p
  }

  /** The prefix `run_crawler` looks for, as written. */
  function WrittenPrefix(categoryId: Option<string>, keyword: Option<string>): string {
    if Truthy(categoryId) then "products_cat" + categoryId.value + "_" else "products_kw_"
  }

  /** The prefix the file `_save_data` writes actually starts with. */
  function IntendedPrefix(categoryId: Option<string>, keyword: Option<string>): string {
    if Truthy(categoryId) then "products_cat" + categoryId.value + "_"
    else if Truthy(keyword) then "products_kw" + keyword.value + "_"
    else WrittenPrefix(categoryId, keyword)
  }

  /** The entry `run_crawler` stores for the newest matching file, or for
      the error `max` raises on an empty list. */
  function CrawlResult(latest: Option<string>, emptyMaxError: string): (r: ResultEntry)
    ensures r.status == (if latest.Some? then Completed else Failed)
    ensures latest.Some? ==> r.filePath == Some(DataDir + latest.value) && r.fileName == latest
    ensures latest.None? ==> r.filePath.None? && r.error == Some(emptyMaxError)
  {
    match latest
    case Some(name) => ResultEntry(Completed, MsgCrawled, Some(DataDir + name), Some(name), None, None)
    case None => ResultEntry(Failed, MsgCrawlFailed + emptyMaxError, None, None, None, Some(emptyMaxError))
  }

  /** `max` over the names starting with `prefix`, by creation time. The
      directory lists its names in no particular order, so the loop takes
      them in any order; among names created at the same time the first
      listed wins. */
  method LatestFile(names: set<string>, prefix: string, ctime: string -> int) returns (latest: Option<string>)
    ensures latest.None? <==> forall f :: f in names ==> !StartsWith(f, prefix)
    ensures latest.Some? ==> (latest.value in names && StartsWith(latest.value, prefix)
      && forall f :: f in names && StartsWith(f, prefix) ==> ctime(f) <= ctime(latest.value))
  {
    latest := None;
    var rest := names;
    while rest != {}
      invariant rest <= names
      invariant latest.None? <==> forall f :: f in names - rest ==> !StartsWith(f, prefix)
      invariant latest.Some? ==> (latest.value in names && StartsWith(latest.value, prefix)
        && forall f :: f in names - rest && StartsWith(f, prefix) ==> ctime(f) <= ctime(latest.value))
      decreases |rest|
    {
      var f :| f in rest;
      if StartsWith(f, prefix) && (latest.None? || ctime(f) > ctime(latest.value)) {
        latest := Some(f);
      }
      rest := rest - {f};
    }
  }

  /** The crawler `crawl_data` sets up: a fresh one given the request's
      cookie and authorization headers, and its category and keyword when
      truthy. */
  method ConfiguredCrawler(categoryId: Option<string>, keyword: Option<string>, cookie: string,
                           authorization: string, dir: map<string, string>)
    returns (crawler: Crawler.EchoTikCrawler)
    ensures fresh(crawler)
    ensures crawler.defaultParams == CrawlParams(categoryId, keyword) && crawler.files == dir
    ensures Crawler.AuthHeader in crawler.headers && crawler.headers[Crawler.AuthHeader] == authorization
    ensures |cookie| > 0 ==> Crawler.CookieHeader in crawler.headers && crawler.headers[Crawler.CookieHeader] == cookie
  {
    crawler := new Crawler.EchoTikCrawler(dir);
    crawler.UpdateCookie(Some(cookie));
    assert |cookie| > 0 ==> Crawler.CookieHeader in crawler.headers && crawler.headers[Crawler.CookieHeader] == cookie;
    crawler.headers := crawler.headers[Crawler.AuthHeader := authorization];
    if Truthy(categoryId) {
      crawler.defaultParams := crawler.defaultParams[Crawler.CategoryParam := categoryId.value];
    }
    if Truthy(keyword) {
      crawler.defaultParams := crawler.defaultParams[Crawler.KeywordParam := keyword.value];
    }
  }

  /** The crawl `run_crawler` starts: the configured crawler runs from
      page 1 with no end page. The answer is the data directory afterwards
      and the headers the crawl ran with: the request's authorization, and
      its cookie when that is not empty. */
  method CrawledFiles(categoryId: Option<string>, keyword: Option<string>, cookie: string,
                      authorization: string, dir: map<string, string>, b: Crawler.Backend, fuel: nat)
    returns (files: map<string, string>, headers: map<string, string>)
    ensures files == Crawler.CrawlFrom(b, CrawlParams(categoryId, keyword), None, 1, fuel, Crawler.Run(0, [], dir)).files
    ensures Crawler.AuthHeader in headers && headers[Crawler.AuthHeader] == authorization
    ensures |cookie| > 0 ==> Crawler.CookieHeader in headers && headers[Crawler.CookieHeader] == cookie
  {
    var crawler := ConfiguredCrawler(categoryId, keyword, cookie, authorization, dir);
    var saved, pages := crawler.Crawl(b, 1, None, fuel);
    files := crawler.files;
    headers := crawler.headers;
  }

  // ---------------------------------------------------------------------
  // The handlers

  class TaskServer {
    var taskStatus: map<string, StatusEntry>
    var taskResults: map<string, ResultEntry>

    /** Both tables start empty. */
    constructor()
      ensures taskStatus == map[] && taskResults == map[]
    {
      taskStatus := map[];
      taskResults := map[];
    }

    /** `start_crawl`: refuses a request naming neither a category nor a
        keyword; otherwise answers `pending` under the new id. */
    method StartCrawl(categoryId: Option<string>, keyword: Option<string>, timestamp: string)
      returns (r: Reply<TaskView>)
      ensures r.Refused? <==> !Truthy(categoryId) && !Truthy(keyword)
      ensures r.Refused? ==> r.code == 400
      ensures r.Answer? ==> (r.value.status == Pending && r.value.result.None?
        && r.value.taskId == TaskId(categoryId, keyword, timestamp))
    {
      if !Truthy(categoryId) && !Truthy(keyword) {
        return Refused(400);
      }
      var id := TaskId(categoryId, keyword, timestamp);
      r := Answer(TaskView(id, Pending, MsgCreated, None));
    }

    /** `get_task_status`. */
    method GetTaskStatus(id: string) returns (r: Reply<TaskView>)
      ensures r == StatusOf(taskStatus, taskResults, id)
    {
      if id !in taskStatus && id !in taskResults {
        return Refused(404);
      }
      if id in taskResults {
        var result := taskResults[id];
        return Answer(TaskView(id, result.status, result.message, Some(result)));
      }
      var status := taskStatus[id];
      r := Answer(TaskView(id, status.status, status.message, None));
    }

    /** `download_file`; `present` is `os.path.exists` on a text. */
    method DownloadFile(id: string, kind: string, present: string -> bool) returns (r: Reply<Download>)
      ensures r == DownloadOf(taskResults, id, kind, present)
    {
      if id !in taskResults {
        return Refused(404);
      }
      var result := taskResults[id];
      if kind == "analysis" {
        if !PathTruthy(result.analysisFile) {
          return Refused(404);
        }
        match result.analysisFile.value
        case PathPair(_, _) =>
          return Refused(500);
        case PathStr(p) =>
          if !present(p) {
            return Refused(404);
          }
          r := Answer(Download(p, Basename(p)));
      } else {
        if !Truthy(result.filePath) || !present(result.filePath.value) {
          return Refused(404);
        }
        if result.fileName.None? {
          return Refused(500);
        }
        r := Answer(Download(result.filePath.value, result.fileName.value));
      }
    }

    /** `delete_task`: removes the entry's files, then the id from both
        tables. When the analysis file is a pair the check raises after
        the raw file is gone, and both tables are left as they were. */
    method DeleteTask(id: string, present: string -> bool) returns (r: Reply<()>, removed: seq<string>)
      modifies this
      ensures r == DeleteReply(old(taskStatus), old(taskResults), id)
      ensures removed == (if id in old(taskResults) then Removals(old(taskResults)[id], present) else [])
      ensures r.Answer? ==> taskStatus == old(taskStatus) - {id} && taskResults == old(taskResults) - {id}
      ensures r.Refused? ==> taskStatus == old(taskStatus) && taskResults == old(taskResults)
    {
      removed := [];
      if id !in taskStatus && id !in taskResults {
        return Refused(404), removed;
      }
      if id in taskResults {
        var result := taskResults[id];
        if Truthy(result.filePath) && present(result.filePath.value) {
          removed := removed + [result.filePath.value];
        }
        if PathTruthy(result.analysisFile) {
          match result.analysisFile.value
          case PathPair(_, _) =>
            return Refused(500), removed;
          case PathStr(p) =>
            if present(p) {
              removed := removed + [p];
            }
        }
      }
      if id in taskStatus {
        taskStatus := taskStatus - {id};
      }
      if id in taskResults {
        taskResults := taskResults - {id};
      }
      r := Answer(());
    }

    /** `start_analyze`: after its guards, marks the entry as analysing. */
    method StartAnalyze(id: string, present: string -> bool) returns (r: Reply<()>)
      modifies this
      ensures r == AnalyzeGuard(old(taskResults), id, present)
      ensures r.Answer? ==> taskResults == old(taskResults)[id := AnalysisStarted(old(taskResults)[id])]
      ensures r.Refused? ==> taskResults == old(taskResults)
      ensures taskStatus == old(taskStatus)
    {
      if id !in taskResults {
        return Refused(404);
      }
      var result := taskResults[id];
      if result.status != Completed {
        return Refused(400);
      }
      if !Truthy(result.filePath) || !present(result.filePath.value) {
        return Refused(404);
      }
      taskResults := taskResults[id := AnalysisStarted(result)];
      r := Answer(());
    }

    /** `run_analyze` with the analysis' outcome: the report pair, or the
        text of the exception it raised. The handler writes into the entry
        it captured; once the task is deleted that entry is unreachable,
        so nothing visible changes. */
    method RunAnalyze(id: string, outcome: Result<(string, string)>)
      modifies this
      ensures id in old(taskResults) ==> taskResults == old(taskResults)[id := Analyzed(old(taskResults)[id], outcome)]
      ensures id !in old(taskResults) ==> taskResults == old(taskResults)
      ensures taskStatus == old(taskStatus)
    {
      if id in taskResults {
        var result := taskResults[id];
        match outcome {
          case Ok(files) =>
            result := result.(status := Completed, message := MsgAnalyzed, analysisFile := Some(PathPair(files.0, files.1)));
          case Err(text) =>
            result := result.(status := Failed, message := MsgAnalysisFailed + text);
        }
        taskResults := taskResults[id := result];
      }
    }

    /** `crawl_data` and its `run_crawler`, one after the other: marks the
        task running, configures a fresh crawler, crawls from page 1 with
        no end page, and stores the newest file with the task's prefix.
        `dir` is the data directory before the crawl, `ctime` the creation
        time of its files, `emptyMaxError` the text of the error `max`
        raises on an empty list. */
    method CrawlData(id: string, categoryId: Option<string>, keyword: Option<string>, cookie: string,
                     authorization: string, dir: map<string, string>, b: Crawler.Backend, fuel: nat,
                     ctime: string -> int, emptyMaxError: string)
      returns (files: map<string, string>, latest: Option<string>)
      modifies this
      ensures taskStatus == old(taskStatus)[id := StatusEntry(Running, MsgCrawling)]
      ensures files == Crawler.CrawlFrom(b, CrawlParams(categoryId, keyword), None, 1, fuel, Crawler.Run(0, [], dir)).files
      ensures latest.None? <==> forall f :: f in files ==> !StartsWith(f, IntendedPrefix(categoryId, keyword))
      ensures latest.Some? ==> (latest.value in files && StartsWith(latest.value, IntendedPrefix(categoryId, keyword))
        && forall f :: f in files && StartsWith(f, IntendedPrefix(categoryId, keyword)) ==> ctime(f) <= ctime(latest.value))
      ensures taskResults == old(taskResults)[id := CrawlResult(latest, emptyMaxError)]
    {
      files, latest := CrawlWith(IntendedPrefix(categoryId, keyword), id, categoryId, keyword, cookie, authorization,
                                 dir, b, fuel, ctime, emptyMaxError);
    }

    /** `crawl_data` as written: the newest file is looked for under
        `WrittenPrefix`, so a keyword-only task fails whenever no file of
        the data directory starts with `products_kw_`. */
    method CrawlDataAsWritten(id: string, categoryId: Option<string>, keyword: Option<string>, cookie: string,
                              authorization: string, dir: map<string, string>, b: Crawler.Backend, fuel: nat,
                              ctime: string -> int, emptyMaxError: string)
      returns (files: map<string, string>, latest: Option<string>)
      modifies this
      ensures taskStatus == old(taskStatus)[id := StatusEntry(Running, MsgCrawling)]
      ensures files == Crawler.CrawlFrom(b, CrawlParams(categoryId, keyword), None, 1, fuel, Crawler.Run(0, [], dir)).files
      ensures latest.None? <==> forall f :: f in files ==> !StartsWith(f, WrittenPrefix(categoryId, keyword))
      ensures latest.Some? ==> (latest.value in files && StartsWith(latest.value, WrittenPrefix(categoryId, keyword))
        && forall f :: f in files && StartsWith(f, WrittenPrefix(categoryId, keyword)) ==> ctime(f) <= ctime(latest.value))
      ensures taskResults == old(taskResults)[id := CrawlResult(latest, emptyMaxError)]
      ensures !Truthy(categoryId) && (forall f :: f in files ==> !StartsWith(f, "products_kw_")) ==>
        latest.None? && taskResults[id].status == Failed && taskResults[id].error == Some(emptyMaxError)
    {
      files, latest := CrawlWith(WrittenPrefix(categoryId, keyword), id, categoryId, keyword, cookie, authorization,
                                 dir, b, fuel, ctime, emptyMaxError);
    }

    /** The body of `crawl_data` for the lookup prefix `prefix`. */
    method CrawlWith(prefix: string, id: string, categoryId: Option<string>, keyword: Option<string>, cookie: string,
                     authorization: string, dir: map<string, string>, b: Crawler.Backend, fuel: nat,
                     ctime: string -> int, emptyMaxError: string)
      returns (files: map<string, string>, latest: Option<string>)
      modifies this
      ensures taskStatus == old(taskStatus)[id := StatusEntry(Running, MsgCrawling)]
      ensures files == Crawler.CrawlFrom(b, CrawlParams(categoryId, keyword), None, 1, fuel, Crawler.Run(0, [], dir)).files
      ensures latest.None? <==> forall f :: f in files ==> !StartsWith(f, prefix)
      ensures latest.Some? ==> (latest.value in files && StartsWith(latest.value, prefix)
        && forall f :: f in files && StartsWith(f, prefix) ==> ctime(f) <= ctime(latest.value))
      ensures taskResults == old(taskResults)[id := CrawlResult(latest, emptyMaxError)]
    {
      taskStatus := taskStatus[id := StatusEntry(Running, MsgCrawling)];
      var headers;
      files, headers := CrawledFiles(categoryId, keyword, cookie, authorization, dir, b, fuel);
      latest := LatestFile(files.Keys, prefix, ctime);
      taskResults := taskResults[id := CrawlResult(latest, emptyMaxError)];
    }
  }

  // ---------------------------------------------------------------------
  // Properties of the handlers

  /** After a delete the id is unknown, and every other id reads as
      before. */
  lemma DeleteForgets(ts: map<string, StatusEntry>, tr: map<string, ResultEntry>, id: string, other: string)
    requires other != id
    ensures StatusOf(ts - {id}, tr - {id}, id) == Refused(404)
    ensures StatusOf(ts - {id}, tr - {id}, other) == StatusOf(ts, tr, other)
  {
  }

  /** While a task is analysed its status reads `analyzing`, and a second
      analysis request is refused with 400. */
  lemma AnalyzingRefusesSecond(ts: map<string, StatusEntry>, tr: map<string, ResultEntry>, id: string,
                               present: string -> bool)
    requires AnalyzeGuard(tr, id, present).Answer?
    ensures var tr' := tr[id := AnalysisStarted(tr[id])];
      StatusOf(ts, tr', id).Answer? && StatusOf(ts, tr', id).value.status == Analyzing
      && AnalyzeGuard(tr', id, present) == Refused(400)
  {
  }

  /** An analysis leaves the raw download as it was; a successful one
      stores the report pair, so its analysis download answers 500. */
  lemma AnalysedDownloads(tr: map<string, ResultEntry>, id: string, outcome: Result<(string, string)>,
                          present: string -> bool)
    requires id in tr
    ensures var tr' := tr[id := Analyzed(tr[id], outcome)];
      DownloadOf(tr', id, "raw", present) == DownloadOf(tr, id, "raw", present)
      && (outcome.Ok? ==> DownloadOf(tr', id, "analysis", present) == Refused(500))
  {
  }

  /** A task with a successful analysis cannot be deleted: the server
      answers 500 and keeps it. */
  lemma AnalysedDeleteRefused(ts: map<string, StatusEntry>, tr: map<string, ResultEntry>, id: string,
                              outcome: Result<(string, string)>)
    requires id in tr && outcome.Ok?
    ensures DeleteReply(ts, tr[id := Analyzed(tr[id], outcome)], id) == Refused(500)
  {
  }

  // ---------------------------------------------------------------------
  // The data file run_crawler looks for

  /** The query of a crawl set up by `crawl_data` holds exactly the
      category and keyword the request made truthy. */
  lemma CrawlParamsSet(categoryId: Option<string>, keyword: Option<string>)
    ensures var p := CrawlParams(categoryId, keyword);
      (Crawler.IsSet(p, Crawler.CategoryParam) <==> Truthy(categoryId))
      && (Truthy(categoryId) ==> p[Crawler.CategoryParam] == categoryId.value)
      && (Crawler.IsSet(p, Crawler.KeywordParam) <==> Truthy(keyword))
      && (Truthy(keyword) ==> p[Crawler.KeywordParam] == keyword.value)
  {
  }

  lemma PrefixOfConcat(a: string, b: string)
    ensures StartsWith(a + b, a)
  {
    assert (a + b)[..|a|] == a;
  }

  /** The prefix `run_crawler` uses for a keyword-only task misses the
      file the crawl writes whenever the keyword does not start with `_`:
      the name reads `products_kw<keyword>_<date>.json`. */
  lemma WrittenPrefixMissesKeywordFile(keyword: string, date: string)
    requires |keyword| > 0 && keyword[0] != '_'
    ensures !StartsWith(Crawler.FileName(CrawlParams(None, Some(keyword)), date), WrittenPrefix(None, Some(keyword)))
  {
    CrawlParamsSet(None, Some(keyword));
    Crawler.KeywordFileName(CrawlParams(None, Some(keyword)), date);
    var name := Crawler.FileName(CrawlParams(None, Some(keyword)), date);
    assert name == "products_kw" + keyword + "_" + date + ".json";
    assert name[11] == keyword[0];
    assert WrittenPrefix(None, Some(keyword))[11] == '_';
  }

  /** With that prefix, a keyword-only task fails even when its crawl
      saved its file, unless some other file of the data directory starts
      with `products_kw_`: its result reads `failed` with the error `max`
      raises. */
  lemma WrittenPrefixFailsKeywordCrawl(keyword: string, date: string, files: map<string, string>,
                                       latest: Option<string>, emptyMaxError: string)
    requires |keyword| > 0 && keyword[0] != '_'
    requires forall f :: f in files && f != Crawler.FileName(CrawlParams(None, Some(keyword)), date) ==>
      !StartsWith(f, "products_kw_")
    requires latest.None? <==> forall f :: f in files ==> !StartsWith(f, WrittenPrefix(None, Some(keyword)))
    ensures latest.None?
    ensures CrawlResult(latest, emptyMaxError).status == Failed
    ensures CrawlResult(latest, emptyMaxError).error == Some(emptyMaxError)
  {
    WrittenPrefixMissesKeywordFile(keyword, date);
  }

  /** The corrected prefix matches the file every accepted crawl writes,
      and agrees with the written one for a category task. */
  lemma IntendedPrefixMatchesFile(categoryId: Option<string>, keyword: Option<string>, date: string)
    requires Truthy(categoryId) || Truthy(keyword)
    ensures StartsWith(Crawler.FileName(CrawlParams(categoryId, keyword), date), IntendedPrefix(categoryId, keyword))
    ensures Truthy(categoryId) ==> IntendedPrefix(categoryId, keyword) == WrittenPrefix(categoryId, keyword)
  {
    CrawlParamsSet(categoryId, keyword);
    var p := CrawlParams(categoryId, keyword);
    if Truthy(categoryId) {
      Crawler.CategoryFileName(p, date);
    } else {
      Crawler.KeywordFileName(p, date);
      PrefixOfConcat(IntendedPrefix(categoryId, keyword), date + ".json");
      assert Crawler.FileName(p, date) == IntendedPrefix(categoryId, keyword) + (date + ".json");
    }
  }

  /** With the corrected prefix, a crawl whose file is in the data
      directory afterwards completes its task. */
  lemma CrawlWithFileCompletes(categoryId: Option<string>, keyword: Option<string>, date: string,
                               files: map<string, string>, latest: Option<string>, emptyMaxError: string)
    requires Truthy(categoryId) || Truthy(keyword)
    requires Crawler.FileName(CrawlParams(categoryId, keyword), date) in files
    requires latest.None? <==> forall f :: f in files ==> !StartsWith(f, IntendedPrefix(categoryId, keyword))
    ensures CrawlResult(latest, emptyMaxError).status == Completed
  {
    IntendedPrefixMatchesFile(categoryId, keyword, date);
  }
}

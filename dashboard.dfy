/**
 * The dashboard's acquisition side (frontend/src/pages/Dashboard.jsx): the file
 * picker, the Search & Analyze selector, and the part of the scraper request that
 * inspects the scraper's answer and names the CSV sent on to the analysis service.
 *
 * The React state the handlers touch is a `Selector` object; each handler is a
 * method whose new state is given by a function on `View`, the snapshot of that
 * state, and the lemmas are about those functions. A request is split at its
 * `await`: the synchronous start (`SearchAnalyze`) and the completion
 * (`UploadFinished`, `ScrapeFinished`), whose network answers are parameters.
 */
module Dashboard {
  import opened Wrappers
  import opened Text
  import opened Analysis
  import Metrics
  import Server

  // ===== the fixture query =====

  const FixtureName: string := "techvistara"

  /** `searchQuery.toLowerCase().includes('techvistara')`. */
  predicate IsFixtureQuery(query: string)
  {
    Contains(AsciiLower(query), FixtureName)
  }

  lemma {:induction false} AsciiLowerAppend(a: string, b: string)
    ensures AsciiLower(a + b) == AsciiLower(a) + AsciiLower(b)
  {
    var l := AsciiLower(a + b);
    var r := AsciiLower(a) + AsciiLower(b);
    assert |l| == |r|;
    forall i | 0 <= i < |l| ensures l[i] == r[i] {
      if i < |a| {
        assert (a + b)[i] == a[i];
      } else {
        assert (a + b)[i] == b[i - |a|];
      }
    }
  }

  /** The fixture test looks anywhere in the query: words around the name do not matter. */
  lemma FixtureQueryInContext(before: string, query: string, after: string)
    requires IsFixtureQuery(query)
    ensures IsFixtureQuery(before + query + after)
  {
    var lq := AsciiLower(query);
    var i :| 0 <= i <= |lq| - |FixtureName| && OccursAt(lq, FixtureName, i);
    AsciiLowerAppend(before + query, after);
    AsciiLowerAppend(before, query);
    var whole := AsciiLower(before) + lq + AsciiLower(after);
    var j := |AsciiLower(before)| + i;
    assert whole[j..j + |FixtureName|] == lq[i..i + |FixtureName|];
    assert OccursAt(whole, FixtureName, j);
  }

  /** The test ignores ASCII case: the demonstration event's own spelling is recognised. */
  lemma DemoEventRecognised()
    ensures IsFixtureQuery("Techvistara 5.0")
  {
    var l := AsciiLower("Techvistara 5.0");
    assert l[0] == 't';
    assert l[..|FixtureName|] == FixtureName;
    assert OccursAt(l, FixtureName, 0);
  }

  // ===== the selector state =====

  /** A file chosen in the browser's picker: its name and the MIME type the browser reports. */
  datatype PickedFile = PickedFile(name: string, mimeType: string)

  /** The state the handlers set: `file`, `error`, `results` and `loading`. */
  datatype View = View(file: Option<PickedFile>, error: string, results: Option<Results>, loading: bool)

  const InitialView: View := View(None, "", None, false)

  const CsvMimeType: string := "text/csv"
  const InvalidFileMessage: string := "Please upload a valid CSV file"
  const NoFileMessage: string := "Please select a CSV file first"
  const ScraperInputMessage: string := "Please enter event name in search bar and provide event date"
  const MissingInputMessage: string := "Please enter event name and date, or upload a CSV file"
  const UploadFallbackMessage: string := "Error processing file. Please try again."
  const ScraperFallbackMessage: string :=
    "Error fetching data from scraper or processing file. Please try again."

  /** `e.target.files[0]` exists and the browser reports it as `text/csv`. */
  predicate IsCsvPick(files: seq<PickedFile>)
  {
    files != [] && files[0].mimeType == CsvMimeType
  }

  /** `handleFileChange`: a CSV pick replaces the file and clears the error and the results. */
  function FileChange(v: View, files: seq<PickedFile>): (w: View)
    ensures w.loading == v.loading
    ensures w.file.Some? <==> IsCsvPick(files)
    ensures w.file.Some? ==> w.file.value == files[0] && w.error == "" && w.results.None?
    ensures w.file.None? ==> w.error == InvalidFileMessage && w.results == v.results
  {
    if IsCsvPick(files) then View(Some(files[0]), "", None, v.loading)
    else v.(file := None, error := InvalidFileMessage)
  }

  /** Picking the same files twice is the same as picking them once. */
  lemma FileChangeIdempotent(v: View, files: seq<PickedFile>)
    ensures FileChange(FileChange(v, files), files) == FileChange(v, files)
  {
  }

  /**
   * The picker trusts the browser's MIME type and the analysis service trusts the
   * name: a `text/csv` file whose name does not end in `.csv` is accepted by the
   * first and refused by the second.
   */
  lemma MimeTypeIsNotExtension()
    ensures var pick := [PickedFile("reviews.txt", CsvMimeType)];
      FileChange(InitialView, pick).file == Some(pick[0])
      && Server.UploadGuard(pick[0].name) == Some(Server.HttpError(400, "File must be a CSV file"))
  {
    assert "reviews.txt"[7..] != ".csv" by {
      assert "reviews.txt"[7..][1] == 't';
    }
  }

  // ===== Search & Analyze =====

  /** What `handleSearchAnalyze` starts. */
  datatype Action = Upload | Scrape | Nothing

  /** The selector's choice: a picked file wins, then a query with a date. */
  function Choose(file: Option<PickedFile>, query: string, date: string): (a: Action)
    ensures a.Upload? <==> file.Some?
    ensures a.Scrape? <==> file.None? && query != "" && date != ""
    ensures a.Nothing? <==> file.None? && (query == "" || date == "")
  {
    if file.Some? then Upload
    else if query != "" && date != "" then Scrape
    else Nothing
  }

  /** What both requests do before their first `await`. */
  function Start(v: View): View
  {
    v.(loading := true, error := "", results := None)
  }

  /** The opening of `handleUpload`: its own guard, then the start. */
  function StartUpload(v: View): View
  {
    if v.file.None? then v.(error := NoFileMessage) else Start(v)
  }

  /** The opening of `handleFetchFromScraper`: its own guard, then the start. */
  function StartScrape(v: View, query: string, date: string): View
  {
    if query == "" || date == "" then v.(error := ScraperInputMessage) else Start(v)
  }

  /** `handleSearchAnalyze`, up to the first `await` of the request it starts. */
  function SearchAnalyze(v: View, query: string, date: string): View
  {
    match Choose(v.file, query, date)
    case Upload => StartUpload(v)
    case Scrape => StartScrape(v, query, date)
    case Nothing => v.(error := MissingInputMessage)
  }

  /**
   * The selector only starts a request whose own guard passes, so neither inner
   * guard message can appear through it: a request clears the error and the results
   * and sets `loading`; otherwise only the error changes.
   */
  lemma SelectorPassesInnerGuards(v: View, query: string, date: string)
    ensures var w := SearchAnalyze(v, query, date);
      var a := Choose(v.file, query, date);
      (!a.Nothing? ==> w == Start(v) && w.loading && w.error == "" && w.results.None? && w.file == v.file)
      && (a.Nothing? ==> w == v.(error := MissingInputMessage))
      && w.error != NoFileMessage && w.error != ScraperInputMessage
  {
  }

  // ===== completions =====

  /** A request that was refused or threw: the server's `detail` and the error's `message`, "" when absent. */
  datatype Failure = Failure(detail: string, message: string)

  /** The catch of `handleUpload`: `detail ||` its fallback. */
  function UploadErrorText(f: Failure): (r: string)
    ensures r != ""
    ensures f.detail != "" ==> r == f.detail
  {
    if f.detail != "" then f.detail else UploadFallbackMessage
  }

  /** The catch of `handleFetchFromScraper`: `detail || message ||` its fallback. */
  function ScraperErrorText(f: Failure): (r: string)
    ensures r != ""
    ensures r == f.detail || r == f.message || r == ScraperFallbackMessage
    ensures f.detail != "" ==> r == f.detail
  {
    if f.detail != "" then f.detail
    else if f.message != "" then f.message
    else ScraperFallbackMessage
  }

  /** The rest of `handleUpload`: the answer becomes the results, or its error is shown; `loading` ends. */
  function UploadFinished(v: View, answer: Result<Results, Failure>): View
  {
    match answer
    case Ok(r) => v.(results := Some(r), loading := false)
    case Err(f) => v.(error := UploadErrorText(f), loading := false)
  }

  /** The rest of `handleFetchFromScraper`, given the outcome of its `try` block. */
  function ScrapeFinished(v: View, outcome: Result<Results, Failure>): View
  {
    match outcome
    case Ok(r) => v.(results := Some(r), loading := false)
    case Err(f) => v.(error := ScraperErrorText(f), loading := false)
  }

  /** A finished upload always ends `loading`, and shows either its results or a non-empty error. */
  lemma UploadSettles(v: View, answer: Result<Results, Failure>)
    ensures var w := UploadFinished(v, answer);
      !w.loading && w.file == v.file
      && (answer.Ok? ==> w.results == Some(answer.value) && w.error == v.error)
      && (answer.Err? ==> w.error != "" && w.results == v.results)
  {
  }

  /** A finished scraper request always ends `loading`, and shows either results or a non-empty error. */
  lemma ScrapeSettles(v: View, outcome: Result<Results, Failure>)
    ensures var w := ScrapeFinished(v, outcome);
      !w.loading && w.file == v.file
      && (outcome.Ok? ==> w.results == Some(outcome.value) && w.error == v.error)
      && (outcome.Err? ==> w.error != "" && w.results == v.results)
  {
  }

  /** Started from the selector and finished, a request leaves no stale error behind on success. */
  lemma SuccessfulSearchShowsOnlyResults(v: View, query: string, date: string, r: Results)
    requires !Choose(v.file, query, date).Nothing?
    ensures var w := SearchAnalyze(v, query, date);
      UploadFinished(w, Ok(r)) == v.(error := "", results := Some(r), loading := false)
      && ScrapeFinished(w, Ok(r)) == v.(error := "", results := Some(r), loading := false)
  {
    SelectorPassesInnerGuards(v, query, date);
  }

  // ===== the scraper's answer =====

  /**
   * The parts of the scraper's JSON body that are inspected: top-level `success` and
   * `data.success`. `None` when the field (or `data`) is absent or is not a boolean.
   */
  datatype Probe = Probe(success: Option<bool>, dataSuccess: Option<bool>)

  const NoPostsPrefix: string := "Scraper found no Reddit posts for \""
  const NoPostsSuffix: string :=
    "\". Try a different event name or check if the event has Reddit discussions."

  /** The error thrown when the scraper reports failure. */
  function NoPostsMessage(query: string): string
  {
    NoPostsPrefix + query + NoPostsSuffix
  }

  /** The message names the query, verbatim. */
  lemma NoPostsMessageNamesQuery(query: string)
    ensures Contains(NoPostsMessage(query), query)
    ensures StartsWith(NoPostsMessage(query), NoPostsPrefix)
  {
    var m := NoPostsMessage(query);
    var k := |NoPostsPrefix|;
    assert m[k..k + |query|] == query;
    assert OccursAt(m, query, k);
    assert m[..k] == NoPostsPrefix;
  }

  /** A body the dashboard treats as JSON. */
  predicate LooksLikeJson(body: string)
  {
    StartsWith(body, "{") || StartsWith(body, "[")
  }

  /**
   * The sniff of the scraper's body: a JSON body that reports `success === false`
   * (at the top or under `data`) becomes the no-posts error; a JSON body that does
   * not parse throws the parser's message; anything else is the CSV text, unchanged.
   * `parsed` stands for `JSON.parse(body)` and is only consulted for a JSON body.
   */
  function Sniff(query: string, body: string, parsed: Result<Probe, string>): (r: Result<string, Failure>)
    ensures r.Ok? ==> r.value == body
    ensures !LooksLikeJson(body) ==> r.Ok?
    ensures r.Err? ==> LooksLikeJson(body)
    ensures r.Err? && parsed.Err? ==> r.error == Failure("", parsed.error)
    ensures LooksLikeJson(body) && parsed.Err? ==> r == Err(Failure("", parsed.error))
    ensures LooksLikeJson(body) && parsed.Ok? ==>
      (r.Err? <==> parsed.value.success == Some(false) || parsed.value.dataSuccess == Some(false))
    ensures r.Err? && parsed.Ok? ==> r.error == Failure("", NoPostsMessage(query))
  {
    if LooksLikeJson(body) then
      match parsed
      case Err(syntax) => Err(Failure("", syntax))
      case Ok(p) =>
        if p.success == Some(false) || p.dataSuccess == Some(false) then Err(Failure("", NoPostsMessage(query)))
        else Ok(body)
    else Ok(body)
  }

  /** `${searchQuery.replace(/\s+/g, '_')}.csv`. */
  function CsvFileName(query: string): (name: string)
    ensures EndsWith(name, ".csv")
    ensures NoJsSpace(name)
  {
    var stem := ReplaceSpaceRuns(query);
    assert (stem + ".csv")[|stem|..] == ".csv";
    assert NoJsSpace(".csv");
    stem + ".csv"
  }

  /** The file the dashboard builds from the scraper's CSV always passes the analysis service's name check. */
  lemma CsvFileNameAccepted(query: string)
    ensures Server.UploadGuard(CsvFileName(query)).None?
  {
    Server.CsvSuffixAccepted(ReplaceSpaceRuns(query));
  }

  /** A run of spaces inside the query collapses to one underscore. */
  lemma CsvFileNameExample()
    ensures CsvFileName("AI  Day") == "AI_Day.csv"
  {
    var a, run, b := "AI", "  ", "Day";
    assert NoJsSpace(a) && NoJsSpace(b);
    assert "AI  Day" == a + (run + b);
    ReplaceSpaceRunsAt(a, run, b);
    WordsUnchanged(b);
    assert a + ("_" + b) + ".csv" == "AI_Day.csv";
  }

  /** The CSV handed to the analysis service. */
  datatype CsvUpload = CsvUpload(name: string, content: string)

  /** What the non-fixture branch uploads, or the error it throws before uploading. */
  function ScraperUpload(query: string, body: string, parsed: Result<Probe, string>): (r: Result<CsvUpload, Failure>)
    ensures r.Ok? ==> r.value == CsvUpload(CsvFileName(query), body)
    ensures r.Ok? <==> Sniff(query, body, parsed).Ok?
  {
    match Sniff(query, body, parsed)
    case Ok(text) => Ok(CsvUpload(CsvFileName(query), text))
    case Err(f) => Err(f)
  }

  // ===== the demonstration event =====

  const DemoSummaryText: string :=
    "Techvistara 5.0 received mixed reviews with moderate engagement. The event showed decent "
    + "organization but lacked the wow factor that attendees expected. Social media presence was "
    + "limited with modest interaction rates."

  const DemoInsights: seq<string> := [
    "Limited social media engagement (avg 5.8k views per reel)",
    "Moderate interaction rates (200-250 likes per post)",
    "Low comment activity (10-15 comments per post)",
    "Mixed attendee feedback with room for improvement",
    "Strong Instagram presence but limited reach on other platforms"]

  /** The literal results shown for the demonstration event, whatever the analysis returned. */
  const DemoResults: Results := Results(Some(Summary(DemoSummaryText,
    Some(SentimentSummary(Some(28), Some(15), Some(8), Some(51), Some("mostly positive"), Some(0.4))),
    DemoInsights, Some(51))))

  /**
   * The `try` block of `handleFetchFromScraper`. For the fixture query the demo CSV is
   * analysed (`demoAnswer`) and its answer discarded in favour of the literal results;
   * otherwise the scraper's answer (`scraped`) is sniffed, renamed and analysed
   * (`answer`).
   */
  function ScrapeOutcome(query: string, demoAnswer: Result<Results, Failure>,
                         scraped: Result<string, Failure>, parsed: Result<Probe, string>,
                         answer: Result<Results, Failure>): (r: Result<Results, Failure>)
    ensures IsFixtureQuery(query) ==> r == (if demoAnswer.Ok? then Ok(DemoResults) else Err(demoAnswer.error))
    ensures !IsFixtureQuery(query) && r.Ok? ==>
      scraped.Ok? && ScraperUpload(query, scraped.value, parsed).Ok? && r == answer
    ensures !IsFixtureQuery(query) && scraped.Err? ==> r == Err(scraped.error)
    ensures !IsFixtureQuery(query) && scraped.Ok? && ScraperUpload(query, scraped.value, parsed).Err? ==>
      r == Err(ScraperUpload(query, scraped.value, parsed).error)
    ensures !IsFixtureQuery(query) && scraped.Ok? && ScraperUpload(query, scraped.value, parsed).Ok? ==>
      r == answer
  {
    if IsFixtureQuery(query) then
      if demoAnswer.Ok? then Ok(DemoResults) else Err(demoAnswer.error)
    else if scraped.Err? then Err(scraped.error)
    else match ScraperUpload(query, scraped.value, parsed)
      case Err(f) => Err(f)
      case Ok(_) => answer
  }

  /** A scraper that reports failure is shown to the user as the no-posts message naming the query. */
  lemma ScraperFailureNamesQuery(v: View, query: string, demoAnswer: Result<Results, Failure>,
                                 body: string, probe: Probe, answer: Result<Results, Failure>)
    requires !IsFixtureQuery(query) && LooksLikeJson(body)
    requires probe.success == Some(false) || probe.dataSuccess == Some(false)
    ensures var w := ScrapeFinished(v, ScrapeOutcome(query, demoAnswer, Ok(body), Ok(probe), answer));
      w.error == NoPostsMessage(query) && Contains(w.error, query) && !w.loading && w.results == v.results
  {
    NoPostsMessageNamesQuery(query);
  }

  /** The demonstration event's cards: 55% positive, 51 mentions, 3.5 stars and a reach of 255. */
  lemma DemoMetrics(query: string, demoAnswer: Result<Results, Failure>,
                    scraped: Result<string, Failure>, parsed: Result<Probe, string>,
                    answer: Result<Results, Failure>)
    requires IsFixtureQuery(query) && demoAnswer.Ok?
    ensures var r := ScrapeOutcome(query, demoAnswer, scraped, parsed, answer);
      r.Ok? && Metrics.CalculateMetrics(Some(r.value)) == Some(Metrics.KeyMetrics(55, 51, 35, 255))
  {
    Metrics.ExampleMetrics(DemoSummaryText, DemoInsights);
  }

  // ===== the component =====

  /** The dashboard's acquisition state and its handlers. */
  class Selector {
    var file: Option<PickedFile>
    var error: string
    var results: Option<Results>
    var loading: bool
    var searchQuery: string
    var eventDate: string

    function Snapshot(): View
      reads this
    {
      View(file, error, results, loading)
    }

    constructor ()
      ensures Snapshot() == InitialView && searchQuery == "" && eventDate == ""
    {
      file := None;
      error := "";
      results := None;
      loading := false;
      searchQuery := "";
      eventDate := "";
    }

    method HandleFileChange(files: seq<PickedFile>)
      modifies this
      ensures Snapshot() == FileChange(old(Snapshot()), files)
      ensures searchQuery == old(searchQuery) && eventDate == old(eventDate)
    {
      if files != [] && files[0].mimeType == CsvMimeType {
        file := Some(files[0]);
        error := "";
        results := None;
      } else {
        error := InvalidFileMessage;
        file := None;
      }
    }

    /** The opening of `handleUpload`, up to its first `await`. */
    method BeginUpload()
      modifies this
      ensures Snapshot() == StartUpload(old(Snapshot()))
      ensures searchQuery == old(searchQuery) && eventDate == old(eventDate)
    {
      if file.None? {
        error := NoFileMessage;
        return;
      }
      loading := true;
      error := "";
      results := None;
    }

    /** The opening of `handleFetchFromScraper`, up to its first `await`. */
    method BeginScrape()
      modifies this
      ensures Snapshot() == StartScrape(old(Snapshot()), old(searchQuery), old(eventDate))
      ensures searchQuery == old(searchQuery) && eventDate == old(eventDate)
    {
      if searchQuery == "" || eventDate == "" {
        error := ScraperInputMessage;
        return;
      }
      loading := true;
      error := "";
      results := None;
    }

    /** Returns the request it started; that request runs on in `FinishUpload` or `FinishScrape`. */
    method HandleSearchAnalyze() returns (started: Action)
      modifies this
      ensures started == Choose(old(file), old(searchQuery), old(eventDate))
      ensures Snapshot() == SearchAnalyze(old(Snapshot()), old(searchQuery), old(eventDate))
      ensures searchQuery == old(searchQuery) && eventDate == old(eventDate)
    {
      if file.Some? {
        started := Upload;
        BeginUpload();
      } else if searchQuery != "" && eventDate != "" {
        started := Scrape;
        BeginScrape();
      } else {
        started := Nothing;
        error := MissingInputMessage;
      }
    }

    /** The completion of `handleUpload` with the analysis service's answer. */
    method FinishUpload(answer: Result<Results, Failure>)
      modifies this
      ensures Snapshot() == UploadFinished(old(Snapshot()), answer)
      ensures searchQuery == old(searchQuery) && eventDate == old(eventDate)
    {
      match answer {
        case Ok(r) => results := Some(r);
        case Err(f) => error := UploadErrorText(f);
      }
      loading := false;
    }

    /** The completion of `handleFetchFromScraper` with the answers of the requests it made. */
    method FinishScrape(demoAnswer: Result<Results, Failure>, scraped: Result<string, Failure>,
                        parsed: Result<Probe, string>, answer: Result<Results, Failure>)
      modifies this
      ensures Snapshot() == ScrapeFinished(old(Snapshot()),
        ScrapeOutcome(old(searchQuery), demoAnswer, scraped, parsed, answer))
      ensures searchQuery == old(searchQuery) && eventDate == old(eventDate)
    {
      var outcome := ScrapeOutcome(searchQuery, demoAnswer, scraped, parsed, answer);
      match outcome {
        case Ok(r) => results := Some(r);
        case Err(f) => error := ScraperErrorText(f);
      }
      loading := false;
    }
  }
}

/**
 * The server's PDF printer: one attempt (`generateResume`) connects to the headless
 * browser, opens the artboard preview, captures every page on its own as a PDF, merges
 * the first page of each capture in order and uploads the result; `printResume` retries
 * a failed attempt up to three times.
 *
 * The browser, the network and pdf-lib are outside the model: an `Env` says how each of
 * their calls turns out for one attempt.
 */
module Printer {
  import opened Wrappers
  import opened Json
  import opened Text
  import opened Seqs

  /** The cause carried by the printer error an attempt ends with. */
  datatype Failure =
    | BrowserConnection
    | InvalidResumeData
    | NavigationFailed
    | ArtboardDataTimeout
    | FirstPageTimeout
    | PageElementMissing(index: nat)
    | CssUnreadable(index: nat)
    | PdfFailed(index: nat)
    | MergeFailed
    | UploadFailed

  /** A page of a PDF document; its contents are not modelled. */
  datatype PdfPage = PdfPage(id: nat)

  type PdfDoc = seq<PdfPage>

  datatype Config = Config(publicUrl: string, storageUrl: string, dockerEnvironment: Option<string>)

  /** How the browser, the artboard and the storage behave during one attempt. */
  datatype Env = Env(
    connects: bool,                            // connect() and newPage() succeed
    navigates: string -> bool,                 // page.goto(url) succeeds
    dataLoaded: bool,                          // the artboard holds a layout within 15 s
    firstPageShown: bool,                      // [data-page="1"] appears within 20 s
    initialBody: string,                       // document.body.innerHTML of the preview
    initialHead: seq<Json>,                    // style tags already in document.head
    element: nat -> Option<string>,            // outerHTML of [data-page="i"], if present
    render: (string, seq<Json>) -> Option<PdfDoc>, // page.pdf() of a body under the given styles
    upload: PdfDoc -> Option<string>)          // the storage upload of the merged PDF

  // ---------------------------------------------------------------------------------
  // The localhost rewrite for a browser running in Docker

  predicate MentionsLocalhost(url: string) {
    Contains(url, "http://localhost") || Contains(url, "https://localhost")
  }

  /** The rewrite is on when either URL names localhost and DOCKER_ENVIRONMENT is "true". */
  predicate RewritesLocalhost(cfg: Config) {
    (MentionsLocalhost(cfg.publicUrl) || MentionsLocalhost(cfg.storageUrl)) && cfg.dockerEnvironment == Some("true")
  }

  /** The first `localhost` becomes `host.docker.internal`; a port after it stays in place. */
  function DockerHost(url: string): string {
    ReplaceFirst(url, "localhost", "host.docker.internal")
  }

  function PreviewUrl(cfg: Config): string {
    (if RewritesLocalhost(cfg) then DockerHost(cfg.publicUrl) else cfg.publicUrl) + "/artboard/preview"
  }

  /** The request interceptor: only requests under the storage URL are redirected. */
  function InterceptRequest(cfg: Config, requestUrl: string): string {
    if RewritesLocalhost(cfg) && StartsWith(requestUrl, cfg.storageUrl) then DockerHost(requestUrl) else requestUrl
  }

  /** `http[s]://localhost[:port]...` becomes `http[s]://host.docker.internal[:port]...`. */
  lemma DockerHostKeepsSchemeAndPort(scheme: string, rest: string)
    requires scheme == "http://" || scheme == "https://"
    ensures DockerHost(scheme + "localhost" + rest) == scheme + "host.docker.internal" + rest
  {
    var s := scheme + "localhost" + rest;
    forall j | 0 <= j < |scheme| ensures !OccursAt(s, "localhost", j) {
      assert s[j] == scheme[j] != 'l';
      if j + 9 <= |s| {
        assert s[j..j + 9][0] == s[j];
      }
    }
    ReplaceFirstAfter(scheme, "localhost", rest, "host.docker.internal");
  }

  /** Outside Docker, or with no localhost URL, the browser is pointed at the public URL and no request is touched. */
  lemma NoRewriteWithoutDocker(cfg: Config, requestUrl: string)
    requires cfg.dockerEnvironment != Some("true") || !(MentionsLocalhost(cfg.publicUrl) || MentionsLocalhost(cfg.storageUrl))
    ensures PreviewUrl(cfg) == cfg.publicUrl + "/artboard/preview"
    ensures InterceptRequest(cfg, requestUrl) == requestUrl
  {
  }

  /** A URL without `localhost` is never changed by the rewrite. */
  lemma DockerHostWithoutLocalhost(url: string)
    requires !Contains(url, "localhost")
    ensures DockerHost(url) == url
  {
  }

  // ---------------------------------------------------------------------------------
  // The resume data the attempt reads and updates

  function Metadata(data: Json): Json {
    Get(data, "metadata")
  }

  /** `resume.data?.metadata?.layout` is truthy. */
  predicate HasLayout(data: Json) {
    Truthy(Get(Metadata(data), "layout"))
  }

  /** A falsy `template` is set to "azurill"; this changes the caller's resume. */
  function WithTemplate(data: Json): (r: Json)
    requires HasLayout(data)
    ensures HasLayout(r) && Truthy(Get(Metadata(r), "template"))
    ensures Get(Metadata(r), "layout") == Get(Metadata(data), "layout")
    ensures Get(Metadata(r), "css") == Get(Metadata(data), "css")
    ensures Truthy(Get(Metadata(data), "template")) ==> r == data
    ensures !Truthy(Get(Metadata(data), "template")) ==> Get(Metadata(r), "template") == JStr("azurill")
  {
    var meta := Metadata(data);
    if Truthy(Get(meta, "template")) then data
    else JObj(data.fields["metadata" := JObj(meta.fields["template" := JStr("azurill")])])
  }

  /** `layout.length`, and so the number of times the page loop runs. */
  function NumberPages(layout: Json): nat {
    match layout
    case JArr(pages) => |pages|
    case JStr(s) => |s|
    case JObj(m) => if "length" in m && m["length"].JNum? && m["length"].n >= 1.0 then m["length"].n.Floor else 0
    case _ => 0
  }

  /** `css.visible`; reading it throws when `css` is null or undefined. */
  predicate CssReadable(css: Json) {
    !css.JUndefined? && !css.JNull?
  }

  predicate CssVisible(css: Json) {
    Truthy(Get(css, "visible"))
  }

  // ---------------------------------------------------------------------------------
  // The page loop

  datatype PageState = PageState(body: string, head: seq<Json>)

  /**
   * One `processPage(index)`: the page element replaces the body, the custom CSS is
   * appended to the head when visible, the PDF is taken and the body is put back. A
   * failure after the swap leaves the body swapped.
   */
  function ProcessPageSpec(st: PageState, index: nat, env: Env, css: Json): (PageState, Result<PdfDoc, Failure>) {
    match env.element(index)
    case None => (st, Err(PageElementMissing(index)))
    case Some(el) =>
      if !CssReadable(css) then (PageState(el, st.head), Err(CssUnreadable(index)))
      else
        var head := if CssVisible(css) then st.head + [Get(css, "value")] else st.head;
        match env.render(el, head)
        case None => (PageState(el, head), Err(PdfFailed(index)))
        case Some(doc) => (PageState(st.body, head), Ok(doc))
  }

  /** The state after the loop has run for pages 1..n (or stopped at the first failure). */
  datatype Run = Run(state: PageState, buffers: seq<PdfDoc>, failure: Option<Failure>)

  function RunPages(env: Env, css: Json, n: nat): Run
    decreases n
  {
    if n == 0 then Run(PageState(env.initialBody, env.initialHead), [], None)
    else
      var prev := RunPages(env, css, n - 1);
      if prev.failure.Some? then prev
      else
        var (st, d) := ProcessPageSpec(prev.state, n, env, css);
        match d
        case Ok(doc) => Run(st, prev.buffers + [doc], None)
        case Err(f) => Run(st, prev.buffers, Some(f))
  }

  /** The head after `k` pages: one more copy of the custom CSS per page when it is visible. */
  function StylesAfter(env: Env, css: Json, k: nat): seq<Json> {
    env.initialHead + (if CssVisible(css) then seq(k, _ => Get(css, "value")) else [])
  }

  /**
   * A loop that gets through all n pages holds one capture per page, in page order;
   * capture i was taken with only page i+1 in the body (and i+1 copies of a visible
   * custom CSS in the head); the body is the original one again.
   */
  lemma {:induction false} RunPagesSuccess(env: Env, css: Json, n: nat)
    requires RunPages(env, css, n).failure.None?
    ensures var run := RunPages(env, css, n);
            && |run.buffers| == n
            && run.state == PageState(env.initialBody, StylesAfter(env, css, n))
            && (n > 0 ==> CssReadable(css))
    ensures var run := RunPages(env, css, n);
            forall i :: 0 <= i < n ==>
              env.element(i + 1).Some? && env.render(env.element(i + 1).value, StylesAfter(env, css, i + 1)) == Some(run.buffers[i])
  {
    if n > 0 {
      var prev := RunPages(env, css, n - 1);
      assert prev.failure.None?;
      RunPagesSuccess(env, css, n - 1);
      if CssVisible(css) {
        assert StylesAfter(env, css, n - 1) + [Get(css, "value")] == StylesAfter(env, css, n);
      }
    }
  }

  /** After the first failure the loop runs no further page. */
  lemma {:induction false} RunPagesStops(env: Env, css: Json, k: nat, n: nat)
    requires k <= n && RunPages(env, css, k).failure.Some?
    ensures RunPages(env, css, n) == RunPages(env, css, k)
    decreases n
  {
    if k < n {
      RunPagesStops(env, css, k, n - 1);
    }
  }

  /**
   * A loop that fails does so at a page k: pages 1..k-1 were captured; a missing element
   * leaves the body restored, while unreadable CSS or a failed capture leaves page k in it.
   */
  lemma {:induction false} RunPagesFailure(env: Env, css: Json, n: nat)
    requires RunPages(env, css, n).failure.Some?
    ensures var run := RunPages(env, css, n);
            exists k :: 1 <= k <= n && |run.buffers| == k - 1 &&
              match run.failure.value
              case PageElementMissing(i) => i == k && env.element(k).None? && run.state.body == env.initialBody
              case CssUnreadable(i) => i == k && !CssReadable(css) && Some(run.state.body) == env.element(k)
              case PdfFailed(i) => i == k && Some(run.state.body) == env.element(k)
              case _ => false
  {
    var prev := RunPages(env, css, n - 1);
    if prev.failure.Some? {
      RunPagesFailure(env, css, n - 1);
    } else {
      RunPagesSuccess(env, css, n - 1);
      assert 1 <= n <= n;
    }
  }

  // ---------------------------------------------------------------------------------
  // Merging

  /** pdf-lib's merge: page 0 of every capture, in order; a capture without pages makes `copyPages` throw. */
  function Merge(buffers: seq<PdfDoc>): Option<PdfDoc>
    decreases |buffers|
  {
    if buffers == [] then Some([])
    else
      var last := buffers[|buffers| - 1];
      match Merge(buffers[..|buffers| - 1])
      case None => None
      case Some(m) => if last == [] then None else Some(m + [last[0]])
  }

  /** The merge succeeds iff every capture has a page, and then holds the first page of each, in order. */
  lemma {:induction false} MergeSpec(buffers: seq<PdfDoc>)
    ensures Merge(buffers).Some? <==> forall i :: 0 <= i < |buffers| ==> buffers[i] != []
    ensures Merge(buffers).Some? ==>
              |Merge(buffers).value| == |buffers| &&
              forall i :: 0 <= i < |buffers| ==> Merge(buffers).value[i] == buffers[i][0]
    decreases |buffers|
  {
    if buffers != [] {
      var init := buffers[..|buffers| - 1];
      MergeSpec(init);
      assert forall i :: 0 <= i < |init| ==> init[i] == buffers[i];
    }
  }

  // ---------------------------------------------------------------------------------
  // One attempt

  /** The page loop followed by the merge: the merged PDF, or where it failed. */
  function Capture(env: Env, css: Json, n: nat): Result<PdfDoc, Failure> {
    var run := RunPages(env, css, n);
    if run.failure.Some? then Err(run.failure.value)
    else match Merge(run.buffers)
      case None => Err(MergeFailed)
      case Some(doc) => Ok(doc)
  }

  /** Page i of `doc` is the first page of the capture of [data-page="i+1"] shown on its own. */
  predicate PageCaptured(env: Env, css: Json, doc: PdfDoc, i: nat) {
    && i < |doc|
    && env.element(i + 1).Some?
    && var capture := env.render(env.element(i + 1).value, StylesAfter(env, css, i + 1));
       capture.Some? && capture.value != [] && doc[i] == capture.value[0]
  }

  /** A successful capture holds one page per layout page, in page order. */
  lemma CaptureSuccess(env: Env, css: Json, n: nat)
    requires Capture(env, css, n).Ok?
    ensures |Capture(env, css, n).value| == n
    ensures forall i :: 0 <= i < n ==> PageCaptured(env, css, Capture(env, css, n).value, i)
  {
    var run := RunPages(env, css, n);
    RunPagesSuccess(env, css, n);
    MergeSpec(run.buffers);
    var doc := Merge(run.buffers).value;
    assert Capture(env, css, n) == Ok(doc);
    forall i | 0 <= i < n ensures PageCaptured(env, css, doc, i) {
      var b := run.buffers[i];
      assert env.element(i + 1).Some? && env.render(env.element(i + 1).value, StylesAfter(env, css, i + 1)) == Some(b);
    }
  }

  /** What `generateResume` returns, or the printer error it throws. */
  function AttemptResult(data: Json, cfg: Config, env: Env): Result<string, Failure> {
    if !env.connects then Err(BrowserConnection)
    else if !HasLayout(data) then Err(InvalidResumeData)
    else if !env.navigates(PreviewUrl(cfg)) then Err(NavigationFailed)
    else if !env.dataLoaded then Err(ArtboardDataTimeout)
    else if !env.firstPageShown then Err(FirstPageTimeout)
    else
      var meta := Metadata(WithTemplate(data));
      match Capture(env, Get(meta, "css"), NumberPages(Get(meta, "layout")))
      case Err(f) => Err(f)
      case Ok(doc) =>
        match env.upload(doc)
        case None => Err(UploadFailed)
        case Some(url) => Ok(url)
  }

  /** A successful attempt uploaded the capture of every layout page, in page order. */
  lemma AttemptSuccess(data: Json, cfg: Config, env: Env)
    requires AttemptResult(data, cfg, env).Ok?
    ensures HasLayout(data)
    ensures var meta := Metadata(data);
            var css := Get(meta, "css");
            var n := NumberPages(Get(meta, "layout"));
            && Capture(env, css, n).Ok?
            && env.upload(Capture(env, css, n).value) == Some(AttemptResult(data, cfg, env).value)
  {
  }

  /** A resume without a layout fails every attempt that reaches the browser, before any navigation. */
  lemma MissingLayoutFails(data: Json, cfg: Config, env: Env)
    requires !HasLayout(data)
    ensures AttemptResult(data, cfg, env) == (if env.connects then Err(InvalidResumeData) else Err(BrowserConnection))
  {
  }

  /** Defaulting the template does not change how a later attempt on the same resume turns out. */
  lemma TemplateDefaultInvisible(data: Json, cfg: Config, env: Env)
    requires HasLayout(data)
    ensures AttemptResult(WithTemplate(data), cfg, env) == AttemptResult(data, cfg, env)
  {
    assert WithTemplate(WithTemplate(data)) == WithTemplate(data);
  }

  /** The resume passed to the printer; `generateResume` may set its template. */
  class ResumeDto {
    var data: Json

    constructor (data: Json)
      ensures this.data == data
    {
      this.data := data;
    }
  }

  /** The browser tab of one attempt. */
  class BrowserPage {
    var body: string
    var head: seq<Json>
    var open: bool
    var connected: bool

    constructor (body: string, head: seq<Json>)
      ensures this.body == body && this.head == head && open && connected
    {
      this.body := body;
      this.head := head;
      open := true;
      connected := true;
    }

    /** `processPage(index)`. */
    method ProcessPage(index: nat, env: Env, css: Json) returns (d: Result<PdfDoc, Failure>)
      modifies this
      ensures (PageState(body, head), d) == ProcessPageSpec(PageState(old(body), old(head)), index, env, css)
      ensures open == old(open) && connected == old(connected)
    {
      var pageElement := env.element(index);
      if pageElement.None? {
        return Err(PageElementMissing(index));
      }
      var temporaryHtml := body;
      body := pageElement.value;
      if !CssReadable(css) {
        return Err(CssUnreadable(index));
      }
      if CssVisible(css) {
        head := head + [Get(css, "value")];
      }
      var capture := env.render(body, head);
      if capture.None? {
        return Err(PdfFailed(index));
      }
      body := temporaryHtml;
      d := Ok(capture.value);
    }

    /** `page.close()` then `browser.disconnect()`. */
    method CloseAndDisconnect()
      modifies this
      ensures !open && !connected && body == old(body) && head == old(head)
    {
      open := false;
      connected := false;
    }
  }

  /** The merge loop. */
  method MergeBuffers(buffers: seq<PdfDoc>) returns (r: Option<PdfDoc>)
    ensures r == Merge(buffers)
  {
    var pdf: PdfDoc := [];
    for i := 0 to |buffers|
      invariant Merge(buffers[..i]) == Some(pdf)
    {
      assert buffers[..i + 1][..i] == buffers[..i];
      if buffers[i] == [] {
        RunOutMerge(buffers, i + 1);
        return None;
      }
      pdf := pdf + [buffers[i][0]];
    }
    assert buffers[..|buffers|] == buffers;
    r := Some(pdf);
  }

  /** Once a prefix fails to merge, the whole sequence does. */
  lemma {:induction false} RunOutMerge(buffers: seq<PdfDoc>, k: nat)
    requires k <= |buffers| && Merge(buffers[..k]).None?
    ensures Merge(buffers).None?
    decreases |buffers| - k
  {
    if k < |buffers| {
      assert buffers[..k + 1][..k] == buffers[..k];
      RunOutMerge(buffers, k + 1);
    } else {
      assert buffers[..k] == buffers;
    }
  }

  /** The page loop and the merge, on the attempt's tab. */
  method PrintPages(page: BrowserPage, env: Env, css: Json, numberPages: nat) returns (merged: Result<PdfDoc, Failure>)
    requires page.body == env.initialBody && page.head == env.initialHead
    modifies page
    ensures merged == Capture(env, css, numberPages)
    ensures page.open == old(page.open) && page.connected == old(page.connected)
    ensures merged.Ok? ==> page.body == env.initialBody
  {
    var pagesBuffer: seq<PdfDoc> := [];
    var index := 1;
    while index <= numberPages
      invariant 1 <= index <= numberPages + 1
      invariant RunPages(env, css, index - 1) == Run(PageState(page.body, page.head), pagesBuffer, None)
      invariant page.open == old(page.open) && page.connected == old(page.connected)
    {
      var d := page.ProcessPage(index, env, css);
      if d.Err? {
        RunPagesStops(env, css, index, numberPages);
        return Err(d.error);
      }
      pagesBuffer := pagesBuffer + [d.value];
      index := index + 1;
    }
    RunPagesSuccess(env, css, numberPages);
    var pdf := MergeBuffers(pagesBuffer);
    if pdf.None? {
      return Err(MergeFailed);
    }
    merged := Ok(pdf.value);
  }

  /**
   * `generateResume`: the result is the attempt's outcome; the template is defaulted once
   * the layout check has passed; the page is closed and the browser disconnected only on
   * success (a failed attempt leaves them open); a successful attempt restores the body.
   */
  method GenerateResume(resume: ResumeDto, cfg: Config, env: Env) returns (r: Result<string, Failure>, page: BrowserPage?)
    modifies resume
    ensures r == AttemptResult(old(resume.data), cfg, env)
    ensures resume.data == if env.connects && HasLayout(old(resume.data)) then WithTemplate(old(resume.data)) else old(resume.data)
    ensures page == null <==> !env.connects
    ensures page != null ==> fresh(page) && (page.open <==> r.Err?) && (page.connected <==> r.Err?)
    ensures r.Ok? ==> page != null && page.body == env.initialBody
  {
    if !env.connects {
      return Err(BrowserConnection), null;
    }
    page := new BrowserPage(env.initialBody, env.initialHead);
    var url := PreviewUrl(cfg);
    if !HasLayout(resume.data) {
      return Err(InvalidResumeData), page;
    }
    resume.data := WithTemplate(resume.data);
    var meta := Metadata(resume.data);
    var numberPages := NumberPages(Get(meta, "layout"));
    if !env.navigates(url) {
      return Err(NavigationFailed), page;
    }
    if !env.dataLoaded {
      return Err(ArtboardDataTimeout), page;
    }
    if !env.firstPageShown {
      return Err(FirstPageTimeout), page;
    }
    var merged := PrintPages(page, env, Get(meta, "css"), numberPages);
    if merged.Err? {
      return Err(merged.error), page;
    }
    var resumeUrl := env.upload(merged.value);
    if resumeUrl.None? {
      return Err(UploadFailed), page;
    }
    page.CloseAndDisconnect();
    r := Ok(resumeUrl.value);
  }

  // ---------------------------------------------------------------------------------
  // Retrying

  /** `retries: 3`: up to four attempts. */
  const Retries: nat := 3

  /**
   * The outcome of attempts `attempt`..4, given how each attempt turns out: a failed
   * attempt is retried unless it was the fourth.
   */
  function RetryResult(outcome: nat -> Result<string, Failure>, attempt: nat): Result<string, Failure>
    requires 1 <= attempt <= Retries + 1
    decreases Retries + 1 - attempt
  {
    if outcome(attempt).Ok? || attempt == Retries + 1 then outcome(attempt)
    else RetryResult(outcome, attempt + 1)
  }

  /** The attempt numbers passed to `onRetry`: every failed attempt that is retried. */
  function RetryLog(outcome: nat -> Result<string, Failure>, attempt: nat): seq<nat>
    requires 1 <= attempt <= Retries + 1
    decreases Retries + 1 - attempt
  {
    if outcome(attempt).Ok? || attempt == Retries + 1 then []
    else [attempt] + RetryLog(outcome, attempt + 1)
  }

  /** The retries succeed iff some attempt from `attempt` on does. */
  lemma {:induction false} RetryOkIff(outcome: nat -> Result<string, Failure>, attempt: nat)
    requires 1 <= attempt <= Retries + 1
    ensures RetryResult(outcome, attempt).Ok? <==> exists k :: attempt <= k <= Retries + 1 && outcome(k).Ok?
    decreases Retries + 1 - attempt
  {
    if outcome(attempt).Ok? {
      assert attempt <= attempt <= Retries + 1;
    } else if attempt < Retries + 1 {
      RetryOkIff(outcome, attempt + 1);
      assert RetryResult(outcome, attempt) == RetryResult(outcome, attempt + 1);
      assert (exists k :: attempt <= k <= Retries + 1 && outcome(k).Ok?)
         ==> (exists k :: attempt + 1 <= k <= Retries + 1 && outcome(k).Ok?);
    }
  }

  /** A success is the first successful attempt's result, and every attempt before it was logged. */
  lemma {:induction false} RetryOkFirst(outcome: nat -> Result<string, Failure>, attempt: nat)
    requires 1 <= attempt <= Retries + 1
    requires RetryResult(outcome, attempt).Ok?
    ensures exists k ::
              && attempt <= k <= Retries + 1
              && RetryResult(outcome, attempt) == outcome(k)
              && (forall j :: attempt <= j < k ==> outcome(j).Err?)
              && RetryLog(outcome, attempt) == seq(k - attempt, i => attempt + i)
    decreases Retries + 1 - attempt
  {
    if outcome(attempt).Ok? {
      assert RetryLog(outcome, attempt) == seq(0, i => attempt + i);
    } else {
      assert attempt < Retries + 1;
      RetryOkFirst(outcome, attempt + 1);
      var log := RetryLog(outcome, attempt + 1);
      var k :| && attempt + 1 <= k <= Retries + 1
               && RetryResult(outcome, attempt + 1) == outcome(k)
               && (forall j :: attempt + 1 <= j < k ==> outcome(j).Err?)
               && log == seq(k - attempt - 1, i => attempt + 1 + i);
      assert RetryLog(outcome, attempt) == [attempt] + log;
      assert [attempt] + log == seq(k - attempt, i => attempt + i);
    }
  }

  /** A failure is the fourth attempt's failure, and every attempt before it was logged. */
  lemma {:induction false} RetryErrLast(outcome: nat -> Result<string, Failure>, attempt: nat)
    requires 1 <= attempt <= Retries + 1
    requires RetryResult(outcome, attempt).Err?
    ensures RetryResult(outcome, attempt) == outcome(Retries + 1)
    ensures RetryLog(outcome, attempt) == seq(Retries + 1 - attempt, i => attempt + i)
    decreases Retries + 1 - attempt
  {
    if attempt < Retries + 1 {
      RetryErrLast(outcome, attempt + 1);
      var log := RetryLog(outcome, attempt + 1);
      assert RetryLog(outcome, attempt) == [attempt] + log;
      assert [attempt] + log == seq(Retries + 1 - attempt, i => attempt + i);
    }
  }

  /**
   * The retries succeed iff some attempt does, and then return the first successful
   * attempt's URL having logged every attempt before it; otherwise all four failed, the
   * last failure is thrown and attempts 1, 2 and 3 were logged.
   */
  lemma RetrySpec(outcome: nat -> Result<string, Failure>, attempt: nat)
    requires 1 <= attempt <= Retries + 1
    ensures RetryResult(outcome, attempt).Ok? <==> exists k :: attempt <= k <= Retries + 1 && outcome(k).Ok?
    ensures RetryResult(outcome, attempt).Ok? ==>
              exists k ::
                && attempt <= k <= Retries + 1
                && RetryResult(outcome, attempt) == outcome(k)
                && (forall j :: attempt <= j < k ==> outcome(j).Err?)
                && RetryLog(outcome, attempt) == seq(k - attempt, i => attempt + i)
    ensures RetryResult(outcome, attempt).Err? ==>
              && RetryResult(outcome, attempt) == outcome(Retries + 1)
              && RetryLog(outcome, attempt) == seq(Retries + 1 - attempt, i => attempt + i)
  {
    RetryOkIff(outcome, attempt);
    if RetryResult(outcome, attempt).Ok? {
      RetryOkFirst(outcome, attempt);
    } else {
      RetryErrLast(outcome, attempt);
    }
  }

  /** How attempt k of `printResume` turns out on a resume with data `data`. */
  function Attempts(data: Json, cfg: Config, envs: nat -> Env): nat -> Result<string, Failure> {
    (k: nat) => AttemptResult(data, cfg, envs(k))
  }

  /** A resume without a layout is not spared the retries: four attempts fail and three retries are logged. */
  lemma MissingLayoutRetried(data: Json, cfg: Config, envs: nat -> Env)
    requires !HasLayout(data)
    ensures RetryResult(Attempts(data, cfg, envs), 1).Err?
    ensures RetryLog(Attempts(data, cfg, envs), 1) == [1, 2, 3]
  {
    var outcome := Attempts(data, cfg, envs);
    forall k | 1 <= k <= Retries + 1 ensures outcome(k).Err? {
      MissingLayoutFails(data, cfg, envs(k));
    }
    RetrySpec(outcome, 1);
    assert seq(Retries, i => 1 + i) == [1, 2, 3];
  }

  lemma AttemptOnResume(data: Json, current: Json, cfg: Config, envs: nat -> Env, k: nat)
    requires current == data || (HasLayout(data) && current == WithTemplate(data))
    ensures AttemptResult(current, cfg, envs(k)) == Attempts(data, cfg, envs)(k)
    ensures var next := if envs(k).connects && HasLayout(current) then WithTemplate(current) else current;
            next == data || (HasLayout(data) && next == WithTemplate(data))
  {
    if current != data {
      TemplateDefaultInvisible(data, cfg, envs(k));
      assert WithTemplate(WithTemplate(data)) == WithTemplate(data);
    }
  }

  /** A failed attempt before the fourth is retried: the outcome is the next attempt's, logged after this one. */
  lemma RetryAdvance(outcome: nat -> Result<string, Failure>, attempt: nat)
    requires 1 <= attempt < Retries + 1 && outcome(attempt).Err?
    ensures RetryResult(outcome, attempt) == RetryResult(outcome, attempt + 1)
    ensures RetryLog(outcome, attempt) == [attempt] + RetryLog(outcome, attempt + 1)
  {
  }

  /** `printResume`: run attempts until one succeeds or four have failed. */
  method PrintResume(resume: ResumeDto, cfg: Config, envs: nat -> Env) returns (r: Result<string, Failure>, retried: seq<nat>)
    modifies resume
    ensures r == RetryResult(Attempts(old(resume.data), cfg, envs), 1)
    ensures retried == RetryLog(Attempts(old(resume.data), cfg, envs), 1)
  {
    ghost var data := resume.data;
    ghost var outcome := Attempts(data, cfg, envs);
    var attempt := 1;
    retried := [];
    var page;
    AttemptOnResume(data, resume.data, cfg, envs, attempt);
    r, page := GenerateResume(resume, cfg, envs(attempt));
    while r.Err? && attempt < Retries + 1
      invariant 1 <= attempt <= Retries + 1
      invariant resume.data == data || (HasLayout(data) && resume.data == WithTemplate(data))
      invariant r == outcome(attempt)
      invariant RetryResult(outcome, 1) == RetryResult(outcome, attempt)
      invariant RetryLog(outcome, 1) == retried + RetryLog(outcome, attempt)
      decreases Retries + 1 - attempt
    {
      RetryAdvance(outcome, attempt);
      AppendAssoc(retried, [attempt], RetryLog(outcome, attempt + 1));
      retried := retried + [attempt];
      attempt := attempt + 1;
      AttemptOnResume(data, resume.data, cfg, envs, attempt);
      r, page := GenerateResume(resume, cfg, envs(attempt));
    }
  }
}

/**
 * The crawl worker: given a job config (the dict the API enqueued), navigate
 * the browser to the page, capture its source and, when xpaths were given,
 * one extraction entry per xpath.  The browser is the parameter `render`,
 * which maps a navigation target to the captured page source, or to `None`
 * when navigation raises (a page-load timeout, say).
 */
module Worker {
  import opened Wrappers

  /** The values a job config dict holds. */
  datatype Val = VNone | VBool(b: bool) | VInt(i: int) | VReal(x: real) | VStr(s: string) | VList(items: seq<string>)

  /** A job config: a Python dict from key to value. */
  type Config = map<string, Val>

  /** Python truthiness, as `if config['simplify_source']:` reads it. */
  predicate Truthy(v: Val)
  {
    match v
    case VNone => false
    case VBool(b) => b
    case VInt(i) => i != 0
    case VReal(x) => x != 0.0
    case VStr(s) => s != ""
    case VList(items) => items != []
  }

  /** The result dict: `config`, `page_source`, and `xpath_results` only when present. */
  datatype Outcome = Outcome(config: Config, pageSource: string, xpathResults: Option<seq<Val>>)

  /** Why `crawl_URL` raised. */
  datatype WorkerError =
    | KeyError(key: string)          // a config key the worker reads is missing
    | TypeError(key: string)         // a config value the worker cannot use
    | NavigationFailed(target: string)
    | InvalidWait                    // `time.sleep` refused the wait value
    | XPathFailed(xpath: string)     // lxml could not evaluate this xpath on the page

  const ReaderPrefix := "about:reader?url="

  /** Where the browser goes: Firefox Reader View of the URL, or the URL itself. */
  function NavigationTarget(url: string, simplify: bool): (r: string)
    ensures simplify ==> |r| == |ReaderPrefix| + |url| && r[..|ReaderPrefix|] == ReaderPrefix && r[|ReaderPrefix|..] == url
    ensures !simplify ==> r == url
  {
    if simplify then ReaderPrefix + url else url
  }

  /** The largest count of nanoseconds `time.sleep` holds: a signed 64-bit integer. */
  const MaxSleepNanos := 0x7FFF_FFFF_FFFF_FFFF

  /**
   * `time.sleep` accepts a non-negative number (a bool counts as 0 or 1) whose
   * value in nanoseconds fits a signed 64-bit integer; beyond that it raises
   * OverflowError.
   */
  predicate ValidWait(v: Val)
  {
    match v
    case VBool(_) => true
    case VInt(i) => 0 <= i && i * 1_000_000_000 <= MaxSleepNanos
    case VReal(x) => 0.0 <= x && x * 1_000_000_000.0 <= MaxSleepNanos as real
    case _ => false
  }

  /** What `len(v)` and `for xpath in v` see: a list, or a string's characters. */
  function XPathList(v: Val): (r: Option<seq<string>>)
    ensures v.VList? ==> r == Some(v.items)
    ensures v.VStr? ==> r.Some? && |r.value| == |v.s| && forall i :: 0 <= i < |v.s| ==> r.value[i] == [v.s[i]]
    ensures !v.VList? && !v.VStr? ==> r.None?
  {
    match v
    case VList(items) => Some(items)
    case VStr(s) => Some(seq(|s|, i requires 0 <= i < |s| => [s[i]]))
    case _ => None
  }

  /** `_extract_xpath`: it evaluates the xpath but has no `return`, so its value is `None`. */
  function ExtractXPath(dom: string, xpath: string): Val
  {
    VNone
  }

  /** `[_extract_xpath(dom, xpath) for xpath in xpaths]` */
  function XPathResults(dom: string, xpaths: seq<string>): seq<Val>
  {
    seq(|xpaths|, i requires 0 <= i < |xpaths| => ExtractXPath(dom, xpaths[i]))
  }

  /** The extraction list is positional: one entry per xpath, in order, and as written every entry is `None`. */
  lemma XPathResultsAllNone(dom: string, xpaths: seq<string>)
    ensures |XPathResults(dom, xpaths)| == |xpaths|
    ensures forall i :: 0 <= i < |xpaths| ==> XPathResults(dom, xpaths)[i] == VNone
  {
  }

  /** The extraction `_extract_xpath` evidently meant: the matches of the xpath, here the parameter `extract`. */
  function XPathResultsIntended(dom: string, xpaths: seq<string>, extract: (string, string) -> seq<string>): (r: seq<Val>)
    ensures |r| == |xpaths|
    ensures forall i :: 0 <= i < |xpaths| ==> r[i] == VList(extract(dom, xpaths[i]))
  {
    if xpaths == [] then []
    else [VList(extract(dom, xpaths[0]))] + XPathResultsIntended(dom, xpaths[1..], extract)
  }

  /**
   * The first xpath whose evaluation raises, if any.  `evaluates(dom, xpath)`
   * says whether lxml evaluates `xpath` on the DOM parsed from the page; it is
   * false for a malformed expression, or for every xpath when the page gives
   * no DOM.  The comprehension stops at the first xpath that raises.
   */
  function FirstFailing(dom: string, xpaths: seq<string>, evaluates: (string, string) -> bool): (r: Option<nat>)
    ensures r.None? <==> forall i :: 0 <= i < |xpaths| ==> evaluates(dom, xpaths[i])
    ensures r.Some? ==>
      && r.value < |xpaths| && !evaluates(dom, xpaths[r.value])
      && forall j :: 0 <= j < r.value ==> evaluates(dom, xpaths[j])
  {
    if xpaths == [] then None
    else if !evaluates(dom, xpaths[0]) then Some(0)
    else
      match FirstFailing(dom, xpaths[1..], evaluates)
      case None => None
      case Some(k) => Some(k + 1)
  }

  /** The keys read before navigation are present and the URL is a string. */
  predicate Navigable(config: Config)
  {
    "simplify_source" in config && "url" in config && config["url"].VStr?
  }

  function TargetOf(config: Config): string
    requires Navigable(config)
  {
    NavigationTarget(config["url"].s, Truthy(config["simplify_source"]))
  }

  /** The worker gets as far as looking up `xpaths`: navigation and the wait succeed. */
  predicate ReachesXPaths(config: Config, render: string -> Option<string>)
  {
    Navigable(config) && render(TargetOf(config)).Some?
    && "load_wait_time" in config && ValidWait(config["load_wait_time"])
  }

  /** `crawl_URL` returns normally: every key it reads is usable and every xpath evaluates on the page. */
  predicate Crawlable(config: Config, render: string -> Option<string>, evaluates: (string, string) -> bool)
  {
    && ReachesXPaths(config, render) && "xpaths" in config && XPathList(config["xpaths"]).Some?
    && var xpaths := XPathList(config["xpaths"]).value;
       forall i :: 0 <= i < |xpaths| ==> evaluates(render(TargetOf(config)).value, xpaths[i])
  }

  /** The exception `crawl_URL` raises on a config it cannot crawl: the first step that fails, in the order the code runs. */
  function FailureOf(config: Config, render: string -> Option<string>, evaluates: (string, string) -> bool): (e: WorkerError)
    requires !Crawlable(config, render, evaluates)
    ensures "simplify_source" !in config ==> e == KeyError("simplify_source")
    ensures "simplify_source" in config && "url" !in config ==> e == KeyError("url")
    ensures "simplify_source" in config && "url" in config && !config["url"].VStr? ==> e == TypeError("url")
    ensures Navigable(config) && render(TargetOf(config)).None? ==> e == NavigationFailed(TargetOf(config))
    ensures Navigable(config) && render(TargetOf(config)).Some? && "load_wait_time" !in config ==> e == KeyError("load_wait_time")
    ensures (Navigable(config) && render(TargetOf(config)).Some? && "load_wait_time" in config &&
             !ValidWait(config["load_wait_time"])) ==> e == InvalidWait
    ensures ReachesXPaths(config, render) && "xpaths" !in config ==> e == KeyError("xpaths")
    ensures ReachesXPaths(config, render) && "xpaths" in config && XPathList(config["xpaths"]).None? ==> e == TypeError("xpaths")
    ensures ReachesXPaths(config, render) && "xpaths" in config && XPathList(config["xpaths"]).Some? ==>
      exists k :: 0 <= k < |XPathList(config["xpaths"]).value| && e == XPathFailed(XPathList(config["xpaths"]).value[k])
                  && !evaluates(render(TargetOf(config)).value, XPathList(config["xpaths"]).value[k])
                  && forall j :: 0 <= j < k ==> evaluates(render(TargetOf(config)).value, XPathList(config["xpaths"]).value[j])
  {
    if "simplify_source" !in config then KeyError("simplify_source")
    else if "url" !in config then KeyError("url")
    else if !config["url"].VStr? then TypeError("url")
    else if render(TargetOf(config)).None? then NavigationFailed(TargetOf(config))
    else if "load_wait_time" !in config then KeyError("load_wait_time")
    else if !ValidWait(config["load_wait_time"]) then InvalidWait
    else if "xpaths" !in config then KeyError("xpaths")
    else if XPathList(config["xpaths"]).None? then TypeError("xpaths")
    else
      var xpaths := XPathList(config["xpaths"]).value;
      var bad := FirstFailing(render(TargetOf(config)).value, xpaths, evaluates);
      XPathFailed(xpaths[bad.value])
  }

  /** `crawl_URL(config)` with the browser as `render` and lxml's evaluation as `evaluates`. */
  method CrawlUrl(config: Config, render: string -> Option<string>, evaluates: (string, string) -> bool)
    returns (r: Result<Outcome, WorkerError>)
    ensures r.Ok? <==> Crawlable(config, render, evaluates)
    ensures r.Err? ==> !Crawlable(config, render, evaluates) && r.error == FailureOf(config, render, evaluates)
    ensures r.Ok? ==>
      && r.value.config == config
      && Some(r.value.pageSource) == render(TargetOf(config))
      && var xpaths := XPathList(config["xpaths"]).value;
         (r.value.xpathResults.Some? <==> |xpaths| > 0)
         && (r.value.xpathResults.Some? ==> r.value.xpathResults.value == XPathResults(r.value.pageSource, xpaths))
  {
    if "simplify_source" !in config {
      return Err(KeyError("simplify_source"));
    }
    if "url" !in config {
      return Err(KeyError("url"));
    }
    if !config["url"].VStr? {
      return Err(TypeError("url"));
    }
    var target := NavigationTarget(config["url"].s, Truthy(config["simplify_source"]));
    var page := render(target);
    if page.None? {
      return Err(NavigationFailed(target));
    }
    if "load_wait_time" !in config {
      return Err(KeyError("load_wait_time"));
    }
    if !ValidWait(config["load_wait_time"]) {
      return Err(InvalidWait);
    }
    var result := Outcome(config, page.value, None);
    if "xpaths" !in config {
      return Err(KeyError("xpaths"));
    }
    var xpaths := XPathList(config["xpaths"]);
    if xpaths.None? {
      return Err(TypeError("xpaths"));
    }
    if |xpaths.value| > 0 {
      var dom := result.pageSource;
      var bad := FirstFailing(dom, xpaths.value, evaluates);
      if bad.Some? {
        return Err(XPathFailed(xpaths.value[bad.value]));
      }
      result := result.(xpathResults := Some(XPathResults(dom, xpaths.value)));
    }
    return Ok(result);
  }
}

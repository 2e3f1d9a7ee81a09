/**
 * The request and parse helpers of the apartments.com demo job: the crawl
 * request URL, the filter that keeps apartments.com URLs, the results query
 * and the cleaning of a scraped "1,234 Rentals" count.  All are pure string
 * functions; Python's `sep.join`, `str.split(sep)`, `in`, `str.strip()`,
 * `str.replace` and `int()` are written out below as far as these helpers use
 * them.
 */
module Apartments {
  import opened Wrappers

  const CrawlEndpoint := "http://localhost:8080/crawl?"
  const ReturnSourceOff := "return_source=false"
  const SimplifySourceOff := "simplify_source=false"
  /** The text between the URL fields and the xpath fields: both flags off. */
  const FixedFlags := "&" + ReturnSourceOff + "&" + SimplifySourceOff + "&"
  const ResultsEndpoint := "http://localhost:8080/jobResults?"
  const ApartmentsHost := "www.apartments.com"

  // ---------------------------------------------------------------------
  // Python string primitives

  /** `sep.join(parts)` */
  function Join(sep: string, parts: seq<string>): string
  {
    if |parts| == 0 then ""
    else if |parts| == 1 then parts[0]
    else parts[0] + sep + Join(sep, parts[1..])
  }

  /** `s.split(sep)` for a one-character separator: never an empty list. */
  function Split(s: string, sep: char): (r: seq<string>)
    ensures |r| >= 1
  {
    if |s| == 0 then [""]
    else
      var rest := Split(s[1..], sep);
      if s[0] == sep then [""] + rest
      else [[s[0]] + rest[0]] + rest[1..]
  }

  /** `[f'{name}={v}' for v in values]` */
  function Params(name: string, values: seq<string>): (r: seq<string>)
    ensures |r| == |values|
    ensures forall i :: 0 <= i < |values| ==> r[i] == name + "=" + values[i]
  {
    seq(|values|, i requires 0 <= i < |values| => name + "=" + values[i])
  }

  predicate StartsWith(s: string, prefix: string)
  {
    |prefix| <= |s| && s[..|prefix|] == prefix
  }

  /** Python's `sub in s` on strings. */
  predicate Contains(s: string, sub: string)
    decreases |s|
  {
    StartsWith(s, sub) || (|s| > 0 && Contains(s[1..], sub))
  }

  /** What `Split` gives back for a `Join` of an empty list: one empty field. */
  function Fields(parts: seq<string>): seq<string>
  {
    if parts == [] then [""] else parts
  }

  predicate NoAmpersand(values: seq<string>)
  {
    forall i :: 0 <= i < |values| ==> '&' !in values[i]
  }

  // ---------------------------------------------------------------------
  // Splitting undoes joining

  lemma {:induction false} SplitAround(a: string, b: string, sep: char)
    ensures Split(a + [sep] + b, sep) == Split(a, sep) + Split(b, sep)
    decreases |a|
  {
    if |a| == 0 {
      assert a + [sep] + b == [sep] + b;
      assert ([sep] + b)[1..] == b;
    } else {
      var s := a + [sep] + b;
      assert s[0] == a[0];
      assert s[1..] == a[1..] + [sep] + b;
      SplitAround(a[1..], b, sep);
      var x, y := Split(a[1..], sep), Split(b, sep);
      if a[0] == sep {
        assert [""] + (x + y) == [""] + x + y;
      } else {
        ExtendFirst(a[0], x, y);
      }
    }
  }

  /** Prefixing a character to the first field commutes with appending more fields. */
  lemma ExtendFirst(h: char, x: seq<string>, y: seq<string>)
    requires |x| >= 1
    ensures [[h] + (x + y)[0]] + (x + y)[1..] == [[h] + x[0]] + x[1..] + y
  {
    assert (x + y)[1..] == x[1..] + y;
  }

  lemma {:induction false} SplitWithoutSep(a: string, sep: char)
    requires sep !in a
    ensures Split(a, sep) == [a]
    decreases |a|
  {
    if |a| > 0 {
      assert sep !in a[1..];
      SplitWithoutSep(a[1..], sep);
      assert [a[0]] + a[1..] == a;
    }
  }

  /** Joining fields that do not contain the separator and splitting again gives the fields back. */
  lemma {:induction false} SplitJoin(parts: seq<string>, sep: char)
    requires forall i :: 0 <= i < |parts| ==> sep !in parts[i]
    ensures Split(Join([sep], parts), sep) == Fields(parts)
    decreases |parts|
  {
    if |parts| == 0 {
    } else if |parts| == 1 {
      SplitWithoutSep(parts[0], sep);
    } else {
      SplitJoin(parts[1..], sep);
      SplitWithoutSep(parts[0], sep);
      SplitAround(parts[0], Join([sep], parts[1..]), sep);
      assert parts == [parts[0]] + parts[1..];
    }
  }

  lemma ParamsNoAmpersand(name: string, values: seq<string>)
    requires '&' !in name
    requires NoAmpersand(values)
    ensures NoAmpersand(Params(name, values))
  {
    forall i | 0 <= i < |values| ensures '&' !in Params(name, values)[i] {
      assert Params(name, values)[i] == name + "=" + values[i];
    }
  }

  // ---------------------------------------------------------------------
  // build_request

  lemma PrefixThen(p: string, q: string)
    ensures StartsWith(p + q, p) && (p + q)[|p|..] == q
  {
  }

  /** The crawl request the demo posts: every URL, the two flags set to false, every xpath. */
  function BuildRequest(urls: seq<string>, xpaths: seq<string>): (r: string)
    ensures StartsWith(r, CrawlEndpoint)
  {
    CrawlEndpoint + (Join("&", Params("urls", urls)) + FixedFlags + Join("&", Params("xpaths", xpaths)))
  }

  /** The text after the endpoint prefix, i.e. the query string. */
  function QueryOf(request: string): string
  {
    if StartsWith(request, CrawlEndpoint) then request[|CrawlEndpoint|..] else ""
  }

  /**
   * The query of a crawl request, split at '&', is the `urls=` fields in input
   * order, then the two fixed flags, then the `xpaths=` fields in input order
   * (an empty list leaves one empty field), provided no URL or xpath contains '&'.
   */
  lemma BuildRequestFields(urls: seq<string>, xpaths: seq<string>)
    requires NoAmpersand(urls) && NoAmpersand(xpaths)
    ensures Split(QueryOf(BuildRequest(urls, xpaths)), '&')
         == Fields(Params("urls", urls)) + [ReturnSourceOff, SimplifySourceOff] + Fields(Params("xpaths", xpaths))
  {
    var u := Join("&", Params("urls", urls));
    var x := Join("&", Params("xpaths", xpaths));
    QueryOfBuildRequest(urls, xpaths);
    ParamsNoAmpersand("urls", urls);
    ParamsNoAmpersand("xpaths", xpaths);
    ThreeFields(Params("urls", urls), ReturnSourceOff, SimplifySourceOff, Params("xpaths", xpaths));
  }

  lemma Regroup(u: string, a: string, b: string, x: string, c: char)
    ensures u + ([c] + a + [c] + b + [c]) + x == u + [c] + (a + [c] + (b + [c] + x))
  {
  }

  lemma SplitCons(a: string, rest: string, c: char)
    requires c !in a
    ensures Split(a + [c] + rest, c) == [a] + Split(rest, c)
  {
    SplitAround(a, rest, c);
    SplitWithoutSep(a, c);
  }

  lemma SplitFour(u: string, a: string, b: string, x: string, c: char)
    requires c !in a && c !in b
    ensures Split(u + [c] + (a + [c] + (b + [c] + x)), c) == Split(u, c) + [a, b] + Split(x, c)
  {
    var t2 := b + [c] + x;
    var t1 := a + [c] + t2;
    SplitCons(b, x, c);
    SplitCons(a, t2, c);
    SplitAround(u, t1, c);
    ConsTwo(Split(u, c), a, b, Split(x, c));
  }

  lemma ConsTwo(s: seq<string>, a: string, b: string, t: seq<string>)
    ensures s + ([a] + ([b] + t)) == s + [a, b] + t
  {
  }

  /** Splitting `join(us) & a & b & join(xs)` at '&'. */
  lemma ThreeFields(us: seq<string>, a: string, b: string, xs: seq<string>)
    requires NoAmpersand(us) && NoAmpersand(xs) && '&' !in a && '&' !in b
    ensures Split(Join("&", us) + (['&'] + a + ['&'] + b + ['&']) + Join("&", xs), '&')
         == Fields(us) + [a, b] + Fields(xs)
  {
    var u, x := Join("&", us), Join("&", xs);
    Regroup(u, a, b, x, '&');
    SplitFour(u, a, b, x, '&');
    SplitJoin(us, '&');
    SplitJoin(xs, '&');
  }

  /** The text after the crawl endpoint is the joined URL fields, the flags and the joined xpath fields. */
  lemma QueryOfBuildRequest(urls: seq<string>, xpaths: seq<string>)
    ensures QueryOf(BuildRequest(urls, xpaths))
         == Join("&", Params("urls", urls)) + FixedFlags + Join("&", Params("xpaths", xpaths))
  {
    var q := Join("&", Params("urls", urls)) + FixedFlags + Join("&", Params("xpaths", xpaths));
    PrefixThen(CrawlEndpoint, q);
  }

  /** A field of `Fields(Params(name, values))` is empty or a `name=` field. */
  lemma ParamField(name: string, values: seq<string>, f: string)
    requires f in Fields(Params(name, values))
    ensures f == "" || StartsWith(f, name + "=")
  {
    if f in Params(name, values) {
      var i :| 0 <= i < |values| && Params(name, values)[i] == f;
      PrefixThen(name + "=", values[i]);
    }
  }

  /** A string that starts with a non-empty prefix starts with that prefix's first character. */
  lemma StartsWithHead(s: string, prefix: string)
    requires StartsWith(s, prefix) && |prefix| > 0
    ensures s[0] == prefix[0]
  {
    assert s[..|prefix|][0] == s[0];
  }

  /** Every field of a crawl request's query is empty, a fixed flag, a `urls=` field or an `xpaths=` field. */
  lemma FieldKinds(urls: seq<string>, xpaths: seq<string>, f: string)
    requires f in Fields(Params("urls", urls)) + [ReturnSourceOff, SimplifySourceOff] + Fields(Params("xpaths", xpaths))
    ensures f == "" || f == ReturnSourceOff || f == SimplifySourceOff
         || StartsWith(f, "urls=") || StartsWith(f, "xpaths=")
  {
    var us, xs := Fields(Params("urls", urls)), Fields(Params("xpaths", xpaths));
    if f in us {
      ParamField("urls", urls, f);
    } else if f in xs {
      ParamField("xpaths", xpaths, f);
    }
  }

  /**
   * Whatever URLs and xpaths are given (none containing '&'), every field of
   * the query that sets `return_source` or `simplify_source` sets it to false.
   */
  lemma FlagsAlwaysFalse(urls: seq<string>, xpaths: seq<string>)
    requires NoAmpersand(urls) && NoAmpersand(xpaths)
    ensures forall f :: f in Split(QueryOf(BuildRequest(urls, xpaths)), '&') && StartsWith(f, "return_source=")
              ==> f == ReturnSourceOff
    ensures forall f :: f in Split(QueryOf(BuildRequest(urls, xpaths)), '&') && StartsWith(f, "simplify_source=")
              ==> f == SimplifySourceOff
  {
    var fs := Split(QueryOf(BuildRequest(urls, xpaths)), '&');
    BuildRequestFields(urls, xpaths);
    forall f | f in fs && StartsWith(f, "return_source=") ensures f == ReturnSourceOff {
      assert f[0] == "return_source="[0];
      FlagField(urls, xpaths, f);
    }
    forall f | f in fs && StartsWith(f, "simplify_source=") ensures f == SimplifySourceOff {
      assert f[0] == "simplify_source="[0];
      FlagField(urls, xpaths, f);
    }
  }

  /** A field of the query that starts with 'r' or 's' is the matching fixed flag. */
  lemma FlagField(urls: seq<string>, xpaths: seq<string>, f: string)
    requires f in Fields(Params("urls", urls)) + [ReturnSourceOff, SimplifySourceOff] + Fields(Params("xpaths", xpaths))
    requires |f| > 0 && (f[0] == 'r' || f[0] == 's')
    ensures f[0] == 'r' ==> f == ReturnSourceOff
    ensures f[0] == 's' ==> f == SimplifySourceOff
  {
    FieldKinds(urls, xpaths, f);
    if StartsWith(f, "urls=") {
      StartsWithHead(f, "urls=");
    } else if StartsWith(f, "xpaths=") {
      StartsWithHead(f, "xpaths=");
    }
    assert ReturnSourceOff[0] == 'r' && SimplifySourceOff[0] == 's';
  }

  /**
   * The flags are fixed only while the URLs are free of '&': the demo does not
   * escape them, so the text after a '&' in a URL becomes a query field of its own.
   */
  lemma InjectedField(v: string, w: string)
    requires '&' !in v && '&' !in w
    ensures w in Split(QueryOf(BuildRequest([v + "&" + w], [])), '&')
  {
    var u := "urls=" + v;
    Reassociate("urls=", v, '&', w);
    assert "urls" + "=" == "urls=";
    assert Params("urls", [v + "&" + w])[0] == "urls" + "=" + (v + "&" + w);
    assert Params("urls", [v + "&" + w]) == [u + ['&'] + w];
    var none: seq<string> := [];
    assert |Params("xpaths", none)| == 0;
    assert Join("&", Params("xpaths", none)) == "";
    QueryOfBuildRequest([v + "&" + w], none);
    AfterField(u, w, FixedFlags, '&');
  }

  lemma Reassociate(p: string, v: string, c: char, w: string)
    ensures p + (v + [c] + w) == (p + v) + [c] + w
  {
  }

  lemma AfterField(u: string, w: string, rest: string, c: char)
    requires c !in w && |rest| > 0 && rest[0] == c
    ensures w in Split(u + [c] + w + rest + "", c)
  {
    assert u + [c] + w + rest + "" == u + [c] + (w + [c] + rest[1..]);
    SplitAround(u, w + [c] + rest[1..], c);
    SplitAround(w, rest[1..], c);
    SplitWithoutSep(w, c);
  }

  // ---------------------------------------------------------------------
  // The URL filter

  /** `[url for url in urls if 'www.apartments.com' in url]` */
  function ApartmentUrls(urls: seq<string>): (r: seq<string>)
    ensures forall u :: u in r <==> u in urls && Contains(u, ApartmentsHost)
    ensures |r| <= |urls|
  {
    if urls == [] then []
    else if Contains(urls[0], ApartmentsHost) then [urls[0]] + ApartmentUrls(urls[1..])
    else ApartmentUrls(urls[1..])
  }

  /** `a` is `b` with some elements dropped, the rest in their order. */
  predicate IsSubsequence(a: seq<string>, b: seq<string>)
    decreases |b|
  {
    if a == [] then true
    else if b == [] then false
    else if a[0] == b[0] then IsSubsequence(a[1..], b[1..])
    else IsSubsequence(a, b[1..])
  }

  /** The filter keeps the relative order of the URLs it keeps. */
  lemma {:induction false} ApartmentUrlsIsSubsequence(urls: seq<string>)
    ensures IsSubsequence(ApartmentUrls(urls), urls)
    decreases |urls|
  {
    if urls != [] {
      ApartmentUrlsIsSubsequence(urls[1..]);
      var rest := ApartmentUrls(urls[1..]);
      if Contains(urls[0], ApartmentsHost) {
        assert ([urls[0]] + rest)[1..] == rest;
      } else if rest != [] {
        assert rest[0] in rest;
      }
    }
  }

  // ---------------------------------------------------------------------
  // The results query (line 49)

  /** The job-results request for a list of job ids: one `jobIDs=` field per id. */
  function ResultsQuery(jobIDs: seq<string>): (r: string)
    ensures StartsWith(r, ResultsEndpoint)
  {
    ResultsEndpoint + Join("&", Params("jobIDs", jobIDs))
  }

  /** The query after the endpoint, split at '&', is one `jobIDs=` field per id, in order. */
  lemma ResultsQueryFields(jobIDs: seq<string>)
    requires NoAmpersand(jobIDs)
    ensures var r := ResultsQuery(jobIDs);
            Split(r[|ResultsEndpoint|..], '&') == Fields(Params("jobIDs", jobIDs))
  {
    var r := ResultsQuery(jobIDs);
    assert r[|ResultsEndpoint|..] == Join("&", Params("jobIDs", jobIDs));
    ParamsNoAmpersand("jobIDs", jobIDs);
    SplitJoin(Params("jobIDs", jobIDs), '&');
  }

  // ---------------------------------------------------------------------
  // clean_apartments_result

  /** Python's `str.isspace()` for one character. */
  predicate IsSpace(c: char)
  {
    ('\t' <= c <= '\r') || ('\U{1C}' <= c <= ' ') || c == '\U{85}' || c == '\U{A0}'
    || c == '\U{1680}' || ('\U{2000}' <= c <= '\U{200A}') || c == '\U{2028}' || c == '\U{2029}'
    || c == '\U{202F}' || c == '\U{205F}' || c == '\U{3000}'
  }

  predicate IsDigit(c: char)
  {
    '0' <= c <= '9'
  }

  predicate AllSpace(s: string)
  {
    forall i :: 0 <= i < |s| ==> IsSpace(s[i])
  }

  function StripLeft(s: string): string
  {
    if |s| > 0 && IsSpace(s[0]) then StripLeft(s[1..]) else s
  }

  function StripRight(s: string): string
  {
    if |s| > 0 && IsSpace(s[|s| - 1]) then StripRight(s[..|s| - 1]) else s
  }

  /** `s.strip()` */
  function Strip(s: string): string
  {
    StripRight(StripLeft(s))
  }

  /**
   * The whitespace `int()` skips around its digits. On ASCII text CPython
   * skips only C's `isspace` set, so the separators U+001C to U+001F, which
   * `str.isspace()` and `strip()` count as whitespace, are not skipped.
   */
  predicate IsIntSpace(c: char)
  {
    IsSpace(c) && !('\U{1C}' <= c <= '\U{1F}')
  }

  function IntStripLeft(s: string): string
  {
    if |s| > 0 && IsIntSpace(s[0]) then IntStripLeft(s[1..]) else s
  }

  function IntStripRight(s: string): string
  {
    if |s| > 0 && IsIntSpace(s[|s| - 1]) then IntStripRight(s[..|s| - 1]) else s
  }

  /** The whitespace `int()` removes from either end before reading the number. */
  function IntStrip(s: string): string
  {
    IntStripRight(IntStripLeft(s))
  }

  /** `s.replace(',', '')` */
  function RemoveCommas(s: string): (r: string)
    ensures ',' !in r
  {
    if s == [] then []
    else if s[0] == ',' then RemoveCommas(s[1..])
    else [s[0]] + RemoveCommas(s[1..])
  }

  /** The decimal value of a string of digits and underscores (underscores are skipped). */
  function DigitsValue(s: string): nat
  {
    if s == [] then 0
    else if IsDigit(s[|s| - 1]) then DigitsValue(s[..|s| - 1]) * 10 + (s[|s| - 1] as int - '0' as int)
    else DigitsValue(s[..|s| - 1])
  }

  /** The digits-and-underscores body `int()` accepts: digits, single underscores between digits. */
  predicate IsDecimalBody(s: string)
  {
    |s| > 0 && IsDigit(s[0]) && IsDigit(s[|s| - 1])
    && (forall i :: 0 <= i < |s| ==> IsDigit(s[i]) || s[i] == '_')
    && (forall i :: 0 <= i < |s| - 1 ==> IsDigit(s[i]) || IsDigit(s[i + 1]))
  }

  /** `int(s)` for base-10 text with ASCII digits; `Err` is the `ValueError` it raises. */
  function PyInt(s: string): Result<int, string>
  {
    var t := IntStrip(s);
    if t == "" then Err("invalid literal for int()")
    else
      var negative := t[0] == '-';
      var body := if t[0] == '-' || t[0] == '+' then t[1..] else t;
      if IsDecimalBody(body) then Ok(if negative then -(DigitsValue(body) as int) else DigitsValue(body))
      else Err("invalid literal for int()")
  }

  /** `int(txt.strip().split(' ')[0].replace(',', ''))` */
  function CleanApartmentsResult(txt: string): Result<int, string>
  {
    PyInt(RemoveCommas(Split(Strip(txt), ' ')[0]))
  }

  /** A count token as the page shows it: digits and thousands commas, at least one digit. */
  predicate IsCountToken(tok: string)
  {
    (forall i :: 0 <= i < |tok| ==> IsDigit(tok[i]) || tok[i] == ',') && RemoveCommas(tok) != ""
  }

  lemma {:induction false} RemoveCommasDigits(tok: string)
    requires forall i :: 0 <= i < |tok| ==> IsDigit(tok[i]) || tok[i] == ','
    ensures forall i :: 0 <= i < |RemoveCommas(tok)| ==> IsDigit(RemoveCommas(tok)[i])
    decreases |tok|
  {
    if tok != [] {
      RemoveCommasDigits(tok[1..]);
    }
  }

  lemma StripOfDigits(d: string)
    requires d != "" && IsDigit(d[0]) && IsDigit(d[|d| - 1])
    ensures Strip(d) == d && IntStrip(d) == d
  {
    assert StripLeft(d) == d;
    assert IntStripLeft(d) == d;
  }

  /**
   * When the first space-separated token of the stripped text is a count
   * token, the result is that token's digits read as a decimal number, so it
   * is never negative.
   */
  lemma CleanCount(txt: string)
    requires IsCountToken(Split(Strip(txt), ' ')[0])
    ensures var d := RemoveCommas(Split(Strip(txt), ' ')[0]);
            CleanApartmentsResult(txt) == Ok(DigitsValue(d) as int)
    ensures CleanApartmentsResult(txt).Ok? && CleanApartmentsResult(txt).value >= 0
  {
    var d := RemoveCommas(Split(Strip(txt), ' ')[0]);
    RemoveCommasDigits(Split(Strip(txt), ' ')[0]);
    StripOfDigits(d);
    assert IsDecimalBody(d);
  }

  /** A count token followed by a space and a word, as the page shows "1,234 Rentals". */
  lemma CleanTokenThenWord(tok: string, word: string)
    requires IsCountToken(tok)
    requires word != "" && !IsSpace(word[|word| - 1])
    ensures CleanApartmentsResult(tok + " " + word) == Ok(DigitsValue(RemoveCommas(tok)) as int)
  {
    var txt := tok + [' '] + word;
    assert RemoveCommas("") == "";
    assert txt[0] == tok[0] && txt[|txt| - 1] == word[|word| - 1];
    assert StripLeft(txt) == txt;
    assert Strip(txt) == txt;
    assert forall i :: 0 <= i < |tok| ==> tok[i] != ' ';
    SplitAround(tok, word, ' ');
    SplitWithoutSep(tok, ' ');
    assert Split(Strip(txt), ' ')[0] == tok;
    CleanCount(txt);
  }

  /**
   * `strip()` treats U+001C as whitespace but `int()` does not: a count
   * followed by that separator passes through `strip` and `split(' ')`
   * intact, and `int()` then rejects it.
   */
  lemma SeparatorAfterCountRejected()
    ensures IsSpace('\U{1C}') && !IsIntSpace('\U{1C}')
    ensures PyInt("5\U{1C}").Err?
    ensures CleanApartmentsResult("5\U{1C} Rentals").Err?
  {
    var tok, word := "5\U{1C}", "Rentals";
    assert IntStripLeft(tok) == tok && IntStripRight(tok) == tok;
    assert !IsDecimalBody(tok);
    var txt := tok + [' '] + word;
    assert txt == "5\U{1C} Rentals";
    assert StripLeft(txt) == txt && StripRight(txt) == txt;
    SplitAround(tok, word, ' ');
    SplitWithoutSep(tok, ' ');
    assert RemoveCommas(tok) == tok by {
      assert RemoveCommas(tok[1..]) == tok[1..] by { assert RemoveCommas(tok[1..][1..]) == []; }
    }
  }

  lemma ExampleCount()
    ensures IsCountToken("1,234") && RemoveCommas("1,234") == "1234"
  {
    assert RemoveCommas("4") == "4";
    assert RemoveCommas("34") == "34";
    assert RemoveCommas("234") == "234";
    assert RemoveCommas(",234") == "234";
  }

  lemma ExampleDigits()
    ensures DigitsValue("1234") == 1234
  {
    assert "1"[..0] == "" && "12"[..1] == "1";
    assert "123"[..2] == "12" && "1234"[..3] == "123";
  }

  /** The demo's own example: "1,234 Rentals" cleans to 1234. */
  lemma CleanExample()
    ensures CleanApartmentsResult("1,234 Rentals") == Ok(1234)
  {
    ExampleCount();
    ExampleDigits();
    ExampleText();
    assert !IsSpace('s');
    CleanTokenThenWord("1,234", "Rentals");
  }

  lemma ExampleText()
    ensures "1,234" + " " + "Rentals" == "1,234 Rentals"
  {
  }

  // Surrounding whitespace

  lemma {:induction false} StripLeftPadding(p: string, s: string)
    requires AllSpace(p)
    ensures StripLeft(p + s) == StripLeft(s)
    decreases |p|
  {
    if p != [] {
      assert (p + s)[0] == p[0];
      assert (p + s)[1..] == p[1..] + s;
      StripLeftPadding(p[1..], s);
    } else {
      assert p + s == s;
    }
  }

  lemma {:induction false} StripRightPadding(s: string, q: string)
    requires AllSpace(q)
    ensures StripRight(s + q) == StripRight(s)
    decreases |q|
  {
    if q != [] {
      var t := s + q;
      assert t[|t| - 1] == q[|q| - 1];
      assert t[..|t| - 1] == s + q[..|q| - 1];
      StripRightPadding(s, q[..|q| - 1]);
    } else {
      assert s + q == s;
    }
  }

  lemma {:induction false} StripLeftAppend(s: string, q: string)
    requires AllSpace(q)
    ensures StripLeft(s + q) == if StripLeft(s) == "" then "" else StripLeft(s) + q
    decreases |s|
  {
    if s == [] {
      assert s + q == q;
      StripLeftPadding(q, "");
      assert q + "" == q;
    } else if IsSpace(s[0]) {
      assert (s + q)[1..] == s[1..] + q;
      StripLeftAppend(s[1..], q);
    } else {
      assert (s + q)[0] == s[0];
    }
  }

  lemma {:induction false} StripLeftEmpty(s: string)
    requires StripLeft(s) == ""
    ensures AllSpace(s)
    decreases |s|
  {
    if s != [] {
      StripLeftEmpty(s[1..]);
    }
  }

  /** `strip()` removes any whitespace added around the text. */
  lemma StripPadding(p: string, s: string, q: string)
    requires AllSpace(p) && AllSpace(q)
    ensures Strip(p + s + q) == Strip(s)
  {
    assert p + s + q == p + (s + q);
    StripLeftPadding(p, s + q);
    StripLeftAppend(s, q);
    if StripLeft(s) == "" {
      StripLeftEmpty(s);
    } else {
      StripRightPadding(StripLeft(s), q);
    }
  }

  /** Leading and trailing whitespace does not change the cleaned count. */
  lemma CleanIgnoresPadding(p: string, txt: string, q: string)
    requires AllSpace(p) && AllSpace(q)
    ensures CleanApartmentsResult(p + txt + q) == CleanApartmentsResult(txt)
  {
    StripPadding(p, txt, q);
  }
}

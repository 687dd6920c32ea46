/**
 * The shim generator of src/index.js (`fetchWasmScript`). A request the classifier
 * rejects yields `null`; any other yields a response whose body is a fixed script
 * template with the request URL spliced in verbatim between `fetch('` and `')`, and
 * whose headers hold the single entry `Content-Type: application/javascript`.
 */
module Shim {
  import opened Wrappers
  import opened Classifier

  /** The generated response: its body text and its header map. */
  datatype ShimResponse = ShimResponse(body: string, headers: map<string, string>)

  const ContentType: string := "Content-Type"
  const JavaScriptMime: string := "application/javascript"

  /** The opening of the fetch call's string literal, where the URL is spliced in. */
  const FetchOpen: string := "fetch('"

  /** The closing of that literal and of the call. */
  const FetchClose: string := "')"

  /** The template text before `fetch('`. */
  const TemplateHead: string := @"(() => {
    let res = "

  /** The template text after `')`. */
  const TemplateTail: string := @";

    const code = document.currentScript.dataset.import || '{}';
    const importObject = eval('(' + code + ')');

    if (WebAssembly.instantiateStreaming !== undefined) {
      res = WebAssembly.instantiateStreaming(res, importObject);
    } else {
      res = (
        WebAssembly.compileStreaming !== undefined
          ? WebAssembly.compileStreaming(res)
          : res.then(response => response.arrayBuffer())
              .then(buff => WebAssembly.compile(buff))
      )
        .then(module =>
          WebAssembly.instantiate(module, importObject)
            .then(instance => ({ module, instance }))
        );
    }

    return res;
  })()"

  /** Everything before the spliced URL. */
  const BodyPrefix: string := TemplateHead + FetchOpen

  /** Everything after the spliced URL. */
  const BodySuffix: string := FetchClose + TemplateTail

  /** `p`, then `u` verbatim, then `q`: template rendering with one substitution point. */
  function Splice(p: string, u: string, q: string): string
  {
    p + u + q
  }

  /**
   * The text between `p` and `q` in `body`, or `None` when `body` does not start
   * with `p` and end with `q` (without overlap).
   */
  function Unsplice(body: string, p: string, q: string): (r: Option<string>)
    ensures r.Some? ==> |p| + |r.value| + |q| == |body|
  {
    if |p| + |q| <= |body| && body[..|p|] == p && body[|body| - |q|..] == q
    then Some(body[|p|..|body| - |q|])
    else None
  }

  /** Unsplicing undoes splicing, for any frame `p`, `q`. */
  lemma UnspliceSplice(p: string, u: string, q: string)
    ensures Unsplice(Splice(p, u, q), p, q) == Some(u)
  {
  }

  /** Splicing rebuilds every body that unsplicing accepts. */
  lemma SpliceUnsplice(body: string, p: string, q: string)
    requires Unsplice(body, p, q).Some?
    ensures Splice(p, Unsplice(body, p, q).value, q) == body
  {
  }

  /** The text of the fetch call the shim opens with, for a given URL. */
  function FetchCallText(url: string): string
  {
    FetchOpen + url + FetchClose
  }

  /** The template instantiated at `url`, with no escaping applied. */
  function ShimBody(url: string): (body: string)
    ensures SplicedUrl(body) == Some(url)
    ensures body[|TemplateHead|..|TemplateHead| + |FetchCallText(url)|] == FetchCallText(url)
  {
    UnspliceSplice(BodyPrefix, url, BodySuffix);
    Splice(BodyPrefix, url, BodySuffix)
  }

  /** The single-entry header map of every generated response. */
  const ShimHeaders: map<string, string> := map[ContentType := JavaScriptMime]

  /** Recovers the spliced URL from a body, or `None` when the body is not an instance of the template. */
  function SplicedUrl(body: string): Option<string>
  {
    Unsplice(body, BodyPrefix, BodySuffix)
  }

  /** Conversely, every body the extraction accepts is the template at the URL it yields. */
  lemma ShimBodyOfSplicedUrl(body: string, url: string)
    requires SplicedUrl(body) == Some(url)
    ensures ShimBody(url) == body
  {
    SpliceUnsplice(body, BodyPrefix, BodySuffix);
  }

  /** Distinct URLs give distinct bodies: nothing about the URL is lost or merged. */
  lemma ShimBodyInjective(u: string, v: string)
    requires ShimBody(u) == ShimBody(v)
    ensures u == v
  {
  }

  /**
   * Where a single-quoted JavaScript string literal whose text starts at `from`
   * closes: the first `'` not consumed by a `\` escape, or `|s|` when none is found.
   */
  function ClosingQuote(s: string, from: nat): (r: nat)
    requires from <= |s|
    ensures from <= r <= |s|
    ensures r < |s| ==> s[r] == '\''
    ensures forall j :: from <= j < r && s[j] == '\'' ==> from < j && s[j - 1] == '\\'
    decreases |s| - from
  {
    if from == |s| then |s|
    else if s[from] == '\'' then from
    else if s[from] == '\\' then (if from + 1 == |s| then |s| else ClosingQuote(s, from + 2))
    else ClosingQuote(s, from + 1)
  }

  /**
   * Scanning a spliced body for the literal's closing quote when the URL holds no
   * backslash: the literal closes at the URL's own first quote, or at the template's
   * closing quote right after the URL when the URL has none.
   */
  lemma {:induction false} ClosingQuoteSplice(p: string, u: string, q: string, i: nat)
    requires i <= |u| && |q| > 0 && q[0] == '\''
    requires forall j :: i <= j < |u| ==> u[j] != '\\'
    ensures ClosingQuote(Splice(p, u, q), |p| + i) == |p| + ClosingQuote(u, i)
    decreases |u| - i
  {
    var body := Splice(p, u, q);
    if i == |u| {
      assert body[|p| + i] == q[0];
    } else {
      assert body[|p| + i] == u[i];
      if u[i] != '\'' {
        ClosingQuoteSplice(p, u, q, i + 1);
      }
    }
  }

  /**
   * For a URL without backslashes, the string literal of the emitted fetch call
   * closes exactly at the end of the URL if and only if the URL holds no single
   * quote: since nothing is escaped, a `'` in the URL closes the literal early and
   * the rest of the URL becomes script text.
   */
  lemma LiteralEndsAtUrlEnd(url: string)
    ensures '\\' !in url ==>
              (ClosingQuote(ShimBody(url), |BodyPrefix|) == |BodyPrefix| + |url| <==> '\'' !in url)
  {
    if '\\' !in url {
      assert BodySuffix[0] == '\'';
      ClosingQuoteSplice(BodyPrefix, url, BodySuffix, 0);
      if '\'' in url {
        var j :| 0 <= j < |url| && url[j] == '\'';
        assert 0 < j ==> url[j - 1] != '\\';
        assert ClosingQuote(url, 0) <= j;
      }
    }
  }

  /** In a string without backslashes the literal closes at the first quote. */
  lemma ClosingQuoteAtFirstQuote(u: string, k: nat)
    requires forall j :: 0 <= j < |u| ==> u[j] != '\\'
    requires k < |u| && u[k] == '\'' && forall j :: 0 <= j < k ==> u[j] != '\''
    ensures ClosingQuote(u, 0) == k
  {
    assert 0 < k ==> u[k - 1] != '\\';
  }

  /** Illustration: in `http://h/a'.wasm` the literal closes before `.wasm`. */
  lemma QuoteInUrlBreaksLiteral()
    ensures ClosingQuote(ShimBody("http://h/a'.wasm"), |BodyPrefix|) == |BodyPrefix| + 10
  {
    var u := "http://h/a'.wasm";
    assert forall j :: 0 <= j < |u| ==> u[j] != '\\';
    assert BodySuffix[0] == '\'';
    ClosingQuoteSplice(BodyPrefix, u, BodySuffix, 0);
    ClosingQuoteAtFirstQuote(u, 10);
  }

  /**
   * Without the backslash condition the equivalence fails both ways. A URL ending in
   * `\` holds no quote, yet its backslash escapes the template's closing quote, so the
   * literal runs past the URL.
   */
  lemma TrailingBackslashEscapesClosingQuote()
    ensures '\'' !in "a\\"
    ensures ClosingQuote(ShimBody("a\\"), |BodyPrefix|) > |BodyPrefix| + |"a\\"|
  {
    var body := ShimBody("a\\");
    var start := |BodyPrefix|;
    assert body == BodyPrefix + "a\\" + BodySuffix;
    assert body[start] == 'a' && body[start + 1] == '\\';
    assert ClosingQuote(body, start) == ClosingQuote(body, start + 1) == ClosingQuote(body, start + 3);
  }

  /** A URL ending in an escaped quote holds a quote, yet the literal closes right after it. */
  lemma EscapedQuoteKeepsLiteralOpen()
    ensures '\'' in "a\\'"
    ensures ClosingQuote(ShimBody("a\\'"), |BodyPrefix|) == |BodyPrefix| + |"a\\'"|
  {
    var body := ShimBody("a\\'");
    var start := |BodyPrefix|;
    assert body == BodyPrefix + "a\\'" + BodySuffix;
    assert body[start] == 'a' && body[start + 1] == '\\' && body[start + 3] == BodySuffix[0] == '\'';
    assert ClosingQuote(body, start) == ClosingQuote(body, start + 1) == ClosingQuote(body, start + 3);
  }

  /**
   * `fetchWasmScript(request)`: `None` (the source's `null`) exactly when the
   * classifier rejects; otherwise a response with the one JavaScript content-type
   * header and a body from which the request URL is recovered unchanged.
   */
  function FetchWasmScript(request: Request, pathname: string -> string): (r: Option<ShimResponse>)
    ensures r.None? <==> !IsWasmScript(request, pathname)
    ensures r.Some? ==> r.value.headers.Keys == {ContentType}
                        && r.value.headers[ContentType] == JavaScriptMime
    ensures r.Some? ==> SplicedUrl(r.value.body) == Some(request.url)
  {
    if !IsWasmScript(request, pathname) then None
    else
      Some(ShimResponse(ShimBody(request.url), ShimHeaders))
  }

  /**
   * The body is a function of the URL alone: two accepted requests (whatever their
   * other fields) get the same body exactly when their URLs are equal.
   */
  lemma SameBodyIffSameUrl(a: Request, b: Request, pathname: string -> string)
    requires IsWasmScript(a, pathname) && IsWasmScript(b, pathname)
    ensures FetchWasmScript(a, pathname).value.body == FetchWasmScript(b, pathname).value.body
            <==> a.url == b.url
  {
    if FetchWasmScript(a, pathname).value.body == FetchWasmScript(b, pathname).value.body {
      ShimBodyInjective(a.url, b.url);
    }
  }
}

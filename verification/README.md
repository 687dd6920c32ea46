# script-wasm, modelled in Dafny

script-wasm is a request-interception hook. It answers a fetch for a `.wasm` file
that the browser is loading as a script (`<script src="foo.wasm">`). The answer is a
generated JavaScript shim. When the browser runs the shim, it fetches the module,
compiles it and instantiates it. It picks the fastest path the engine offers.

The model has three parts, one Dafny module each:

- `Classifier` (`classifier.dfy`): `isWasmScript`. A request is accepted exactly when
  the pathname of its URL ends with the literal `.wasm` and its destination is exactly
  `script`. The suffix test is case-sensitive and literal.
- `Shim` (`shim.dfy`): `fetchWasmScript`. A rejected request gives `None` (the source's
  `null`). An accepted one gives a `ShimResponse`. Its header map has the single entry
  `Content-Type: application/javascript`. Its body is the template text with the
  request URL spliced in verbatim between `fetch('` and `')`. The template is held as
  exact string constants. Extracting the URL back out of the body is proved to invert
  the splicing, in both directions.
- `Runtime` (`runtime.dfy`): the decision procedure written into the template. `Run`
  takes the host's capability flags, the URL and the script element's `data-import`
  attribute. It returns the ordered trace of host primitives the shim calls, and the
  settled state of the promise the shim returns. Host values are symbolic terms:
  `Module(Bytes(Fetched(url)))` is the module compiled from the bytes of that fetch.
  So the trace shows which primitive received which value.

`wrappers.dfy` holds the `Option` and `Result` datatypes.

The URL is spliced in unescaped (src/index.js:9), so the model does too.
`Shim.LiteralEndsAtUrlEnd` states the consequence: for a URL without backslashes, the
fetch literal closes exactly at the end of the URL if and only if the URL contains no
`'`.

## Model

| member | source | states |
|---|---|---|
| `Classifier.EndsWithIffSplit` | src/index.js:2 | `endsWith(suffix)` holds exactly when the string is some stem followed by the suffix |
| `Classifier.EndsWithScan` | src/index.js:2 | scanning characters backwards from the end returns true iff the pathname ends with the suffix |
| `Classifier.IsWasmScript` | src/index.js:1-3 | a request is accepted iff its pathname is a stem followed by `.wasm` and its destination is `script`; any other destination, or any other pathname, is rejected |
| `Classifier.Classify` | src/index.js:1-3 | the executable classifier returns true exactly under the same two conditions |
| `Classifier.ExtensionBreaksMatch` | src/index.js:2 | appending a non-empty text that does not itself end in `.wasm` to a matching pathname loses the match, so `foo.wasm.js` is rejected |
| `Classifier.UpperCaseRejected` | src/index.js:2 | a pathname ending in `.WASM` is rejected: the match is case-sensitive |
| `Shim.UnspliceSplice` | src/index.js:8-9 | cutting the prefix and the suffix off a spliced text gives back exactly the spliced value |
| `Shim.SpliceUnsplice` | src/index.js:8-9 | every text the extraction accepts is the splice of the value it extracts |
| `Shim.ShimBody` | src/index.js:8-30 | the URL is recovered unchanged from the generated body, and the body contains `fetch('` + URL + `')` verbatim right after the template head |
| `Shim.ShimBodyOfSplicedUrl` | src/index.js:8-30 | a body the extraction accepts is exactly the template rendered at the extracted URL |
| `Shim.ShimBodyInjective` | src/index.js:8-30 | different URLs give different bodies |
| `Shim.ClosingQuoteSplice` | src/index.js:9 | for a URL without backslashes, the fetch literal closes at the URL's own first quote, or else at the template's closing quote right after the URL |
| `Shim.LiteralEndsAtUrlEnd` | src/index.js:9 | for a URL without backslashes, the fetch literal closes exactly at the URL's end iff the URL has no `'` (no escaping is applied) |
| `Shim.QuoteInUrlBreaksLiteral` | src/index.js:9 | illustration: for `http://h/a'.wasm` the literal closes after 10 characters, before `.wasm` |
| `Shim.TrailingBackslashEscapesClosingQuote` | src/index.js:9 | the URL `a\` has no quote, yet its backslash escapes the template's closing quote and the literal runs past the URL |
| `Shim.EscapedQuoteKeepsLiteralOpen` | src/index.js:9 | the URL `a\'` has a quote, yet the literal closes exactly at its end |
| `Shim.FetchWasmScript` | src/index.js:5-35 | `None` iff the classifier rejects; otherwise the headers are exactly `{Content-Type: application/javascript}` and the URL is recovered unchanged from the body |
| `Shim.SameBodyIffSameUrl` | src/index.js:8-9 | two accepted requests get equal bodies iff their URLs are equal; no other field matters |
| `Runtime.ImportSpec` | src/index.js:11 | the import spec is never empty; it is the attribute text when that text is non-empty, and `{}` otherwise (also for an empty attribute) |
| `Runtime.Select` | src/index.js:14-18 | the chosen strategy is one the host offers, and no offered strategy comes earlier in the probe order (streaming instantiate, then streaming compile, then buffered) |
| `Runtime.InstantiateModule` | src/index.js:23-26 | the shared tail succeeds iff `instantiate` is defined; it then appends one `instantiate(module, importObject)` call and settles to that module paired with the call's instance; otherwise it rejects naming `WebAssembly.instantiate` |
| `Runtime.Proceed` | src/index.js:14-27 | the probing branch only appends calls to the trace it starts from |
| `Runtime.Run` | src/index.js:9-12 | every run starts with the fetch of the URL, then `eval` of `(` + import spec + `)`, then at least one more call |
| `Runtime.RunDataflow` | src/index.js:9-27 | each call consumes only values that earlier calls produced; the settled value, or both halves of the settled pair, were produced by the trace |
| `Runtime.ProceedDataflow` | src/index.js:14-27 | the probing branch preserves that ordering for any well-ordered prologue |
| `Runtime.ExactlyOneStrategy` | src/index.js:14-27 | every strategy-specific call belongs to the strategy the probes select; exactly one strategy-opening call is made |
| `Runtime.StreamingInstantiatePath` | src/index.js:14-15 | with `instantiateStreaming` defined: trace is fetch, eval, `instantiateStreaming(response, importObject)`; no `compile` or `instantiate` call |
| `Runtime.StreamingCompilePath` | src/index.js:17-26 | with only `compileStreaming`: `compileStreaming` then `instantiate` of that module, each once; no `compile` call |
| `Runtime.BufferedCompilePath` | src/index.js:17-26 | with neither streaming primitive: `arrayBuffer`, `compile` of those bytes, `instantiate` of that module, each once |
| `Runtime.FallbackPairsModuleWithItsInstance` | src/index.js:17-26 | in the fallback strategies the last call instantiates the module made by the call just before it; the result pairs that module with that instance |
| `Runtime.ImportsReachInstantiation` | src/index.js:11-24 | with no attribute `eval` receives `({})`; every instantiating call receives the evaluated import object |
| `Runtime.UnusedPrimitivesIrrelevant` | src/index.js:14-21 | `compile` matters only in the buffered strategy; `instantiate` does not matter under streaming instantiation |
| `Runtime.UndefinedPrimitiveRejects` | src/index.js:20-24 | the promise rejects iff the chosen fallback calls an undefined `compile` or `instantiate`; the error names that primitive and the call is absent from the trace |

## Left out

- URL parsing: `new URL(url).pathname` is a host library call. The classifier takes it as a caller-supplied function. The `TypeError` a malformed URL throws is not modelled.
- `Response` and `Headers` objects: only the body text and the header map are modelled. Header-name case-insensitivity is not modelled.
- JavaScript evaluation: `eval` of the import spec yields a symbolic `ImportObject` term. A spec that fails to parse or throws is not modelled.
- Parsing the emitted script: `Run` takes the URL that the fetch literal denotes. That equals the request URL only when the URL has no `'`, `\` or line break. Escape sequences are not decoded, and line breaks inside the literal are not modelled.
- Shim.LiteralEndsAtUrlEnd: the equivalence is stated only for URLs without backslashes. With a `\` the scan skips the escaped character, and the equivalence fails in both directions, as `Shim.TrailingBackslashEscapesClosingQuote` and `Shim.EscapedQuoteKeepsLiteralOpen` show.
- WebAssembly and network semantics: the host primitives are opaque and always fulfil. A network failure, an invalid binary or an import mismatch rejects the promise in the source; the model does not include these rejections. The only rejection modelled is calling an undefined `compile` or `instantiate`, which the source never probes for.
- Probes: a host flag means "defined and callable". A defined value that is not a function would pass the `!== undefined` probe and then throw; that case is not modelled.
- `document.currentScript` is assumed present. The `data-import` attribute is a parameter.
- Promise scheduling and timing: the trace records the order in which calls are issued. The event loop, and delays such as the tests' 300 ms wait, are not modelled.
- The test harness, the fetch mocking and the wasm byte fixtures are not modelled.

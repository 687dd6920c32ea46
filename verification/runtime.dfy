/**
 * The decision procedure the generated shim runs in the browser (src/index.js:9-29).
 * It fetches the URL, reads and evaluates the import spec, then probes the host's
 * WebAssembly object: streaming instantiation if defined, else streaming compilation
 * followed by instantiation, else a buffered compile followed by instantiation.
 *
 * Host primitives are opaque: each call is recorded in an ordered trace and settles
 * to a symbolic term naming how its value was made, so the trace shows which
 * primitives ran, in which order, and on which values.
 */
module Runtime {
  import opened Wrappers

  /**
   * Which host functions are defined when the shim runs. The first two are probed
   * (`!== undefined`); `compile` and `instantiate` are called without a probe.
   */
  datatype Host = Host(instantiateStreaming: bool, compileStreaming: bool, compile: bool, instantiate: bool)

  /** The three ways the shim can reach a module and an instance. */
  datatype Strategy = StreamingInstantiate | StreamingCompile | BufferedCompile

  /** Symbolic values produced by host primitives. */
  datatype Term =
    | Fetched(url: string)                      // the response promise of `fetch(url)`
    | ImportObject(text: string)                // the value of `eval(source)`
    | Bytes(response: Term)                     // `response.arrayBuffer()`
    | Module(origin: Term)                      // a module compiled from a response or from bytes
    | Instance(compiled: Term, imports: Term)     // `instantiate(module, imports)`
    | Pair(compiled: Term, instance: Term)        // the `{ module, instance }` the shim builds
    | StreamedPair(response: Term, imports: Term) // the pair `instantiateStreaming` settles to

  /** One invocation of a host primitive, with its arguments. */
  datatype Call =
    | Fetch(url: string)
    | Eval(text: string)
    | InstantiateStreaming(response: Term, imports: Term)
    | CompileStreaming(response: Term)
    | ArrayBuffer(response: Term)
    | Compile(bytes: Term)
    | Instantiate(compiled: Term, imports: Term)

  /** Why the shim's promise rejects: it called a host function that is not defined. */
  datatype Rejection = NotAFunction(primitive: string)

  /** The trace of host calls and the settled state of the shim's returned promise. */
  datatype Execution = Execution(calls: seq<Call>, outcome: Result<Term, Rejection>)

  /** The import spec used when the script element carries none. */
  const DefaultImportSpec: string := "{}"

  /**
   * `document.currentScript.dataset.import || '{}'`: the attribute text when it is
   * present and non-empty (JavaScript's `||` also replaces the empty string), the
   * empty-object text otherwise.
   */
  function ImportSpec(attr: Option<string>): (code: string)
    ensures code != ""
    ensures code == DefaultImportSpec || (attr.Some? && code == attr.value)
    ensures attr.Some? && attr.value != "" ==> code == attr.value
  {
    if attr.None? || attr.value == "" then DefaultImportSpec else attr.value
  }

  /** The text handed to `eval`: the import spec wrapped in parentheses. */
  function EvalSource(code: string): string
  {
    "(" + code + ")"
  }

  /** Whether the host offers what a strategy needs; the buffered path needs no streaming primitive. */
  predicate Available(host: Host, s: Strategy)
  {
    match s
    case StreamingInstantiate => host.instantiateStreaming
    case StreamingCompile => host.compileStreaming
    case BufferedCompile => true
  }

  /** The order the probes try the strategies in, fastest first. */
  function Preference(s: Strategy): nat
  {
    match s
    case StreamingInstantiate => 0
    case StreamingCompile => 1
    case BufferedCompile => 2
  }

  /** The probe order: the selected strategy is the most preferred one the host offers. */
  function Select(host: Host): (s: Strategy)
    ensures Available(host, s)
    ensures forall t :: Available(host, t) ==> Preference(s) <= Preference(t)
  {
    if host.instantiateStreaming then StreamingInstantiate
    else if host.compileStreaming then StreamingCompile
    else BufferedCompile
  }

  /** The value a call settles to. */
  function Yield(c: Call): Term
  {
    match c
    case Fetch(url) => Fetched(url)
    case Eval(text) => ImportObject(text)
    case InstantiateStreaming(response, imports) => StreamedPair(response, imports)
    case CompileStreaming(response) => Module(response)
    case ArrayBuffer(response) => Bytes(response)
    case Compile(bytes) => Module(bytes)
    case Instantiate(compiled, imports) => Instance(compiled, imports)
  }

  /** The host values a call consumes. */
  function Args(c: Call): set<Term>
  {
    match c
    case Fetch(_) => {}
    case Eval(_) => {}
    case InstantiateStreaming(response, imports) => {response, imports}
    case CompileStreaming(response) => {response}
    case ArrayBuffer(response) => {response}
    case Compile(bytes) => {bytes}
    case Instantiate(compiled, imports) => {compiled, imports}
  }

  /** The strategy a call belongs to, if it belongs to one. */
  function StrategyOf(c: Call): Option<Strategy>
  {
    match c
    case InstantiateStreaming(_, _) => Some(StreamingInstantiate)
    case CompileStreaming(_) => Some(StreamingCompile)
    case ArrayBuffer(_) => Some(BufferedCompile)
    case Compile(_) => Some(BufferedCompile)
    case _ => None
  }

  /** Every value produced by some call of the trace. */
  function Yields(calls: seq<Call>): set<Term>
  {
    if calls == [] then {} else Yields(calls[..|calls| - 1]) + {Yield(calls[|calls| - 1])}
  }

  /** Each call consumes only values that earlier calls of the trace produced. */
  predicate DataflowOk(calls: seq<Call>)
  {
    forall i :: 0 <= i < |calls| ==> Args(calls[i]) <= Yields(calls[..i])
  }

  /** The names of the primitives, for counting invocations. */
  datatype Primitive = PFetch | PEval | PInstantiateStreaming | PCompileStreaming | PArrayBuffer | PCompile | PInstantiate

  /** The primitive a call invokes. */
  function PrimitiveOf(c: Call): Primitive
  {
    match c
    case Fetch(_) => PFetch
    case Eval(_) => PEval
    case InstantiateStreaming(_, _) => PInstantiateStreaming
    case CompileStreaming(_) => PCompileStreaming
    case ArrayBuffer(_) => PArrayBuffer
    case Compile(_) => PCompile
    case Instantiate(_, _) => PInstantiate
  }

  /** How many times the trace invokes primitive `p`. */
  function Count(calls: seq<Call>, p: Primitive): nat
  {
    if calls == [] then 0
    else (if PrimitiveOf(calls[0]) == p then 1 else 0) + Count(calls[1..], p)
  }

  /** A primitive invoked nowhere in the trace is counted zero times. */
  lemma {:induction false} CountAbsent(calls: seq<Call>, p: Primitive)
    requires forall i :: 0 <= i < |calls| ==> PrimitiveOf(calls[i]) != p
    ensures Count(calls, p) == 0
  {
    if calls != [] {
      assert forall j :: 0 <= j < |calls[1..]| ==> calls[1..][j] == calls[j + 1];
      CountAbsent(calls[1..], p);
    }
  }

  /** A primitive invoked at exactly one position of the trace is counted once. */
  lemma {:induction false} CountUnique(calls: seq<Call>, p: Primitive, k: nat)
    requires k < |calls| && PrimitiveOf(calls[k]) == p
    requires forall j :: 0 <= j < |calls| && j != k ==> PrimitiveOf(calls[j]) != p
    ensures Count(calls, p) == 1
    decreases k
  {
    if k == 0 {
      assert forall j :: 0 <= j < |calls[1..]| ==> calls[1..][j] == calls[j + 1];
      CountAbsent(calls[1..], p);
    } else {
      forall j | 0 <= j < |calls[1..]| && j != k - 1 ensures PrimitiveOf(calls[1..][j]) != p {
        assert calls[1..][j] == calls[j + 1];
      }
      CountUnique(calls[1..], p, k - 1);
    }
  }

  /** Extending a trace by one call adds that call's value to what the trace produced. */
  lemma YieldsSnoc(calls: seq<Call>, c: Call)
    ensures Yields(calls + [c]) == Yields(calls) + {Yield(c)}
  {
  }

  /** A call consuming only values already produced extends a well-ordered trace. */
  lemma DataflowSnoc(calls: seq<Call>, c: Call)
    requires DataflowOk(calls)
    requires Args(c) <= Yields(calls)
    ensures DataflowOk(calls + [c])
  {
    var ext := calls + [c];
    forall i | 0 <= i < |ext| ensures Args(ext[i]) <= Yields(ext[..i]) {
      if i < |calls| {
        assert ext[..i] == calls[..i];
        assert ext[i] == calls[i];
      } else {
        assert ext[..i] == calls;
      }
    }
  }

  /**
   * The fallback tail shared by both non-streaming-instantiate strategies:
   * `.then(module => WebAssembly.instantiate(module, importObject).then(instance => ({ module, instance })))`.
   */
  function InstantiateModule(host: Host, calls: seq<Call>, compiled: Term, imports: Term): (e: Execution)
    ensures e.outcome.Success? <==> host.instantiate
    ensures e.outcome.Success? ==>
              && e.calls == calls + [Instantiate(compiled, imports)]
              && e.outcome.value == Pair(compiled, Yield(e.calls[|calls|]))
    ensures e.outcome.Failure? ==>
              e.calls == calls && e.outcome.error == NotAFunction("WebAssembly.instantiate")
  {
    if !host.instantiate then Execution(calls, Failure(NotAFunction("WebAssembly.instantiate")))
    else
      var inst := Instantiate(compiled, imports);
      Execution(calls + [inst], Success(Pair(compiled, Yield(inst))))
  }

  /**
   * The probing branch (src/index.js:14-27), run after the calls in `prologue`,
   * with `response` the in-flight fetch and `imports` the evaluated import object.
   */
  function Proceed(host: Host, prologue: seq<Call>, response: Term, imports: Term): (e: Execution)
    ensures |e.calls| > |prologue| && e.calls[..|prologue|] == prologue
  {
    match Select(host)
    case StreamingInstantiate =>
      var c := InstantiateStreaming(response, imports);
      Execution(prologue + [c], Success(Yield(c)))
    case StreamingCompile =>
      var c := CompileStreaming(response);
      InstantiateModule(host, prologue + [c], Yield(c), imports)
    case BufferedCompile =>
      var a := ArrayBuffer(response);
      if !host.compile then Execution(prologue + [a], Failure(NotAFunction("WebAssembly.compile")))
      else
        var c := Compile(Yield(a));
        InstantiateModule(host, prologue + [a] + [c], Yield(c), imports)
  }

  /**
   * One execution of the generated shim for the URL its fetch literal denotes and
   * the script element's `data-import` attribute: fetch, read and evaluate the
   * import spec, then proceed by probing.
   */
  function Run(host: Host, url: string, attr: Option<string>): (e: Execution)
    ensures |e.calls| >= 3
    ensures e.calls[0] == Fetch(url)
    ensures e.calls[1] == Eval("(" + ImportSpec(attr) + ")")
  {
    var fetch := Fetch(url);
    var eval := Eval(EvalSource(ImportSpec(attr)));
    var e := Proceed(host, [fetch, eval], Yield(fetch), Yield(eval));
    assert e.calls[..2][0] == fetch && e.calls[..2][1] == eval;
    e
  }

  /** The import object the shim evaluates from the script element's attribute. */
  function ImportsOf(attr: Option<string>): Term
  {
    ImportObject(EvalSource(ImportSpec(attr)))
  }

  /**
   * Ordering of the whole run (src/index.js:9-27): every primitive consumes only
   * values produced earlier in the trace, so no module is instantiated before the
   * call producing it, and the settled value is made of values the trace produced.
   */
  lemma RunDataflow(host: Host, url: string, attr: Option<string>)
    ensures WellOrdered(Run(host, url, attr))
  {
    var f := Fetch(url);
    var ev := Eval(EvalSource(ImportSpec(attr)));
    assert DataflowOk([]);
    DataflowSnoc([], f);
    YieldsSnoc([], f);
    assert [] + [f] == [f];
    DataflowSnoc([f], ev);
    YieldsSnoc([f], ev);
    assert [f] + [ev] == [f, ev];
    ProceedDataflow(host, [f, ev], Yield(f), Yield(ev));
  }

  /** Well-ordered dataflow of a trace and of the value it settles to. */
  predicate WellOrdered(e: Execution)
  {
    && DataflowOk(e.calls)
    && (e.outcome.Success? && e.outcome.value.Pair? ==>
          e.outcome.value.compiled in Yields(e.calls) && e.outcome.value.instance in Yields(e.calls))
    && (e.outcome.Success? && !e.outcome.value.Pair? ==> e.outcome.value in Yields(e.calls))
  }

  /** The probing branch keeps a well-ordered trace well ordered. */
  lemma ProceedDataflow(host: Host, prologue: seq<Call>, response: Term, imports: Term)
    requires DataflowOk(prologue)
    requires response in Yields(prologue) && imports in Yields(prologue)
    ensures WellOrdered(Proceed(host, prologue, response, imports))
  {
    match Select(host)
    case StreamingInstantiate =>
      var c := InstantiateStreaming(response, imports);
      DataflowSnoc(prologue, c);
      YieldsSnoc(prologue, c);
    case StreamingCompile =>
      StreamingCompileDataflow(host, prologue, response, imports);
    case BufferedCompile =>
      BufferedCompileDataflow(host, prologue, response, imports);
  }

  /** ProceedDataflow for the streaming-compile branch. */
  lemma StreamingCompileDataflow(host: Host, prologue: seq<Call>, response: Term, imports: Term)
    requires Select(host) == StreamingCompile
    requires DataflowOk(prologue)
    requires response in Yields(prologue) && imports in Yields(prologue)
    ensures WellOrdered(Proceed(host, prologue, response, imports))
  {
    var c := CompileStreaming(response);
    DataflowSnoc(prologue, c);
    YieldsSnoc(prologue, c);
    FinishDataflow(host, prologue + [c], Yield(c), imports);
  }

  /** ProceedDataflow for the buffered-compile branch. */
  lemma BufferedCompileDataflow(host: Host, prologue: seq<Call>, response: Term, imports: Term)
    requires Select(host) == BufferedCompile
    requires DataflowOk(prologue)
    requires response in Yields(prologue) && imports in Yields(prologue)
    ensures WellOrdered(Proceed(host, prologue, response, imports))
  {
    var ab := ArrayBuffer(response);
    DataflowSnoc(prologue, ab);
    YieldsSnoc(prologue, ab);
    if host.compile {
      var c := Compile(Yield(ab));
      DataflowSnoc(prologue + [ab], c);
      YieldsSnoc(prologue + [ab], c);
      FinishDataflow(host, prologue + [ab] + [c], Yield(c), imports);
    }
  }

  /** The shared instantiation tail keeps the trace well ordered. */
  lemma FinishDataflow(host: Host, calls: seq<Call>, compiled: Term, imports: Term)
    requires DataflowOk(calls)
    requires compiled in Yields(calls) && imports in Yields(calls)
    ensures WellOrdered(InstantiateModule(host, calls, compiled, imports))
  {
    if host.instantiate {
      var inst := Instantiate(compiled, imports);
      DataflowSnoc(calls, inst);
      YieldsSnoc(calls, inst);
      assert InstantiateModule(host, calls, compiled, imports)
          == Execution(calls + [inst], Success(Pair(compiled, Yield(inst))));
    }
  }

  /**
   * Exactly one strategy runs (src/index.js:14-27): every strategy-specific call in
   * the trace belongs to the strategy the probes select, and that strategy's first
   * primitive is invoked exactly once.
   */
  lemma ExactlyOneStrategy(host: Host, url: string, attr: Option<string>)
    ensures var calls := Run(host, url, attr).calls;
            (forall i :: 0 <= i < |calls| && StrategyOf(calls[i]).Some? ==>
               StrategyOf(calls[i]).value == Select(host))
            && StrategyOf(calls[2]) == Some(Select(host))
            && Count(calls, PInstantiateStreaming) + Count(calls, PCompileStreaming) + Count(calls, PArrayBuffer) == 1
  {
    match Select(host)
    case StreamingInstantiate => OneStrategyStreamingInstantiate(host, url, attr);
    case StreamingCompile => OneStrategyStreamingCompile(host, url, attr);
    case BufferedCompile => OneStrategyBuffered(host, url, attr);
  }

  /** ExactlyOneStrategy when streaming instantiation is selected. */
  lemma OneStrategyStreamingInstantiate(host: Host, url: string, attr: Option<string>)
    requires Select(host) == StreamingInstantiate
    ensures var calls := Run(host, url, attr).calls;
            (forall i :: 0 <= i < |calls| && StrategyOf(calls[i]).Some? ==>
               StrategyOf(calls[i]).value == Select(host))
            && StrategyOf(calls[2]) == Some(Select(host))
            && Count(calls, PInstantiateStreaming) + Count(calls, PCompileStreaming) + Count(calls, PArrayBuffer) == 1
  {
    var calls := Run(host, url, attr).calls;
    assert calls == [Fetch(url), Eval(EvalSource(ImportSpec(attr))),
                     InstantiateStreaming(Fetched(url), ImportsOf(attr))];
    CountUnique(calls, PInstantiateStreaming, 2);
    CountAbsent(calls, PCompileStreaming);
    CountAbsent(calls, PArrayBuffer);
  }

  /** ExactlyOneStrategy when streaming compilation is selected. */
  lemma OneStrategyStreamingCompile(host: Host, url: string, attr: Option<string>)
    requires Select(host) == StreamingCompile
    ensures var calls := Run(host, url, attr).calls;
            (forall i :: 0 <= i < |calls| && StrategyOf(calls[i]).Some? ==>
               StrategyOf(calls[i]).value == Select(host))
            && StrategyOf(calls[2]) == Some(Select(host))
            && Count(calls, PInstantiateStreaming) + Count(calls, PCompileStreaming) + Count(calls, PArrayBuffer) == 1
  {
    var calls := Run(host, url, attr).calls;
    var prologue := [Fetch(url), Eval(EvalSource(ImportSpec(attr)))];
    var c := CompileStreaming(Fetched(url));
    assert calls == prologue + [c] || calls == prologue + [c, Instantiate(Yield(c), ImportsOf(attr))];
    CountUnique(calls, PCompileStreaming, 2);
    CountAbsent(calls, PInstantiateStreaming);
    CountAbsent(calls, PArrayBuffer);
  }

  /** ExactlyOneStrategy when the buffered compile is selected. */
  lemma OneStrategyBuffered(host: Host, url: string, attr: Option<string>)
    requires Select(host) == BufferedCompile
    ensures var calls := Run(host, url, attr).calls;
            (forall i :: 0 <= i < |calls| && StrategyOf(calls[i]).Some? ==>
               StrategyOf(calls[i]).value == Select(host))
            && StrategyOf(calls[2]) == Some(Select(host))
            && Count(calls, PInstantiateStreaming) + Count(calls, PCompileStreaming) + Count(calls, PArrayBuffer) == 1
  {
    var calls := Run(host, url, attr).calls;
    var prologue := [Fetch(url), Eval(EvalSource(ImportSpec(attr)))];
    var ab := ArrayBuffer(Fetched(url));
    var c := Compile(Yield(ab));
    if !host.compile {
      assert calls == prologue + [ab];
    } else if !host.instantiate {
      assert calls == prologue + [ab, c];
    } else {
      assert calls == prologue + [ab, c, Instantiate(Yield(c), ImportsOf(attr))];
    }
    CountUnique(calls, PArrayBuffer, 2);
    CountAbsent(calls, PInstantiateStreaming);
    CountAbsent(calls, PCompileStreaming);
  }

  /**
   * With `instantiateStreaming` defined (src/index.js:14-15), the trace is fetch,
   * eval, then one `instantiateStreaming` on the fetch's response and the import
   * object; neither `compile` nor `instantiate` is called, and the shim settles to
   * the pair the host built.
   */
  lemma StreamingInstantiatePath(host: Host, url: string, attr: Option<string>)
    requires host.instantiateStreaming
    ensures var e := Run(host, url, attr);
            e.calls == [Fetch(url), Eval(EvalSource(ImportSpec(attr))),
                        InstantiateStreaming(Fetched(url), ImportsOf(attr))]
            && e.outcome == Success(StreamedPair(Fetched(url), ImportsOf(attr)))
            && Count(e.calls, PCompile) == 0 && Count(e.calls, PInstantiate) == 0
            && Count(e.calls, PInstantiateStreaming) == 1
  {
    CountUnique(Run(host, url, attr).calls, PInstantiateStreaming, 2);
    CountAbsent(Run(host, url, attr).calls, PCompile);
    CountAbsent(Run(host, url, attr).calls, PInstantiate);
  }

  /**
   * With only `compileStreaming` defined (src/index.js:17-19, 23-26), the trace is
   * fetch, eval, `compileStreaming` on the response, and `instantiate` of that very
   * module with the import object, each once; `compile` is never called.
   */
  lemma StreamingCompilePath(host: Host, url: string, attr: Option<string>)
    requires !host.instantiateStreaming && host.compileStreaming && host.instantiate
    ensures var e := Run(host, url, attr);
            var m := Module(Fetched(url));
            e.calls == [Fetch(url), Eval(EvalSource(ImportSpec(attr))),
                        CompileStreaming(Fetched(url)), Instantiate(m, ImportsOf(attr))]
            && e.outcome == Success(Pair(m, Instance(m, ImportsOf(attr))))
            && Count(e.calls, PCompileStreaming) == 1 && Count(e.calls, PInstantiate) == 1
            && Count(e.calls, PCompile) == 0 && Count(e.calls, PInstantiateStreaming) == 0
  {
    var calls := Run(host, url, attr).calls;
    CountUnique(calls, PCompileStreaming, 2);
    CountUnique(calls, PInstantiate, 3);
    CountAbsent(calls, PCompile);
    CountAbsent(calls, PInstantiateStreaming);
  }

  /**
   * With neither streaming primitive (src/index.js:20-21, 23-26), the trace is fetch,
   * eval, `arrayBuffer` of the response, `compile` of those bytes, and `instantiate`
   * of the compiled module with the import object, each once.
   */
  lemma BufferedCompilePath(host: Host, url: string, attr: Option<string>)
    requires !host.instantiateStreaming && !host.compileStreaming && host.compile && host.instantiate
    ensures var e := Run(host, url, attr);
            var m := Module(Bytes(Fetched(url)));
            e.calls == [Fetch(url), Eval(EvalSource(ImportSpec(attr))), ArrayBuffer(Fetched(url)),
                        Compile(Bytes(Fetched(url))), Instantiate(m, ImportsOf(attr))]
            && e.outcome == Success(Pair(m, Instance(m, ImportsOf(attr))))
            && Count(e.calls, PArrayBuffer) == 1 && Count(e.calls, PCompile) == 1
            && Count(e.calls, PInstantiate) == 1
            && Count(e.calls, PCompileStreaming) == 0 && Count(e.calls, PInstantiateStreaming) == 0
  {
    var calls := Run(host, url, attr).calls;
    CountUnique(calls, PArrayBuffer, 2);
    CountUnique(calls, PCompile, 3);
    CountUnique(calls, PInstantiate, 4);
    CountAbsent(calls, PCompileStreaming);
    CountAbsent(calls, PInstantiateStreaming);
  }

  /**
   * In both fallback strategies the settled pair holds the module the trace's
   * module-producing step made and the instance the final `instantiate` made from
   * that same module and the evaluated import object.
   */
  lemma FallbackPairsModuleWithItsInstance(host: Host, url: string, attr: Option<string>)
    requires Select(host) != StreamingInstantiate
    ensures var e := Run(host, url, attr);
            e.outcome.Success? ==>
              var n := |e.calls|;
              && n >= 4
              && e.outcome.value.Pair?
              && e.calls[n - 1] == Instantiate(e.outcome.value.compiled, ImportsOf(attr))
              && e.outcome.value.instance == Yield(e.calls[n - 1])
              && Yield(e.calls[n - 2]) == e.outcome.value.compiled
              && (e.calls[n - 2].CompileStreaming? || e.calls[n - 2].Compile?)
  {
  }

  /**
   * The import spec defaults to `{}` and its evaluation is the import object every
   * instantiating call receives.
   */
  lemma ImportsReachInstantiation(host: Host, url: string, attr: Option<string>)
    ensures var calls := Run(host, url, attr).calls;
            && (attr.None? ==> calls[1] == Eval("({})"))
            && forall i :: 0 <= i < |calls| ==>
                 (calls[i].InstantiateStreaming? || calls[i].Instantiate?) ==>
                   calls[i].imports == Yield(calls[1])
  {
  }

  /**
   * `compile` is never probed: in the streaming strategies whether it is defined
   * makes no difference, and the streaming-instantiate run does not depend on
   * `instantiate` either.
   */
  lemma UnusedPrimitivesIrrelevant(host: Host, url: string, attr: Option<string>, defined: bool)
    ensures Select(host) != BufferedCompile ==>
              Run(host, url, attr) == Run(host.(compile := defined), url, attr)
    ensures Select(host) == StreamingInstantiate ==>
              Run(host, url, attr) == Run(host.(instantiate := defined), url, attr)
  {
  }

  /**
   * Calling an undefined `compile` or `instantiate` rejects the shim's promise with
   * a type error naming it and the call absent from the trace, since the source
   * probes neither; no other host configuration rejects.
   */
  lemma UndefinedPrimitiveRejects(host: Host, url: string, attr: Option<string>)
    ensures var e := Run(host, url, attr);
            var noCompile := Select(host) == BufferedCompile && !host.compile;
            var noInstantiate := Select(host) != StreamingInstantiate && !host.instantiate;
            && (e.outcome.Failure? <==> noCompile || noInstantiate)
            && (noCompile ==> e.outcome == Failure(NotAFunction("WebAssembly.compile")) && Count(e.calls, PCompile) == 0)
            && (!noCompile && noInstantiate ==> e.outcome == Failure(NotAFunction("WebAssembly.instantiate")))
            && (e.outcome.Failure? ==> Count(e.calls, PInstantiate) == 0)
  {
    var e := Run(host, url, attr);
    if e.outcome.Failure? {
      CountAbsent(e.calls, PInstantiate);
      if Select(host) == BufferedCompile && !host.compile {
        CountAbsent(e.calls, PCompile);
      }
    }
  }
}

/**
 * The request classifier of src/index.js (`isWasmScript`): a request is ours exactly
 * when the pathname of its URL ends with the literal `.wasm` and the request's
 * destination is exactly `script`.
 *
 * Parsing the URL (`new URL(url).pathname`) is a host library call; the model takes
 * it as a caller-supplied function from URL text to pathname text.
 */
module Classifier {

  /** An intercepted request: only the two fields the core reads. */
  datatype Request = Request(url: string, destination: string)

  /** The literal suffix the pathname must carry. */
  const WasmSuffix: string := ".wasm"

  /** The destination a `<script>` load carries. */
  const ScriptDestination: string := "script"

  /** `s.endsWith(suffix)`: the last `|suffix|` characters of `s` are `suffix`. */
  predicate EndsWith(s: string, suffix: string)
  {
    |suffix| <= |s| && s[|s| - |suffix|..] == suffix
  }

  /** A string ends with `suffix` exactly when it is some stem followed by `suffix`. */
  lemma EndsWithIffSplit(s: string, suffix: string)
    ensures EndsWith(s, suffix) <==> exists stem :: s == stem + suffix
  {
    if EndsWith(s, suffix) {
      assert s == s[..|s| - |suffix|] + suffix;
    }
    if stem :| s == stem + suffix {
      assert s[|s| - |suffix|..] == (stem + suffix)[|stem|..];
      assert (stem + suffix)[|stem|..] == suffix;
    }
  }

  /**
   * `String.prototype.endsWith` as a scan from the end of both strings; it agrees
   * with the slice definition above.
   */
  method EndsWithScan(s: string, suffix: string) returns (b: bool)
    ensures b <==> EndsWith(s, suffix)
  {
    if |s| < |suffix| {
      return false;
    }
    var offset := |s| - |suffix|;
    var k := |suffix|;
    while k > 0
      invariant 0 <= k <= |suffix|
      invariant s[offset + k..] == suffix[k..]
    {
      if s[offset + k - 1] != suffix[k - 1] {
        assert s[offset..][k - 1] != suffix[k - 1];
        return false;
      }
      k := k - 1;
    }
    return true;
  }

  /**
   * `isWasmScript(request)`, with `pathname` standing for `new URL(url).pathname`.
   * It accepts exactly the requests whose pathname is some stem followed by `.wasm`
   * and whose destination is `script`; any other destination, and any pathname
   * without that suffix, is rejected.
   */
  predicate IsWasmScript(request: Request, pathname: string -> string): (accepted: bool)
    ensures accepted <==> (exists stem :: pathname(request.url) == stem + WasmSuffix)
                          && request.destination == ScriptDestination
  {
    EndsWithIffSplit(pathname(request.url), WasmSuffix);
    EndsWith(pathname(request.url), WasmSuffix) && request.destination == ScriptDestination
  }

  /** The classifier as a host-side method built on the character scan. */
  method Classify(request: Request, pathname: string -> string) returns (accept: bool)
    ensures accept <==> (exists stem :: pathname(request.url) == stem + WasmSuffix)
                        && request.destination == ScriptDestination
  {
    var ends := EndsWithScan(pathname(request.url), WasmSuffix);
    EndsWithIffSplit(pathname(request.url), WasmSuffix);
    accept := ends && request.destination == ScriptDestination;
  }

  /**
   * The suffix test is literal and border-free: once a pathname ends with `.wasm`,
   * appending any non-empty text that does not itself end with `.wasm` (such as
   * `.js`) loses the match.
   */
  lemma {:induction false} ExtensionBreaksMatch(s: string, t: string)
    requires EndsWith(s, WasmSuffix)
    requires |t| > 0 && !EndsWith(t, WasmSuffix)
    ensures !EndsWith(s + t, WasmSuffix)
  {
    var st := s + t;
    if |t| >= |WasmSuffix| {
      assert st[|st| - |WasmSuffix|..] == t[|t| - |WasmSuffix|..];
    } else {
      // The '.' a match needs would fall inside the "wasm" tail of s.
      var i := |st| - |WasmSuffix|;
      assert st[i] == s[i];
      assert s[i] == WasmSuffix[|t|] by {
        assert s[|s| - |WasmSuffix|..][|t|] == WasmSuffix[|t|];
      }
      assert st[|st| - |WasmSuffix|..][0] != WasmSuffix[0];
    }
  }

  /** The match is case-sensitive: an upper-case `.WASM` pathname is rejected. */
  lemma UpperCaseRejected(request: Request, pathname: string -> string)
    requires EndsWith(pathname(request.url), ".WASM")
    ensures !IsWasmScript(request, pathname)
  {
  }
}

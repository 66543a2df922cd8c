/**
 * Backend selection for the ONNX runtime (src/utils/ort.ts).
 *
 * The module-level variables `ortInitialized` and `ortInfo` become the fields
 * of an `OrtModule` object; the library's global `ort.env.wasm` settings become
 * a `WasmEnv` object that setup writes. The library's test-session creation is
 * an oracle `succeeds(i, backend)`: whether the i-th attempt of this setup run,
 * made with `backend`, creates (and releases) a session without throwing.
 */
module OrtRuntime {
  import opened Wrappers

  /** The published runtime status (the `version` string is not modelled). */
  datatype OrtInfo = OrtInfo(
    backend: string,
    wasmPath: string,
    supportsSimd: bool,
    supportsThreads: bool)

  /** The base path setup writes into the runtime's WASM settings. */
  const WasmPaths: string := "/ort/"

  /** The backend kept when every attempt fails. */
  const Fallback: string := "wasm"

  /** The backend names the candidate list is made of. */
  predicate IsBackend(b: string) {
    b == "webgl" || b == "wasm"
  }

  /** A record setup can publish. */
  predicate WellFormed(info: OrtInfo) {
    IsBackend(info.backend) && info.wasmPath == WasmPaths
  }

  /**
   * Thread support: the globals `SharedArrayBuffer`, `Atomics` and `Worker`
   * are all defined. `globals` is the set of names the host defines.
   */
  function CheckThreadSupport(globals: set<string>): (r: bool)
    ensures r <==> "SharedArrayBuffer" in globals && "Atomics" in globals && "Worker" in globals
  {
    ThreadPrimitives <= globals
  }

  const ThreadPrimitives: set<string> := {"SharedArrayBuffer", "Atomics", "Worker"}

  /**
   * The candidate list setup tries, in order: `['webgl', 'wasm']`, with
   * `'wasm'` put in front whenever SIMD is detected (in both SIMD branches).
   */
  function Candidates(simd: bool, threads: bool): (r: seq<string>)
    ensures r == if simd then ["wasm", "webgl", "wasm"] else ["webgl", "wasm"]
    ensures forall i :: 0 <= i < |r| ==> IsBackend(r[i])
    ensures r[|r| - 1] == Fallback
  {
    var backends := ["webgl", "wasm"];
    if simd && threads then ["wasm"] + backends
    else if simd then ["wasm"] + backends
    else backends
  }

  /** The index of the first attempt at or after `i` that succeeds, or `|c|` if none does. */
  function FirstSuccess(c: seq<string>, succeeds: (nat, string) -> bool, i: nat): (k: nat)
    requires i <= |c|
    ensures i <= k <= |c|
    ensures k < |c| ==> succeeds(k, c[k])
    ensures forall j :: i <= j < k ==> !succeeds(j, c[j])
    decreases |c| - i
  {
    if i == |c| then i
    else if succeeds(i, c[i]) then i
    else FirstSuccess(c, succeeds, i + 1)
  }

  /** The backend setup ends up with: the first that succeeds, else the fallback. */
  function Selected(c: seq<string>, succeeds: (nat, string) -> bool): (r: string)
    ensures r in c || r == Fallback
    ensures (forall j :: 0 <= j < |c| ==> !succeeds(j, c[j])) ==> r == Fallback
  {
    var k := FirstSuccess(c, succeeds, 0);
    if k < |c| then c[k] else Fallback
  }

  /** The backends setup attempts, in order: up to and including the first success. */
  function Tried(c: seq<string>, succeeds: (nat, string) -> bool): (t: seq<string>)
    ensures |t| <= |c| && t == c[..|t|]
    ensures |c| > 0 ==> |t| > 0
    ensures forall j :: 0 <= j < |t| - 1 ==> !succeeds(j, t[j])
    ensures |t| < |c| ==> succeeds(|t| - 1, t[|t| - 1])
  {
    var k := FirstSuccess(c, succeeds, 0);
    if k < |c| then c[..k + 1] else c
  }

  /** First success wins: the selected backend is that candidate and nothing after it is attempted. */
  lemma SelectedIsFirstSuccess(c: seq<string>, succeeds: (nat, string) -> bool, k: nat)
    requires k < |c| && succeeds(k, c[k])
    requires forall j :: 0 <= j < k ==> !succeeds(j, c[j])
    ensures Selected(c, succeeds) == c[k]
    ensures Tried(c, succeeds) == c[..k + 1]
    ensures |Tried(c, succeeds)| == k + 1
  {
  }

  /** Forced fallback: when every attempt fails, all candidates were tried and `'wasm'` is kept. */
  lemma AllFailedFallsBack(c: seq<string>, succeeds: (nat, string) -> bool)
    requires forall j :: 0 <= j < |c| ==> !succeeds(j, c[j])
    ensures Selected(c, succeeds) == Fallback
    ensures Tried(c, succeeds) == c
  {
  }

  /**
   * Whatever the capabilities and attempt outcomes, the selected backend is
   * `'webgl'` or `'wasm'` and is the last backend attempted; the attempts are
   * a non-empty prefix of the candidates in which every attempt but the last
   * failed; and either the last attempt succeeded, or every candidate was
   * attempted and failed.
   */
  lemma SelectionIsSound(simd: bool, threads: bool, succeeds: (nat, string) -> bool)
    ensures IsBackend(Selected(Candidates(simd, threads), succeeds))
    ensures var c, t := Candidates(simd, threads), Tried(Candidates(simd, threads), succeeds);
      0 < |t| <= |c| && t == c[..|t|] &&
      (forall j :: 0 <= j < |t| - 1 ==> !succeeds(j, t[j])) &&
      Selected(c, succeeds) == t[|t| - 1] &&
      (succeeds(|t| - 1, t[|t| - 1]) || (t == c && forall j :: 0 <= j < |c| ==> !succeeds(j, c[j])))
  {
  }

  /** The library's global WASM settings (`ort.env.wasm`) that setup writes. */
  class WasmEnv {
    var wasmPaths: string
    var numThreads: int

    constructor (wasmPaths: string, numThreads: int)
      ensures this.wasmPaths == wasmPaths && this.numThreads == numThreads
    {
      this.wasmPaths := wasmPaths;
      this.numThreads := numThreads;
    }
  }

  /** The module's state: the initialised flag and the published record. */
  class OrtModule {
    var initialized: bool
    var info: Option<OrtInfo>
    const env: WasmEnv

    /** The flag and the record change together, and a published record is well formed. */
    ghost predicate Valid()
      reads this
    {
      (initialized <==> info.Some?) && (info.Some? ==> WellFormed(info.value))
    }

    /** Module load: not initialised, no record. */
    constructor (env: WasmEnv)
      ensures Valid() && !initialized && info == None && this.env == env
    {
      initialized := false;
      info := None;
      this.env := env;
    }

    /** `getOrtInfo`: the current record, or none before setup. */
    function GetOrtInfo(): (r: Option<OrtInfo>)
      reads this
      ensures Valid() ==> (r.Some? <==> initialized)
      ensures Valid() && r.Some? ==> WellFormed(r.value)
    {
      info
    }

    /**
     * `setupOrt`. Memoised: a stored record is returned and nothing is
     * attempted. Otherwise the WASM path and thread count are set, the
     * candidates are tried in order until one succeeds (falling back to
     * `'wasm'`), and the record is published. It never fails.
     */
    method SetupOrt(simd: bool, globals: set<string>, succeeds: (nat, string) -> bool)
      returns (result: OrtInfo, tried: seq<string>)
      requires Valid()
      modifies this, env
      ensures Valid() && WellFormed(result)
      ensures old(initialized && info.Some?) ==>
        result == old(info.value) && tried == [] &&
        initialized == old(initialized) && info == old(info) &&
        env.wasmPaths == old(env.wasmPaths) && env.numThreads == old(env.numThreads)
      ensures !old(initialized && info.Some?) ==>
        var threads := CheckThreadSupport(globals);
        var c := Candidates(simd, threads);
        result == OrtInfo(Selected(c, succeeds), WasmPaths, simd, threads) &&
        tried == Tried(c, succeeds) &&
        initialized && GetOrtInfo() == Some(result) &&
        env.wasmPaths == WasmPaths && env.numThreads == 1
    {
      if initialized && info.Some? {
        return info.value, [];
      }
      env.wasmPaths := WasmPaths;
      env.numThreads := 1;
      var backends := ["webgl", "wasm"];
      var selectedBackend := Fallback;
      var supportsSimd := simd;
      var supportsThreads := CheckThreadSupport(globals);
      if supportsSimd && supportsThreads {
        backends := ["wasm"] + backends;
      } else if supportsSimd {
        backends := ["wasm"] + backends;
      }
      assert backends == Candidates(simd, supportsThreads);
      tried := [];
      var i := 0;
      while i < |backends|
        invariant 0 <= i <= |backends|
        invariant tried == backends[..i]
        invariant selectedBackend == Fallback
        invariant forall j :: 0 <= j < i ==> !succeeds(j, backends[j])
      {
        var backend := backends[i];
        tried := tried + [backend];
        if succeeds(i, backend) {
          selectedBackend := backend;
          SelectedIsFirstSuccess(backends, succeeds, i);
          break;
        }
        i := i + 1;
      }
      if i == |backends| {
        AllFailedFallsBack(backends, succeeds);
      }
      result := OrtInfo(selectedBackend, env.wasmPaths, supportsSimd, supportsThreads);
      info := Some(result);
      initialized := true;
    }

    /** `resetOrt`: back to the uninitialised state; the runtime settings stay as they are. */
    method ResetOrt()
      modifies this
      ensures Valid() && !initialized && GetOrtInfo() == None
    {
      initialized := false;
      info := None;
    }
  }

  /** A second setup returns the first record and attempts nothing. */
  method SetupTwiceIsMemoised(simd: bool, globals: set<string>,
                              first: (nat, string) -> bool, second: (nat, string) -> bool)
    returns (info1: OrtInfo, info2: OrtInfo, tried2: seq<string>)
    ensures info2 == info1 && tried2 == []
    ensures info1.backend == Selected(Candidates(simd, CheckThreadSupport(globals)), first)
  {
    var env := new WasmEnv("", 0);
    var m := new OrtModule(env);
    var tried1;
    info1, tried1 := m.SetupOrt(simd, globals, first);
    info2, tried2 := m.SetupOrt(simd, globals, second);
  }

  /** After a reset, setup runs the whole probe again, on the new outcomes. */
  method ResetForcesFullProbe(simd: bool, globals: set<string>,
                              first: (nat, string) -> bool, second: (nat, string) -> bool)
    returns (info2: OrtInfo, tried2: seq<string>)
    ensures var c := Candidates(simd, CheckThreadSupport(globals));
      info2.backend == Selected(c, second) && tried2 == Tried(c, second) && |tried2| > 0
  {
    var env := new WasmEnv("", 0);
    var m := new OrtModule(env);
    var info1, tried1 := m.SetupOrt(simd, globals, first);
    m.ResetOrt();
    info2, tried2 := m.SetupOrt(simd, globals, second);
    SelectionIsSound(simd, CheckThreadSupport(globals), second);
  }
}

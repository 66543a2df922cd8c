# ONNX runtime backend selection and U²-Net session cache

A Dafny model of two small stateful components of a browser portrait-photo
editor.

- `ort.dfy`, module `OrtRuntime`, models `src/utils/ort.ts`. It decides once
  which ONNX runtime backend the application uses. The module-level
  `ortInitialized`/`ortInfo` pair is the class `OrtModule`. The runtime's
  global WASM settings (`ort.env.wasm.wasmPaths`, `numThreads`) are the class
  `WasmEnv`. `SetupOrt` is memoised. On a fresh run it builds the candidate
  list, tries the candidates in order until a test session succeeds, falls
  back to `'wasm'` if none does, and publishes one `OrtInfo` record.
  `ResetOrt` returns the module to its uninitialised state.
- `u2net.dfy`, module `U2NetEngine`, models `src/engine/u2net.ts`. It covers
  the model-session cache (`LoadU2NetModel`, `DisposeU2Net`) and the ordered
  substring classification that turns creation failures into friendly errors
  (`Classify`, `FriendlyError`). It also covers the placeholder mask of
  `ProcessU2Net`, whose stride-4 loop (`FillOpaque`) sets every RGBA byte to
  255.
- `wrappers.dfy`, module `Wrappers`, holds `Option` (the source's `null`) and
  `Result` (a value, or a thrown error).

The runtime library is opaque. For backend probing it is an oracle
`succeeds(i, backend)`: whether attempt `i` of this setup run, made with
`backend`, creates and releases a test session without throwing. Both of the
source's nested `catch` blocks lead to "try the next candidate", so both are
the oracle's `false`. For the model load, the outcome of
`InferenceSession.create` is a parameter (`Created(session)` or
`Threw(error)`). Likewise the outcome of the cached session's `release()` on
disposal is a parameter (`Released` or `ReleaseThrew(error)`). SIMD detection is an input boolean. Thread detection works on
the set of global names the host defines.

Where the comment and the code disagree, the model follows the code. The
comment at `src/utils/ort.ts:31` promises "simd-threaded → simd → wasm".
The code builds `['wasm','webgl','wasm']` when SIMD is detected, whatever the
thread support, and `['webgl','wasm']` otherwise. It also always sets the
thread count to 1.

## Model

| member | source | states |
|---|---|---|
| `OrtRuntime.CheckThreadSupport` | src/utils/ort.ts:119-127 | thread support holds exactly when `SharedArrayBuffer`, `Atomics` and `Worker` are all defined |
| `OrtRuntime.Candidates` | src/utils/ort.ts:32-47 | the candidate list is `['wasm','webgl','wasm']` whenever SIMD is supported, whatever the thread support, and `['webgl','wasm']` otherwise; every entry is `'webgl'` or `'wasm'`, and the last is the fallback `'wasm'` |
| `OrtRuntime.FirstSuccess` | src/utils/ort.ts:50-68 | the index it returns is the first attempt at or after `i` that succeeds: every earlier attempt failed, and it equals the list length only when none succeeded |
| `OrtRuntime.Selected` | src/utils/ort.ts:33-79 | the backend the loop ends with is one of the candidates or the fallback `'wasm'`, and it is the fallback when every attempt fails |
| `OrtRuntime.Tried` | src/utils/ort.ts:50-79 | the attempts are a prefix of the candidates, non-empty when there are candidates; every attempt but the last failed; when the loop stops early, its last attempt succeeded |
| `OrtRuntime.SelectedIsFirstSuccess` | src/utils/ort.ts:50-68 | first success wins: the selected backend is that candidate, and only the candidates up to it are attempted |
| `OrtRuntime.AllFailedFallsBack` | src/utils/ort.ts:33-78 | when every attempt fails, all candidates are attempted and the backend is `'wasm'` |
| `OrtRuntime.SelectionIsSound` | src/utils/ort.ts:32-68 | for all capabilities and outcomes, the selected backend is `'webgl'` or `'wasm'`; the attempts are a non-empty prefix of the candidates; every attempt but the last failed; the backend is the last one attempted; either that attempt succeeded, or every candidate was attempted and failed |
| `OrtRuntime.WasmEnv.constructor` | src/utils/ort.ts:26-29 | the runtime's WASM settings object holds the path and thread count it is given; setup overwrites both |
| `OrtRuntime.OrtModule.GetOrtInfo` | src/utils/ort.ts:98-100 | the stored record; there is one exactly when the module is initialised, so none before setup or after a reset, and a stored record is well formed |
| `OrtRuntime.OrtModule.SetupOrt` | src/utils/ort.ts:18-93 | with a stored record it returns that record unchanged and attempts nothing. Otherwise it sets the WASM path to `'/ort/'` and the thread count to 1. It attempts exactly `Tried(candidates)` and returns the selected backend with the detected SIMD and thread flags. It sets the flag, and `GetOrtInfo` then returns the same record. It never fails, and the object invariant is kept |
| `OrtRuntime.OrtModule.ResetOrt` | src/utils/ort.ts:132-135 | the flag is false and `GetOrtInfo` returns none; the invariant is kept |
| `OrtRuntime.OrtModule.constructor` | src/utils/ort.ts:12-13 | at module load the module is not initialised and holds no record |
| `OrtRuntime.SetupTwiceIsMemoised` | src/utils/ort.ts:19-21 | a second setup returns the first record and attempts no backend, whatever the new outcomes would be |
| `OrtRuntime.ResetForcesFullProbe` | src/utils/ort.ts:132-135 | after a reset, setup runs the full probe again on the new outcomes |
| `U2NetEngine.Contains` | src/engine/u2net.ts:27-38 | `includes` is true exactly when the pattern occurs at some index of the message |
| `U2NetEngine.ContainsAny` | src/engine/u2net.ts:27-38 | the or-chain of `includes` calls is true exactly when some pattern of the group occurs |
| `U2NetEngine.ContainsAnyOfThree` | src/engine/u2net.ts:27-38 | for a group of three patterns this is the three-way disjunction the source writes |
| `U2NetEngine.Classify` | src/engine/u2net.ts:27-42 | a message with "no available backend", "dynamic import" or "Failed to load" is a bundles error, whatever else it contains; a model-missing error is exactly a message with none of those and with "MODEL_PLACEHOLDER", "Not found" or "404" |
| `U2NetEngine.FriendlyError` | src/engine/u2net.ts:24-45 | decided by the message's substrings: if a bundle pattern occurs, the result is the bundles-missing `Error`; otherwise, if a model pattern occurs, it is the model-missing `Error`; otherwise the thrown value itself is re-thrown |
| `U2NetEngine.FriendlyErrorSeesOnlyTheMessage` | src/engine/u2net.ts:24-42 | the classification reads only `MessageOf` (an `Error`'s message, or `String(error)` for any other value): a mapped failure gets the same friendly error whether it was thrown as an `Error` or as another value with the same text, and the friendly error is an `Error` |
| `U2NetEngine.BundlesCheckComesFirst` | src/engine/u2net.ts:27-42 | "Failed to load: 404" contains both "Failed to load" and "404", so it matches both groups, and it is reported as missing bundles |
| `U2NetEngine.NotFoundIsModelMissing` | src/engine/u2net.ts:36-42 | a thrown non-`Error` value "HTTP 404" is reported as the missing model |
| `U2NetEngine.U2NetModule.LoadU2NetModel` | src/engine/u2net.ts:8-47 | with a cached session it returns that session and does not create one. Otherwise it calls create. A created session is returned and cached. A failure is mapped by `FriendlyError`, and the cache stays empty |
| `U2NetEngine.U2NetModule.ProcessU2Net` | src/engine/u2net.ts:52-74 | a load error is re-thrown. Otherwise the result is a fresh mask with the input's width and height and `4 * width * height` bytes, every one 255 |
| `U2NetEngine.FillOpaque` | src/engine/u2net.ts:61-66 | the stride-4 loop leaves every byte of the RGBA buffer at 255 |
| `U2NetEngine.ImageData.constructor` | src/engine/u2net.ts:60 | a new image of the given size has `4 * width * height` zero bytes; both dimensions are positive, as `new ImageData` demands |
| `U2NetEngine.Disposed` | src/engine/u2net.ts:79-85 | after disposal the cache is empty, and a cached session is added to the released ones; with nothing cached the state is unchanged, so disposing twice equals disposing once |
| `U2NetEngine.DisposedIdempotent` | src/engine/u2net.ts:79-85 | for every cache state, disposing twice gives the same state as disposing once |
| `U2NetEngine.U2NetModule.DisposeU2Net` | src/engine/u2net.ts:79-85 | release is called exactly when a session is cached. If it returns, the new cache state is `Disposed` of the old one. If it throws, the error leaves the call and the session stays cached |
| `U2NetEngine.U2NetModule.constructor` | src/engine/u2net.ts:3 | at module load no session is cached |
| `U2NetEngine.LoadTwiceReusesSession` | src/engine/u2net.ts:9-21 | after a successful load, the next load returns the same session without creating another |
| `U2NetEngine.FailedLoadIsRetried` | src/engine/u2net.ts:23-45 | a failed load leaves the cache empty, so the next load creates again |
| `U2NetEngine.DisposeTwiceIsDisposeOnce` | src/engine/u2net.ts:79-85 | disposing twice releases the cached session once, the same as disposing once, and the second dispose calls no release |
| `U2NetEngine.FailedDisposeIsRetried` | src/engine/u2net.ts:79-85 | when release throws, that error is thrown and the session stays cached; the next dispose calls release on the same session again |

## Left out

- The `OrtInfo` record is an immutable value. The source returns one shared mutable object from `setupOrt` and `getOrtInfo`, so a caller that changed it would change the module's record. No caller in the code changes it.
- The `version` field of `OrtInfo` (`ort.env.versions.web`) is not modelled. It is a string the library supplies.
- The `WebAssembly.validate` call in `checkSimdSupport`. It is a host call, and its result is the `simd` input.
- The `await ort.env.webgl.contextId` step, the test model bytes and `session.release()` in the probe loop. They are library calls, folded into the attempt oracle.
- Console logging, and the `backendError` variable, which is written but never read.
- Concurrency. `setupOrt` and `loadU2NetModel` are `async`, and two overlapping calls can both probe or both create. The model runs each call to completion, one at a time.
- The code has no asset-availability checks, `isReady`, cross-origin isolation check, thread counts above 1, or single-flight guard. The model has none of them either. `logOrtDiag` and `filesMissing`, which `src/pages/App.tsx` refers to, are not defined in `src/utils/ort.ts`.
- The U²-Net inference itself is a placeholder in the source. The input image's pixels are not read. Only its width and height are.
- `Contains` works on Dafny characters (Unicode scalar values), not on JavaScript's UTF-16 code units. That changes nothing for the ASCII patterns used here.
- The UI (`src/pages/App.tsx`, `src/components/Diagnostics.tsx`), the state store, the asset-sync script and the service worker are not part of this model.

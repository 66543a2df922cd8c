/**
 * The U²-Net model-session cache, its loading-error classification and the
 * placeholder alpha mask (src/engine/u2net.ts).
 *
 * The module-level `u2netSession` becomes the field of a `U2NetModule`
 * object. The library's `InferenceSession.create` is a parameter: the outcome
 * the call would have if it were made. Likewise `release` is a parameter
 * (it returns or throws); each release that returns is recorded in a log of
 * released sessions.
 */
module U2NetEngine {
  import opened Wrappers

  /** An opaque inference session handle. */
  datatype Session = Session(id: nat)

  /**
   * A thrown value: an `Error` object with its message, or any other value
   * with its string conversion.
   */
  datatype Thrown = ErrorObject(message: string) | NonError(text: string)

  /** What `InferenceSession.create` does when called: returns a session or throws. */
  datatype CreateOutcome = Created(session: Session) | Threw(error: Thrown)

  /** What `session.release()` does when called: returns or throws. */
  datatype ReleaseOutcome = Released | ReleaseThrew(error: Thrown)

  /** The message the classification looks at (`error.message`, or `String(error)`). */
  function MessageOf(e: Thrown): (m: string) {
    match e
    case ErrorObject(m) => m
    case NonError(t) => t
  }

  const BundlesMissingMessage: string :=
    "ORT-Bundles nicht gefunden. Bitte npm run sync:ort (oder Bolt-Build) ausführen. Erwartet: /public/ort/*."
  const ModelMissingMessage: string :=
    "U²-Net Modell nicht gefunden. Benötigt echte ~5-7 MB u2netp.onnx in public/models/."

  /** Substrings that mean the runtime's own bundles could not be loaded. */
  const BundlePatterns: seq<string> := ["no available backend", "dynamic import", "Failed to load"]
  /** Substrings that mean the model file is missing. */
  const ModelPatterns: seq<string> := ["MODEL_PLACEHOLDER", "Not found", "404"]

  /** `sub` occurs in `s` starting at index `i`. */
  predicate OccursAt(s: string, sub: string, i: int) {
    0 <= i && i + |sub| <= |s| && s[i..i + |sub|] == sub
  }

  /** `s.includes(sub)`: `sub` occurs somewhere in `s`. */
  function Contains(s: string, sub: string): (b: bool)
    ensures b <==> exists i :: OccursAt(s, sub, i)
    decreases |s|
  {
    if |sub| <= |s| && s[..|sub|] == sub then
      assert OccursAt(s, sub, 0);
      true
    else if |s| <= |sub| then
      assert forall i :: !OccursAt(s, sub, i);
      false
    else
      var r := Contains(s[1..], sub);
      assert forall i :: OccursAt(s, sub, i + 1) <==> OccursAt(s[1..], sub, i) by {
        forall i ensures OccursAt(s, sub, i + 1) <==> OccursAt(s[1..], sub, i) {
          if 0 <= i && i + 1 + |sub| <= |s| {
            var whole, tail := s[i + 1..i + 1 + |sub|], s[1..][i..i + |sub|];
            forall j | 0 <= j < |sub| ensures whole[j] == tail[j] {
              assert s[1..][i + j] == s[i + 1 + j];
            }
            assert whole == tail;
          }
        }
      }
      assert !OccursAt(s, sub, 0);
      assert r ==> OccursAt(s, sub, (var j :| OccursAt(s[1..], sub, j); j) + 1);
      assert (exists i :: OccursAt(s, sub, i)) ==> r by {
        if exists i :: OccursAt(s, sub, i) {
          var i :| OccursAt(s, sub, i);
          assert i != 0;
          assert OccursAt(s[1..], sub, i - 1);
        }
      }
      r
  }

  /** Some pattern of `pats` occurs in `s` (the `||` chain of `includes` calls). */
  function ContainsAny(s: string, pats: seq<string>): (b: bool)
    ensures b <==> exists k :: 0 <= k < |pats| && Contains(s, pats[k])
  {
    if pats == [] then false
    else if Contains(s, pats[0]) then true
    else
      var r := ContainsAny(s, pats[1..]);
      assert forall k :: 1 <= k < |pats| ==> pats[k] == pats[1..][k - 1];
      assert r ==> Contains(s, pats[1..][(var k :| 0 <= k < |pats| - 1 && Contains(s, pats[1..][k]); k)]);
      r
  }

  /** For a three-pattern group, ContainsAny is the three-way `||` of `includes` calls. */
  lemma ContainsAnyOfThree(s: string, pats: seq<string>)
    requires |pats| == 3
    ensures ContainsAny(s, pats) <==> Contains(s, pats[0]) || Contains(s, pats[1]) || Contains(s, pats[2])
  {
  }

  /** The friendly error a loading failure is mapped to, if any. */
  datatype Friendly = OrtBundlesMissing | ModelMissing | Unrecognised

  /**
   * The ordered classification: the bundle check runs first, so a message
   * matching both groups is a bundles error; only a message matching neither
   * group is unrecognised.
   */
  function Classify(message: string): (f: Friendly)
    ensures f == OrtBundlesMissing <==>
      Contains(message, "no available backend") || Contains(message, "dynamic import") ||
      Contains(message, "Failed to load")
    ensures f == ModelMissing <==>
      !(Contains(message, "no available backend") || Contains(message, "dynamic import") ||
        Contains(message, "Failed to load")) &&
      (Contains(message, "MODEL_PLACEHOLDER") || Contains(message, "Not found") ||
       Contains(message, "404"))
  {
    ContainsAnyOfThree(message, BundlePatterns);
    ContainsAnyOfThree(message, ModelPatterns);
    if ContainsAny(message, BundlePatterns) then OrtBundlesMissing
    else if ContainsAny(message, ModelPatterns) then ModelMissing
    else Unrecognised
  }

  /**
   * What `loadU2NetModel` throws when creation throws `e`, decided by the
   * substrings of the message: a bundle pattern gives the bundles error, else a
   * model pattern gives the model error, else `e` itself is re-thrown.
   */
  function FriendlyError(e: Thrown): (r: Thrown)
    ensures ContainsAny(MessageOf(e), BundlePatterns) ==> r == ErrorObject(BundlesMissingMessage)
    ensures !ContainsAny(MessageOf(e), BundlePatterns) && ContainsAny(MessageOf(e), ModelPatterns) ==>
      r == ErrorObject(ModelMissingMessage)
    ensures !ContainsAny(MessageOf(e), BundlePatterns) && !ContainsAny(MessageOf(e), ModelPatterns) ==>
      r == e
  {
    match Classify(MessageOf(e))
    case OrtBundlesMissing => ErrorObject(BundlesMissingMessage)
    case ModelMissing => ErrorObject(ModelMissingMessage)
    case Unrecognised => e
  }

  /**
   * Only the message decides whether a failure is mapped: an `Error` and a
   * non-`Error` value with the same message get the same friendly error.
   */
  lemma FriendlyErrorSeesOnlyTheMessage(m: string)
    requires Classify(m) != Unrecognised
    ensures FriendlyError(ErrorObject(m)) == FriendlyError(NonError(m))
    ensures FriendlyError(ErrorObject(m)).ErrorObject?
  {
  }

  /** A message naming both a failed load and a 404 is reported as missing bundles. */
  lemma BundlesCheckComesFirst()
    ensures Contains("Failed to load: 404", "Failed to load") && Contains("Failed to load: 404", "404")
    ensures FriendlyError(ErrorObject("Failed to load: 404")) == ErrorObject(BundlesMissingMessage)
  {
    assert OccursAt("Failed to load: 404", "Failed to load", 0);
    assert OccursAt("Failed to load: 404", "404", 16);
  }

  /** A 404 alone is reported as a missing model. */
  lemma NotFoundIsModelMissing()
    ensures FriendlyError(NonError("HTTP 404")) == ErrorObject(ModelMissingMessage)
  {
    assert OccursAt("HTTP 404", "404", 5);
    assert !Contains("HTTP 404", "no available backend");
    assert !Contains("HTTP 404", "dynamic import");
    assert !Contains("HTTP 404", "Failed to load");
  }

  /** One byte of an image's RGBA data (`Uint8ClampedArray`). */
  newtype byte = x: int | 0 <= x < 256

  /** An image dimension; `new ImageData` rejects zero. */
  type Dim = n: nat | n > 0 witness 1

  /** An image: its size and its RGBA bytes, four per pixel. */
  class ImageData {
    const width: Dim
    const height: Dim
    const data: array<byte>

    /** `new ImageData(width, height)`: all bytes zero (transparent black). */
    constructor (width: Dim, height: Dim)
      ensures this.width == width && this.height == height
      ensures fresh(data) && data.Length == width * height * 4
      ensures forall k :: 0 <= k < data.Length ==> data[k] == 0
    {
      this.width := width;
      this.height := height;
      data := new byte[width * height * 4](_ => 0);
    }
  }

  /** The stride-4 loop of `processU2Net`: sets R, G, B and A of every pixel to 255. */
  method FillOpaque(data: array<byte>)
    requires data.Length % 4 == 0
    modifies data
    ensures forall k :: 0 <= k < data.Length ==> data[k] == 255
  {
    var i := 0;
    while i < data.Length
      invariant 0 <= i <= data.Length && i % 4 == 0
      invariant forall k :: 0 <= k < i ==> data[k] == 255
    {
      data[i] := 255;
      data[i + 1] := 255;
      data[i + 2] := 255;
      data[i + 3] := 255;
      i := i + 4;
    }
  }

  /** The cache as a value: the cached session and the sessions released so far. */
  datatype CacheState = CacheState(session: Option<Session>, released: seq<Session>)

  /**
   * `disposeU2Net` on a value: the cached session, if any, is released and the
   * cache emptied; with nothing cached nothing happens, so disposing again
   * changes nothing.
   */
  function Disposed(s: CacheState): (r: CacheState)
    ensures r.session == None
    ensures s.session == None ==> r == s
    ensures s.session.Some? ==> r.released == s.released + [s.session.value]
  {
    match s.session
    case None => s
    case Some(x) => CacheState(None, s.released + [x])
  }

  /** Disposing a second time changes nothing. */
  lemma DisposedIdempotent(s: CacheState)
    ensures Disposed(Disposed(s)) == Disposed(s)
  {
  }

  /** The module's state: the cached session and the release log. */
  class U2NetModule {
    var session: Option<Session>
    var released: seq<Session>

    /** Module load: nothing cached, nothing released. */
    constructor ()
      ensures session == None && released == []
    {
      session := None;
      released := [];
    }

    function State(): (s: CacheState)
      reads this
    {
      CacheState(session, released)
    }

    /**
     * `loadU2NetModel`: the cached session if there is one (no creation);
     * otherwise creation, whose session is cached, or whose error is mapped
     * to a friendly error (the cache stays empty).
     */
    method LoadU2NetModel(create: CreateOutcome) returns (r: Result<Session, Thrown>, calledCreate: bool)
      modifies this
      ensures released == old(released)
      ensures old(session).Some? ==>
        r == Ok(old(session).value) && !calledCreate && session == old(session)
      ensures old(session).None? ==> calledCreate
      ensures old(session).None? ==>
        match create
        case Created(s) => r == Ok(s) && session == Some(s)
        case Threw(e) => r == Err(FriendlyError(e)) && session == None
    {
      if session.Some? {
        return Ok(session.value), false;
      }
      calledCreate := true;
      match create
      case Created(s) =>
        session := Some(s);
        r := Ok(s);
      case Threw(e) =>
        r := Err(FriendlyError(e));
    }

    /**
     * `processU2Net`: loads the model (its error is re-thrown as is) and
     * returns a fully opaque mask of the input's size.
     */
    method ProcessU2Net(input: ImageData, create: CreateOutcome) returns (r: Result<ImageData, Thrown>)
      modifies this
      ensures released == old(released)
      ensures old(session).Some? ==> session == old(session)
      ensures old(session).None? ==>
        (create.Created? ==> session == Some(create.session)) &&
        (create.Threw? ==> session == None && r == Err(FriendlyError(create.error)))
      ensures r.Err? <==> old(session).None? && create.Threw?
      ensures r.Ok? ==>
        var mask := r.value;
        fresh(mask.data) && mask.width == input.width && mask.height == input.height &&
        mask.data.Length == input.width * input.height * 4 &&
        forall k :: 0 <= k < mask.data.Length ==> mask.data[k] == 255
    {
      var loaded, _ := LoadU2NetModel(create);
      if loaded.Err? {
        return Err(loaded.error);
      }
      var alphaData := new ImageData(input.width, input.height);
      FillOpaque(alphaData.data);
      r := Ok(alphaData);
    }

    /**
     * `disposeU2Net`: release the cached session, if any, and empty the cache.
     * If `release()` throws, the cache is not emptied and the error leaves
     * the call, so a later dispose releases the same session again.
     */
    method DisposeU2Net(release: ReleaseOutcome) returns (r: Result<(), Thrown>, calledRelease: bool)
      modifies this
      ensures calledRelease <==> old(session).Some?
      ensures old(session).Some? && release.ReleaseThrew? ==>
        r == Err(release.error) && State() == old(State())
      ensures !(old(session).Some? && release.ReleaseThrew?) ==>
        r == Ok(()) && State() == Disposed(old(State()))
    {
      if session.Some? {
        calledRelease := true;
        if release.ReleaseThrew? {
          return Err(release.error), true;
        }
        released := released + [session.value];
        session := None;
      } else {
        calledRelease := false;
      }
      r := Ok(());
    }
  }

  /** A second load returns the first session and does not create another. */
  method LoadTwiceReusesSession(s: Session, other: CreateOutcome)
    returns (first: Result<Session, Thrown>, second: Result<Session, Thrown>, createdAgain: bool)
    ensures first == Ok(s) && second == first && !createdAgain
  {
    var m := new U2NetModule();
    var c1;
    first, c1 := m.LoadU2NetModel(Created(s));
    second, createdAgain := m.LoadU2NetModel(other);
  }

  /** A failed load leaves the cache empty, so the next load creates again. */
  method FailedLoadIsRetried(e: Thrown, s: Session)
    returns (first: Result<Session, Thrown>, second: Result<Session, Thrown>, createdAgain: bool)
    ensures first == Err(FriendlyError(e)) && second == Ok(s) && createdAgain
  {
    var m := new U2NetModule();
    var c1;
    first, c1 := m.LoadU2NetModel(Threw(e));
    second, createdAgain := m.LoadU2NetModel(Created(s));
  }

  /** Disposing twice leaves the same state as disposing once: one release, an empty cache. */
  method DisposeTwiceIsDisposeOnce(s: Session) returns (releasedOnce: seq<Session>, releasedTwice: seq<Session>, releasedAgain: bool)
    ensures releasedOnce == [s] && releasedTwice == releasedOnce && !releasedAgain
  {
    var m := new U2NetModule();
    var r, c := m.LoadU2NetModel(Created(s));
    var d1, c1 := m.DisposeU2Net(Released);
    releasedOnce := m.released;
    var d2;
    d2, releasedAgain := m.DisposeU2Net(Released);
    releasedTwice := m.released;
  }

  /** A release that throws keeps the session cached, so the next dispose releases it again. */
  method FailedDisposeIsRetried(s: Session, e: Thrown)
    returns (first: Result<(), Thrown>, second: Result<(), Thrown>, releasedAgain: bool, log: seq<Session>)
    ensures first == Err(e) && second == Ok(()) && releasedAgain && log == [s]
  {
    var m := new U2NetModule();
    var r, c := m.LoadU2NetModel(Created(s));
    var c1;
    first, c1 := m.DisposeU2Net(ReleaseThrew(e));
    second, releasedAgain := m.DisposeU2Net(Released);
    log := m.released;
  }
}

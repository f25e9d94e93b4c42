/**
 * Choice of the recording format on the web platform (VoiceRecorderImpl.ts,
 * `possibleMimeTypes`, `getSupportedMimeType` and `canDeviceVoiceRecord`).
 * The browser's `MediaRecorder.isTypeSupported` is an input: `None` when the
 * runtime does not provide it, otherwise the answer it gives for each type;
 * whether the global `MediaRecorder` is declared at all is a separate input.
 */
module MimeTypes {
  import opened Options

  /** The formats tried, in priority order. */
  const PossibleMimeTypes: seq<string> :=
    ["audio/aac", "audio/webm;codecs=opus", "audio/mp4", "audio/webm", "audio/ogg;codecs=opus"]

  /** `k` is the position of the first entry of `types` that `accepts` takes. */
  predicate FirstAcceptedAt(types: seq<string>, accepts: string -> bool, k: int)
  {
    0 <= k < |types| && accepts(types[k]) && forall j :: 0 <= j < k ==> !accepts(types[j])
  }

  /** `Array.prototype.find` from position `from` on, returning the index found. */
  function FindFrom(types: seq<string>, accepts: string -> bool, from: nat): (r: Option<nat>)
    requires from <= |types|
    ensures r.Some? ==> from <= r.value < |types| && accepts(types[r.value])
    ensures r.Some? ==> forall j :: from <= j < r.value ==> !accepts(types[j])
    ensures r.None? <==> forall j :: from <= j < |types| ==> !accepts(types[j])
    decreases |types| - from
  {
    if from == |types| then None
    else if accepts(types[from]) then Some(from)
    else FindFrom(types, accepts, from + 1)
  }

  /** The supported type of highest priority, or `None` (the source's null). */
  function GetSupportedMimeType(isTypeSupported: Option<string -> bool>): (r: Option<string>)
    ensures isTypeSupported.None? ==> r.None?
    ensures r.Some? ==> exists k :: FirstAcceptedAt(PossibleMimeTypes, isTypeSupported.value, k)
                                    && PossibleMimeTypes[k] == r.value
    ensures isTypeSupported.Some? ==>
              (r.None? <==> forall j :: 0 <= j < |PossibleMimeTypes| ==> !isTypeSupported.value(PossibleMimeTypes[j]))
  {
    match isTypeSupported
    case None => None
    case Some(accepts) =>
      match FindFrom(PossibleMimeTypes, accepts, 0)
      case None => None
      case Some(k) =>
        assert FirstAcceptedAt(PossibleMimeTypes, accepts, k);
        Some(PossibleMimeTypes[k])
  }

  /**
   * The page's global `MediaRecorder`: not declared at all, or declared,
   * with or without an `isTypeSupported` method.
   */
  datatype RecorderGlobal = Undeclared | Declared(isTypeSupported: Option<string -> bool>)

  /**
   * How `canDeviceVoiceRecord` settles: with an answer, or with the
   * `ReferenceError` that reading an undeclared `MediaRecorder` throws.
   */
  datatype Capability = Answer(canRecord: bool) | ReferenceError

  /**
   * `canDeviceVoiceRecord`. Without `getUserMedia` the answer is false and
   * `MediaRecorder` is never read; otherwise an undeclared `MediaRecorder`
   * throws, and a declared one answers whether some listed type is supported.
   */
  function CanDeviceVoiceRecord(hasGetUserMedia: bool, recorder: RecorderGlobal): (r: Capability)
    ensures r == ReferenceError <==> hasGetUserMedia && recorder.Undeclared?
    ensures r == Answer(true) <==>
              hasGetUserMedia && recorder.Declared? && recorder.isTypeSupported.Some?
              && exists j :: 0 <= j < |PossibleMimeTypes| && recorder.isTypeSupported.value(PossibleMimeTypes[j])
  {
    if !hasGetUserMedia then Answer(false)
    else match recorder
      case Undeclared => ReferenceError
      case Declared(isTypeSupported) => Answer(GetSupportedMimeType(isTypeSupported).Some?)
  }

  /** No listed type contains a comma, so none can be mistaken for the end of a data URL's header. */
  lemma NoMimeTypeHasComma(t: string)
    requires t in PossibleMimeTypes
    ensures ',' !in t
  {
  }
}

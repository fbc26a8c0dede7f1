/**
 * The crate's error taxonomy with the text each variant displays, and the
 * translation of a foreign status into `Result<(), OrtApiError>`.
 */
module Error {
  import opened Prelude
  import opened Fmt
  import opened Sys

  type PathBuf = string

  /** `std::ffi::IntoStringError`: the C string whose bytes are not UTF-8. */
  datatype FfiIntoStringError = FfiIntoStringError(bytes: CString)

  /** An error of the standard library (`io::Error`, `NulError`), known here by its display text. */
  datatype OpaqueError = OpaqueError(text: string)

  // ---------------------------------------------------------------------------
  // The taxonomy

  /** `OrtApiError`: what a failed foreign call reported. */
  datatype OrtApiError =
    | Msg(msg: string)
    | IntoStringError(cause: FfiIntoStringError)

  /** `NonMatchingDimensionsError`. */
  datatype NonMatchingDimensionsError =
    InputsCount(
      inferenceInputCount: usize,
      modelInputCount: usize,
      inferenceInput: seq<seq<usize>>,
      modelInput: seq<seq<Option<u32>>>)

  /** `OrtDownloadError`. */
  datatype OrtDownloadError =
    | IoError(source: OpaqueError)
    | ContentLengthError
    | CopyError(expected: u64, io: u64)

  /** `OrtError`: every variant but the first and the last five tags the foreign call that failed. */
  datatype OrtError =
    | StringConversion(err: OrtApiError)
    | Environment(err: OrtApiError)
    | SessionOptions(err: OrtApiError)
    | Session(err: OrtApiError)
    | Allocator(err: OrtApiError)
    | InOutCount(err: OrtApiError)
    | InputName(err: OrtApiError)
    | GetTypeInfo(err: OrtApiError)
    | CastTypeInfoToTensorInfo(err: OrtApiError)
    | TensorElementType(err: OrtApiError)
    | GetDimensionsCount(err: OrtApiError)
    | GetDimensions(err: OrtApiError)
    | CreateCpuMemoryInfo(err: OrtApiError)
    | CreateTensor(err: OrtApiError)
    | CreateTensorWithData(err: OrtApiError)
    | FillStringTensor(err: OrtApiError)
    | IsTensor(err: OrtApiError)
    | GetTensorTypeAndShape(err: OrtApiError)
    | Run(err: OrtApiError)
    | GetTensorMutableData(err: OrtApiError)
    | DownloadError(download: OrtDownloadError)
    | NonMatchingDimensions(dims: NonMatchingDimensionsError)
    | FileDoesNotExists(filename: PathBuf)
    | NonUtf8Path(path: PathBuf)
    | CStringNulError(nul: OpaqueError)

  /** The variants whose text is "Failed to <operation>: " followed by the API error's text. */
  predicate WrapsApiCall(e: OrtError)
  {
    !(e.StringConversion? || e.DownloadError? || e.NonMatchingDimensions?
      || e.FileDoesNotExists? || e.NonUtf8Path? || e.CStringNulError?)
  }

  // ---------------------------------------------------------------------------
  // Display

  const API_CALL := "Error calling ONNX Runtime C function"
  const API_MSG_PREFIX := API_CALL + ": "
  const API_UNDECODABLE := API_CALL + " " + "and failed to convert error message to UTF-8"

  /** The `#[error(...)]` text of `OrtApiError`. */
  function ApiErrorText(e: OrtApiError): (t: string)
    ensures API_CALL <= t
    ensures e.Msg? ==> API_MSG_PREFIX <= t && t[|API_MSG_PREFIX|..] == e.msg
  {
    match e
    case Msg(m) => API_MSG_PREFIX + m
    case IntoStringError(_) => API_UNDECODABLE
  }

  const COPY_ERROR_PIECES := ["Error copying data to file: expected ", " length, received ", ""]

  /** The `#[error(...)]` text of `OrtDownloadError`. */
  function DownloadErrorText(e: OrtDownloadError): (t: string)
    ensures "Error " <= t
  {
    match e
    case IoError(source) => "Error downloading data to file: " + source.text
    case ContentLengthError => "Error getting content-length"
    case CopyError(expected, io) => TwoNumbers(COPY_ERROR_PIECES, expected, io)
  }

  /** `{:?}` of an inference call's input shapes, `Vec<Vec<usize>>`. */
  function InferenceShapes(shapes: seq<seq<usize>>): DebugValue
  {
    List(seq(|shapes|, i requires 0 <= i < |shapes| =>
      List(seq(|shapes[i]|, j requires 0 <= j < |shapes[i]| => Int(shapes[i][j])))))
  }

  function OptionValue(d: Option<u32>): DebugValue
  {
    match d
    case None => NoneValue
    case Some(n) => SomeValue(Int(n))
  }

  /** `{:?}` of a model's declared input shapes, `Vec<Vec<Option<u32>>>`. */
  function ModelShapes(shapes: seq<seq<Option<u32>>>): DebugValue
  {
    List(seq(|shapes|, i requires 0 <= i < |shapes| =>
      List(seq(|shapes[i]|, j requires 0 <= j < |shapes[i]| => OptionValue(shapes[i][j])))))
  }

  const INPUTS_COUNT_DISPLAY :=
    ["Non-matching number of inputs: ", " for input vs ", " for model (inputs: ", ", model: ", ")"]

  const INPUTS_COUNT_DEBUG :=
    ["InputsCount { inference_input_count: ", ", model_input_count: ",
     ", inference_input: ", ", model_input: ", " }"]

  /** The `#[error(...)]` text of `NonMatchingDimensionsError`. */
  function DimensionsText(e: NonMatchingDimensionsError): (t: string)
    ensures INPUTS_COUNT_DISPLAY[0] <= t
  {
    FourFields(INPUTS_COUNT_DISPLAY, e.inferenceInputCount, e.modelInputCount,
      InferenceShapes(e.inferenceInput), ModelShapes(e.modelInput))
  }

  /** The derived `Debug` text of `NonMatchingDimensionsError`. */
  function DimensionsDebug(e: NonMatchingDimensionsError): (t: string)
    ensures INPUTS_COUNT_DEBUG[0] <= t
  {
    FourFields(INPUTS_COUNT_DEBUG, e.inferenceInputCount, e.modelInputCount,
      InferenceShapes(e.inferenceInput), ModelShapes(e.modelInput))
  }

  /** The operation a variant that tags a foreign call names in its text. */
  function ApiCallOperation(e: OrtError): string
    requires WrapsApiCall(e)
  {
    match e
    case Environment(_) => "create environment"
    case SessionOptions(_) => "create session options"
    case Session(_) => "create session"
    case Allocator(_) => "get allocator"
    case InOutCount(_) => "get input or output count"
    case InputName(_) => "get input name"
    case GetTypeInfo(_) => "get type info"
    case CastTypeInfoToTensorInfo(_) => "cast type info to tensor info"
    case TensorElementType(_) => "get tensor element type"
    case GetDimensionsCount(_) => "get dimensions count"
    case GetDimensions(_) => "get dimensions"
    case CreateCpuMemoryInfo(_) => "get dimensions"
    case CreateTensor(_) => "create tensor"
    case CreateTensorWithData(_) => "create tensor with data"
    case FillStringTensor(_) => "fill string tensor"
    case IsTensor(_) => "check if tensor"
    case GetTensorTypeAndShape(_) => "get tensor type and shape"
    case Run(_) => "run"
    case GetTensorMutableData(_) => "get tensor data"
  }

  /** The template prefix of a variant that tags a foreign call: "Failed to <operation>: ". */
  function ApiCallPrefix(e: OrtError): (p: string)
    requires WrapsApiCall(e)
    ensures "Failed to " <= p && p[|p| - 2..] == ": "
  {
    "Failed to " + (ApiCallOperation(e) + ": ")
  }

  /** "Failed to <operation>: " followed by the API error's own text. */
  function ApiCallErrorText(e: OrtError): (t: string)
    requires WrapsApiCall(e)
    ensures ApiCallPrefix(e) <= t && API_CALL <= t[|ApiCallPrefix(e)|..]
  {
    var p, m := ApiCallPrefix(e), ApiErrorText(e.err);
    assert (p + m)[|p|..] == m;
    p + m
  }

  /** The `#[error(...)]` text of `OrtError`. */
  function OrtErrorText(e: OrtError): (t: string)
    ensures WrapsApiCall(e) ==> ApiCallPrefix(e) <= t && API_CALL <= t[|ApiCallPrefix(e)|..]
  {
    if WrapsApiCall(e) then ApiCallErrorText(e)
    else
      match e
      case StringConversion(_) => "Failed to construct String"
      case DownloadError(d) => "Failed to download ONNX model: " + DownloadErrorText(d)
      case NonMatchingDimensions(d) => "Dimensions do not match: " + DimensionsDebug(d)
      case FileDoesNotExists(f) => "File " + DebugStr(f) + " does not exists"
      case NonUtf8Path(p) => "Path " + DebugStr(p) + " cannot be converted to UTF-8"
      case CStringNulError(n) => "Failed to build CString when original contains null: " + n.text
  }

  // ---------------------------------------------------------------------------
  // What the texts keep

  /**
   * An API error's text tells a decoded message from an undecodable one and
   * keeps the message verbatim; the undecodable variant's text is fixed and
   * shows nothing of the bytes.
   */
  lemma ApiErrorTextDeterminesMessage(e1: OrtApiError, e2: OrtApiError)
    requires ApiErrorText(e1) == ApiErrorText(e2)
    ensures e1.Msg? <==> e2.Msg?
    ensures e1.Msg? ==> e1 == e2
  {
    var n := |API_MSG_PREFIX|;
    assert n - 2 == |API_CALL|;
    assert API_MSG_PREFIX[n - 2] == ':' && API_UNDECODABLE[n - 2] == ' ';
    if e1.Msg? && e2.Msg? {
      assert ApiErrorText(e1)[n..] == e1.msg;
      assert ApiErrorText(e2)[n..] == e2.msg;
    }
  }

  /** A `CopyError`'s text shows both the expected and the received byte counts. */
  lemma CopyErrorTextDeterminesCounts(e1: OrtDownloadError, e2: OrtDownloadError)
    requires e1.CopyError? && e2.CopyError?
    requires DownloadErrorText(e1) == DownloadErrorText(e2)
    ensures e1 == e2
  {
    TwoNumbersRoundTrip(COPY_ERROR_PIECES, e1.expected, e1.io);
    TwoNumbersRoundTrip(COPY_ERROR_PIECES, e2.expected, e2.io);
  }

  lemma InferenceShapesInjective(s1: seq<seq<usize>>, s2: seq<seq<usize>>)
    requires InferenceShapes(s1) == InferenceShapes(s2)
    ensures s1 == s2
  {
    assert |s1| == |InferenceShapes(s1).items| == |s2|;
    forall i | 0 <= i < |s1| ensures s1[i] == s2[i] {
      var l1 := InferenceShapes(s1).items[i];
      var l2 := InferenceShapes(s2).items[i];
      assert l1 == l2;
      assert |s1[i]| == |l1.items| == |s2[i]|;
      forall j | 0 <= j < |s1[i]| ensures s1[i][j] == s2[i][j] {
        assert l1.items[j] == Int(s1[i][j]) && l2.items[j] == Int(s2[i][j]);
      }
    }
  }

  lemma ModelShapesInjective(s1: seq<seq<Option<u32>>>, s2: seq<seq<Option<u32>>>)
    requires ModelShapes(s1) == ModelShapes(s2)
    ensures s1 == s2
  {
    assert |s1| == |ModelShapes(s1).items| == |s2|;
    forall i | 0 <= i < |s1| ensures s1[i] == s2[i] {
      var l1 := ModelShapes(s1).items[i];
      var l2 := ModelShapes(s2).items[i];
      assert l1 == l2;
      assert |s1[i]| == |l1.items| == |s2[i]|;
      forall j | 0 <= j < |s1[i]| ensures s1[i][j] == s2[i][j] {
        assert l1.items[j] == OptionValue(s1[i][j]) && l2.items[j] == OptionValue(s2[i][j]);
      }
    }
  }

  /** The mismatch text shows both counts and both shape lists, all of them recoverable. */
  lemma DimensionsTextDeterminesError(e1: NonMatchingDimensionsError, e2: NonMatchingDimensionsError)
    requires DimensionsText(e1) == DimensionsText(e2)
    ensures e1 == e2
  {
    FourFieldsRoundTrip(INPUTS_COUNT_DISPLAY, e1.inferenceInputCount, e1.modelInputCount,
      InferenceShapes(e1.inferenceInput), ModelShapes(e1.modelInput));
    FourFieldsRoundTrip(INPUTS_COUNT_DISPLAY, e2.inferenceInputCount, e2.modelInputCount,
      InferenceShapes(e2.inferenceInput), ModelShapes(e2.modelInput));
    InferenceShapesInjective(e1.inferenceInput, e2.inferenceInput);
    ModelShapesInjective(e1.modelInput, e2.modelInput);
  }

  /** The same for the derived `Debug` text that `OrtError::NonMatchingDimensions` shows. */
  lemma DimensionsDebugDeterminesError(e1: NonMatchingDimensionsError, e2: NonMatchingDimensionsError)
    requires DimensionsDebug(e1) == DimensionsDebug(e2)
    ensures e1 == e2
  {
    FourFieldsRoundTrip(INPUTS_COUNT_DEBUG, e1.inferenceInputCount, e1.modelInputCount,
      InferenceShapes(e1.inferenceInput), ModelShapes(e1.modelInput));
    FourFieldsRoundTrip(INPUTS_COUNT_DEBUG, e2.inferenceInputCount, e2.modelInputCount,
      InferenceShapes(e2.inferenceInput), ModelShapes(e2.modelInput));
    InferenceShapesInjective(e1.inferenceInput, e2.inferenceInput);
    ModelShapesInjective(e1.modelInput, e2.modelInput);
  }

  lemma ApiCallText(e: OrtError)
    requires WrapsApiCall(e)
    ensures OrtErrorText(e) == ApiCallPrefix(e) + ApiErrorText(e.err)
  {
  }

  /**
   * For the variants that tag a foreign call, the text keeps the API error's
   * text after the operation's prefix: two errors shown with the same prefix
   * and the same text agree on whether a message was decoded, and on the message.
   */
  lemma ApiCallTextKeepsMessage(e1: OrtError, e2: OrtError)
    requires WrapsApiCall(e1) && WrapsApiCall(e2) && ApiCallPrefix(e1) == ApiCallPrefix(e2)
    requires OrtErrorText(e1) == OrtErrorText(e2)
    ensures e1.err.Msg? <==> e2.err.Msg?
    ensures e1.err.Msg? ==> e1.err == e2.err
  {
    ApiCallText(e1);
    ApiCallText(e2);
    var p := ApiCallPrefix(e1);
    assert (p + ApiErrorText(e1.err))[|p|..] == ApiErrorText(e1.err);
    assert (p + ApiErrorText(e2.err))[|p|..] == ApiErrorText(e2.err);
    ApiErrorTextDeterminesMessage(e1.err, e2.err);
  }

  /** `CreateCpuMemoryInfo` is shown with the prefix of `GetDimensions`. */
  lemma CreateCpuMemoryInfoShowsAsGetDimensions(a: OrtApiError, b: OrtApiError)
    ensures OrtErrorText(CreateCpuMemoryInfo(a)) == OrtErrorText(GetDimensions(b)) <==> ApiErrorText(a) == ApiErrorText(b)
  {
    var ea, eb := CreateCpuMemoryInfo(a), GetDimensions(b);
    assert ApiCallOperation(ea) == ApiCallOperation(eb) == "get dimensions";
    var p := ApiCallPrefix(ea);
    assert ApiCallPrefix(eb) == p;
    ApiCallText(ea);
    ApiCallText(eb);
    var ta, tb := ApiErrorText(a), ApiErrorText(b);
    if p + ta == p + tb {
      assert (p + ta)[|p|..] == ta && (p + tb)[|p|..] == tb;
    }
  }

  lemma NonMatchingDimensionsText(d: NonMatchingDimensionsError)
    ensures OrtErrorText(NonMatchingDimensions(d)) == "Dimensions do not match: " + DimensionsDebug(d)
  {
  }

  /** `NonMatchingDimensions` shows every field of the mismatch. */
  lemma NonMatchingDimensionsTextDeterminesError(d1: NonMatchingDimensionsError, d2: NonMatchingDimensionsError)
    requires OrtErrorText(NonMatchingDimensions(d1)) == OrtErrorText(NonMatchingDimensions(d2))
    ensures d1 == d2
  {
    var p := "Dimensions do not match: ";
    NonMatchingDimensionsText(d1);
    NonMatchingDimensionsText(d2);
    assert (p + DimensionsDebug(d1))[|p|..] == DimensionsDebug(d1);
    assert (p + DimensionsDebug(d2))[|p|..] == DimensionsDebug(d2);
    DimensionsDebugDeterminesError(d1, d2);
  }

  lemma FileDoesNotExistsText(f: PathBuf)
    ensures OrtErrorText(FileDoesNotExists(f))[5..] == DebugStr(f) + " does not exists"
  {
    var t := DebugStr(f) + " does not exists";
    assert OrtErrorText(FileDoesNotExists(f)) == "File " + t;
  }

  /** `FileDoesNotExists` shows the path it is given, escaped but recoverable. */
  lemma FileDoesNotExistsTextDeterminesPath(f1: PathBuf, f2: PathBuf)
    requires OrtErrorText(FileDoesNotExists(f1)) == OrtErrorText(FileDoesNotExists(f2))
    ensures f1 == f2
  {
    FileDoesNotExistsText(f1);
    FileDoesNotExistsText(f2);
    ParseDebugStrRoundTrip(f1, " does not exists");
    ParseDebugStrRoundTrip(f2, " does not exists");
  }

  // ---------------------------------------------------------------------------
  // Status translation

  /** `char_p_to_string` of the crate root: decodes a C string, or says why it could not. */
  type Decoder = CString -> Result<string, OrtError>

  /**
   * The decoder outcomes the conversion handles: a string, or
   * `StringConversion(IntoStringError(_))`. Any other is `unreachable!()`.
   */
  predicate HandledDecode(d: Result<string, OrtError>)
  {
    d.Ok? || (d.error.StringConversion? && d.error.err.IntoStringError?)
  }

  /**
   * What the conversion needs to run to completion: nothing for a null
   * status; for a failed one, a `GetErrorMessage` entry in the table and a
   * decoder outcome it handles.
   */
  predicate Translatable(api: OrtApi, status: OrtStatus, charPToString: Decoder)
  {
    status.StatusFail? ==> api.hasGetErrorMessage && HandledDecode(charPToString(GetErrorMessage(status)))
  }

  /** `OrtStatusWrapper`: a status together with the table to read it through. */
  datatype OrtStatusWrapper = OrtStatusWrapper(status: OrtStatus, api: OrtApi)

  /** `OrtStatusWrapper::new`: keeps the status as given and a copy of the table. */
  function NewStatusWrapper(api: OrtApi, status: OrtStatus): (w: OrtStatusWrapper)
    ensures w.status == status && w.api == api
  {
    OrtStatusWrapper(status, api)
  }

  /**
   * `From<OrtStatusWrapper> for Result<(), OrtApiError>`: null is success;
   * otherwise the message is read through the table and decoded.
   */
  function IntoResult(w: OrtStatusWrapper, charPToString: Decoder): (r: Result<(), OrtApiError>)
    requires Translatable(w.api, w.status, charPToString)
    ensures r.Ok? <==> w.status.StatusNull?
    ensures r.Err? && r.error.Msg? <==> w.status.StatusFail? && charPToString(w.status.message).Ok?
    ensures r.Err? && r.error.Msg? ==> r.error.msg == charPToString(w.status.message).value
    ensures r.Err? && r.error.IntoStringError? ==>
      r.error.cause == charPToString(w.status.message).error.err.cause
  {
    if w.status.StatusNull? then
      Ok(())
    else
      var raw := GetErrorMessage(w.status);
      match charPToString(raw)
      case Ok(msg) => Err(Msg(msg))
      case Err(StringConversion(IntoStringError(e))) => Err(IntoStringError(e))
  }

  /** `status_to_result`: wraps the status and converts the wrapper. */
  function StatusToResult(api: OrtApi, status: OrtStatus, charPToString: Decoder): (r: Result<(), OrtApiError>)
    requires Translatable(api, status, charPToString)
    ensures r == IntoResult(OrtStatusWrapper(status, api), charPToString)
    ensures r.Ok? <==> status.StatusNull?
  {
    var wrapper := NewStatusWrapper(api, status);
    IntoResult(wrapper, charPToString)
  }

  /**
   * A null status is success whatever the table and the decoder are: the
   * message accessor is neither needed nor consulted.
   */
  lemma NullStatusIsOk(api: OrtApi, charPToString: Decoder)
    ensures Translatable(api, StatusNull, charPToString)
    ensures StatusToResult(api, StatusNull, charPToString) == Ok(())
  {
  }

  /**
   * `call_ort`: runs one foreign call `f` against the table, in the world
   * state `world`, and translates the status it returns. The world after is
   * the one `f` leaves: `f` runs exactly once.
   */
  function CallOrt<World>(api: OrtApi, f: (OrtApi, World) -> (OrtStatus, World), world: World, charPToString: Decoder)
    : (r: (Result<(), OrtApiError>, World))
    requires Translatable(api, f(api, world).0, charPToString)
    ensures r.1 == f(api, world).1
    ensures r.0 == StatusToResult(api, f(api, world).0, charPToString)
  {
    var (status, after) := f(api, world);
    (StatusToResult(api, status, charPToString), after)
  }
}

/** The HTTP surface around the result formatter: the process-wide model/device state,
    the health report, and the `predict` request with its gating checks and its
    blanket exception handler. Image decoding and the forward pass are not modelled;
    their outcomes are inputs. */
module HttpSurface {
  import opened Wrappers
  import opened ResultFormatter

  /** The compute device chosen at startup. */
  datatype Device = Cuda | Cpu

  /** `str(device)` for the two devices the loader can pick. */
  function DeviceString(d: Device): string {
    match d
    case Cuda => "cuda"
    case Cpu => "cpu"
  }

  /** The health payload. */
  datatype HealthReport = HealthReport(status: string, modelLoaded: bool, device: string)

  const NotInitialized: string := "not initialized"

  /** The uploaded file as `predict` sees it; the content type may be absent. */
  datatype Upload = Upload(filename: string, contentType: Option<string>)

  /** The decoded image; only its size reaches the response. */
  datatype Image = Image(width: nat, height: nat)

  /** The detector's output for one image: boxes, labels and scores. */
  datatype RawOutput = RawOutput(boxes: seq<Box>, labels: seq<int>, scores: seq<real>)

  /** The success body of `predict`. */
  datatype Prediction = Prediction(
    status: string,
    filename: string,
    width: nat,
    height: nat,
    detections: seq<Detection>,
    summary: Summary)

  /** The exceptions the body of `predict` can raise: the two explicit `HTTPException`s
      and any other fault, carried with its message. */
  datatype Fault = ModelNotLoaded | InvalidContentType | Other(message: string)

  /** What the client receives. */
  datatype Response = Ok(body: Prediction) | Error(statusCode: nat, detail: string)

  const ModelMissingDetail: string := "Model yüklenmedi"
  const BadTypeDetail: string := "Geçersiz dosya tipi. Lütfen bir görüntü dosyası yükleyin."
  const HandlerPrefix: string := "İşlem hatası: "
  const ImagePrefix: string := "image/"
  /** The `AttributeError` text of `None.startswith(...)`. */
  const NoContentTypeMessage: string := "'NoneType' object has no attribute 'startswith'"

  /** The HTTP status an explicit raise carries. */
  function StatusOf(f: Fault): nat {
    match f
    case ModelNotLoaded => 503
    case InvalidContentType => 400
    case Other(_) => 500
  }

  /** The detail an explicit raise carries, or the fault's own message. */
  function DetailOf(f: Fault): string {
    match f
    case ModelNotLoaded => ModelMissingDetail
    case InvalidContentType => BadTypeDetail
    case Other(m) => m
  }

  /** `str(e)`: an `HTTPException` prints as "<status>: <detail>". */
  function Message(f: Fault): string {
    match f
    case ModelNotLoaded => "503: " + ModelMissingDetail
    case InvalidContentType => "400: " + BadTypeDetail
    case Other(m) => m
  }

  /** Whether the declared media type passes `content_type.startswith('image/')`. */
  predicate IsImageType(contentType: string) {
    ImagePrefix <= contentType
  }

  /** The body of the `try` block: the model check, then the content-type check, then
      decoding, inference and formatting. */
  function Attempt(
    modelLoaded: bool, upload: Upload,
    decoded: Result<Image, string>, inferred: Result<RawOutput, string>
  ): Result<Prediction, Fault>
  {
    if !modelLoaded then Failure(ModelNotLoaded)
    else if upload.contentType.None? then Failure(Other(NoContentTypeMessage))
    else if !IsImageType(upload.contentType.value) then Failure(InvalidContentType)
    else if decoded.Failure? then Failure(Other(decoded.error))
    else if inferred.Failure? then Failure(Other(inferred.error))
    else
      var raw := inferred.value;
      var detections := Formatted(Zip(raw.boxes, raw.labels, raw.scores));
      Success(Prediction("success", upload.filename, decoded.value.width, decoded.value.height,
                         detections, Summarize(detections)))
  }

  /** `predict` as written: the blanket handler turns every exception, the two explicit
      `HTTPException`s included, into a 500 whose detail is the prefix and `str(e)`. */
  function PredictOutcome(
    modelLoaded: bool, upload: Upload,
    decoded: Result<Image, string>, inferred: Result<RawOutput, string>
  ): (r: Response)
    ensures r.Error? ==> r.statusCode == 500 && HandlerPrefix <= r.detail
    ensures r.Ok? <==> modelLoaded && upload.contentType.Some?
                       && IsImageType(upload.contentType.value)
                       && decoded.Success? && inferred.Success?
  {
    match Attempt(modelLoaded, upload, decoded, inferred)
    case Success(p) => Ok(p)
    case Failure(f) => Error(500, HandlerPrefix + Message(f))
  }

  /** `predict` as evidently intended: the explicit `HTTPException`s keep their status
      and detail, and only other faults fall to the 500 handler. */
  function PredictIntended(
    modelLoaded: bool, upload: Upload,
    decoded: Result<Image, string>, inferred: Result<RawOutput, string>
  ): (r: Response)
    ensures !modelLoaded ==> r == Error(503, ModelMissingDetail)
    ensures modelLoaded && upload.contentType.Some? && !IsImageType(upload.contentType.value)
            ==> r == Error(400, BadTypeDetail)
    ensures r.Error? ==> r.statusCode in {400, 500, 503}
  {
    match Attempt(modelLoaded, upload, decoded, inferred)
    case Success(p) => Ok(p)
    case Failure(f) =>
      if f.Other? then Error(500, HandlerPrefix + Message(f))
      else Error(StatusOf(f), DetailOf(f))
  }

  /** The model check comes first: without a model every request fails the same way,
      whatever its content type, and with the 500 status of the blanket handler. */
  lemma ModelCheckFirst(
    upload: Upload, decoded: Result<Image, string>, inferred: Result<RawOutput, string>)
    ensures PredictOutcome(false, upload, decoded, inferred)
            == Error(500, HandlerPrefix + "503: " + ModelMissingDetail)
  {
  }

  /** A non-image content type is rejected before the upload is decoded, again as a 500;
      a missing content type fails in the `startswith` call. */
  lemma ContentTypeGate(
    upload: Upload, decoded: Result<Image, string>, inferred: Result<RawOutput, string>)
    ensures upload.contentType.Some? && !IsImageType(upload.contentType.value)
            ==> PredictOutcome(true, upload, decoded, inferred)
                == Error(500, HandlerPrefix + "400: " + BadTypeDetail)
    ensures upload.contentType.None?
            ==> PredictOutcome(true, upload, decoded, inferred)
                == Error(500, HandlerPrefix + NoContentTypeMessage)
  {
  }

  /** Once both gates pass, a failure to decode the upload, or else of the forward pass,
      reaches the client as a 500 whose detail is the prefix and the fault's own message. */
  lemma FaultsAfterGates(upload: Upload, image: Image, m: string)
    requires upload.contentType.Some? && IsImageType(upload.contentType.value)
    ensures forall inferred: Result<RawOutput, string> ::
              PredictOutcome(true, upload, Failure(m), inferred) == Error(500, HandlerPrefix + m)
    ensures PredictOutcome(true, upload, Success(image), Failure(m)) == Error(500, HandlerPrefix + m)
  {
  }

  /** Counterexample: the 503 the code raises for a missing model never reaches the
      client; the blanket handler re-raises it as a 500. */
  lemma GatingStatusSwallowed()
    ensures PredictOutcome(false, Upload("a.jpg", Some("image/jpeg")), Failure("x"), Failure("y"))
            .statusCode == 500
    ensures PredictIntended(false, Upload("a.jpg", Some("image/jpeg")), Failure("x"), Failure("y"))
            .statusCode == 503
  {
  }

  /** The corrected surface differs from the code only on the two explicit raises:
      successes, and failures of decoding or inference, are reported identically. */
  lemma IntendedAgreesElsewhere(
    modelLoaded: bool, upload: Upload,
    decoded: Result<Image, string>, inferred: Result<RawOutput, string>)
    ensures modelLoaded && upload.contentType.Some? && IsImageType(upload.contentType.value)
            ==> PredictIntended(modelLoaded, upload, decoded, inferred)
                == PredictOutcome(modelLoaded, upload, decoded, inferred)
    ensures modelLoaded && upload.contentType.None?
            ==> PredictIntended(modelLoaded, upload, decoded, inferred)
                == PredictOutcome(modelLoaded, upload, decoded, inferred)
  {
  }

  /** On success the response carries the upload's name, the image size, exactly the
      kept rows of the detector's output and the summary of those rows. */
  lemma SuccessBody(
    upload: Upload, image: Image, raw: RawOutput)
    requires upload.contentType.Some? && IsImageType(upload.contentType.value)
    ensures var r := PredictOutcome(true, upload, Success(image), Success(raw));
            var rows := Zip(raw.boxes, raw.labels, raw.scores);
            && r.Ok?
            && r.body.status == "success"
            && r.body.filename == upload.filename
            && r.body.width == image.width && r.body.height == image.height
            && |r.body.detections| == |KeptSet(rows)|
            && (forall d :: d in r.body.detections ==> d.confidence >= Threshold)
            && r.body.summary.totalDetections == |KeptSet(rows)|
            && r.body.summary.helmetCount == |KeptLabelSet(rows, 1)|
            && r.body.summary.headWithoutHelmetCount == |KeptLabelSet(rows, 2)|
            && r.body.detections == Formatted(rows)
            && (r.body.summary.safetyStatus == "SAFE"
                <==> forall i :: 0 <= i < |rows| && Kept(rows[i]) ==> rows[i].classId != 2)
  {
    var rows := Zip(raw.boxes, raw.labels, raw.scores);
    ThresholdFilter(rows);
    TotalIsKeptCount(rows);
    SummaryOfEntries(rows);
  }

  /** The process-wide state: the `model` and `device` globals. */
  class Service {
    /** `model is not None`. */
    var modelLoaded: bool
    var device: Option<Device>

    /** The state before startup: both globals are `None`. */
    constructor ()
      ensures !modelLoaded && device == None
      ensures Health() == HealthReport("healthy", false, NotInitialized)
    {
      modelLoaded := false;
      device := None;
    }

    /** The startup hook. The device is chosen first, and the network is assigned to
        `model` before its weights are read, so a weights failure (re-raised to abort
        startup) leaves both globals set. */
    method LoadModel(cudaAvailable: bool, weightsError: Option<string>)
      returns (failure: Option<string>)
      modifies this
      ensures device == Some(if cudaAvailable then Cuda else Cpu)
      ensures modelLoaded
      ensures failure == weightsError
      ensures Health() == HealthReport("healthy", true, DeviceString(device.value))
    {
      device := Some(if cudaAvailable then Cuda else Cpu);
      modelLoaded := true;
      failure := weightsError;
    }

    /** The health payload: always "healthy"; it reports whether a model is set and
        names the device, or says it is not initialized. */
    function Health(): (h: HealthReport)
      reads this
      ensures h.status == "healthy"
      ensures h.modelLoaded <==> modelLoaded
      ensures h.device == NotInitialized <==> device.None?
      ensures device.Some? ==> h.device == DeviceString(device.value)
    {
      HealthReport("healthy", modelLoaded,
                   if device.Some? then DeviceString(device.value) else NotInitialized)
    }

    /** The `predict` endpoint as written, running the detections loop. */
    method Predict(upload: Upload, decoded: Result<Image, string>, inferred: Result<RawOutput, string>)
      returns (r: Response)
      ensures r == PredictOutcome(modelLoaded, upload, decoded, inferred)
    {
      var fault: Fault;
      if !modelLoaded {
        fault := ModelNotLoaded;
      } else if upload.contentType.None? {
        fault := Other(NoContentTypeMessage);
      } else if !IsImageType(upload.contentType.value) {
        fault := InvalidContentType;
      } else if decoded.Failure? {
        fault := Other(decoded.error);
      } else if inferred.Failure? {
        fault := Other(inferred.error);
      } else {
        var raw := inferred.value;
        var detections := BuildDetections(raw.boxes, raw.labels, raw.scores);
        var summary := Summarize(detections);
        return Ok(Prediction("success", upload.filename, decoded.value.width,
                             decoded.value.height, detections, summary));
      }
      r := Error(500, HandlerPrefix + Message(fault));
    }
  }
}

# Helmet Detection API — result formatter and request surface

This project models the logic of the Helmet Detection API service (`app.py`), an HTTP
wrapper around a Faster R-CNN detector whose classes are background, helmet and head.

The core is the post-processing of one inference result in `predict`:

- the detector's index-aligned boxes, labels and scores are zipped into rows;
- rows whose score is at least 0.5 are kept, in input order;
- each kept row becomes a detection record. Its class name comes from the fixed table
  0 → "background", 1 → "helmet", 2 → "head", and any other label is "unknown". Its
  confidence is the row's score, and its bbox holds the four box coordinates;
- a summary gives the total, the helmet count, the head count and the verdict. The
  verdict is "SAFE" exactly when the head count is 0.

Around it sit the request gating of `predict`, its blanket exception handler, the
health report and the two process-wide globals, `model` and `device`.

Modules:

- `Wrappers` (`wrappers.dfy`): `Option` and `Result`.
- `ResultFormatter` (`result_formatter.dfy`): the data model. The detections loop is
  the method `BuildDetections`, proved equal to the pure filter/map `Formatted`.
  `KeptIndices` and the index sets `KeptSet`/`KeptLabelSet` are independent reference
  definitions. The count and verdict lemmas relate the summary to the raw rows.
- `HttpSurface` (`http_surface.dfy`): `predict` as written (`PredictOutcome`, and the
  method `Service.Predict` that runs the loop), the corrected surface
  (`PredictIntended`), and the class `Service` holding the globals, with `LoadModel`
  and `Health`.

The code raises 503 for a missing model (app.py:107) and 400 for a non-image content
type (app.py:111-114). Both raises sit inside the `try`, and `except Exception`
(app.py:185) turns them into 500. The model follows the code as written.
The detail of that 500 is `"İşlem hatası: " + str(e)`. The model takes `str(e)` of an
`HTTPException` to be `"<status>: <detail>"`, the form Starlette's exception class
prints; that class is not part of this model.

Scores and coordinates are `real`. Scores are only compared with 0.5.

## Model

| member | source | states |
|---|---|---|
| `ResultFormatter.ClassName` | app.py:139-150 | label 0 gives "background", 1 gives "helmet", 2 gives "head", and each name comes from that label only; every other label gives "unknown" |
| `ResultFormatter.Zip` | app.py:147 | rows are aligned by index, and their number is the length of the shortest of boxes, labels and scores |
| `ResultFormatter.Formatted` | app.py:146-159 | the filtered detection list is never longer than the input |
| `ResultFormatter.KeptIndices` | app.py:147-148 | reference definition: strictly increasing indices, each one a row with score ≥ 0.5, and every such row's index among them |
| `ResultFormatter.BuildDetections` | app.py:146-159 | the appending loop yields exactly `Formatted` of the zipped rows |
| `ResultFormatter.CountClass` | app.py:162-163 | a class count never exceeds the number of detections |
| `ResultFormatter.Summarize` | app.py:173-177 | total is the number of detections; helmet + head ≤ total; "SAFE" exactly when the head count is 0, "UNSAFE" exactly when it is positive |
| `ResultFormatter.HelmetAndHeadCounts` | app.py:162-163 | helmet + head ≤ total, with equality exactly when every detection is a helmet or a head |
| `ResultFormatter.FormattedMatchesKeptIndices` | app.py:146-159 | order preservation: the k-th detection is the record of the k-th kept row, and there are as many detections as kept rows |
| `ResultFormatter.DetectionFromEntry` | app.py:149-157 | the record built by `ToDetection` (the detection dict): the k-th detection's class is the name of its row's label; its confidence is the row's score and is ≥ 0.5; x_min, y_min, x_max, y_max are box[0..3] |
| `ResultFormatter.ThresholdFilter` | app.py:136-148 | every reported detection has confidence ≥ 0.5, and a row's record is reported exactly when the row's score is ≥ 0.5 |
| `ResultFormatter.TotalIsKeptCount` | app.py:174 | the number of detections is the number of rows with score ≥ 0.5 |
| `ResultFormatter.ClassCountIsKeptLabelCount` | app.py:162-163 | for labels 0, 1, 2 the count of that class is the number of kept rows with that label |
| `ResultFormatter.SummaryOfEntries` | app.py:162-177 | total, helmet and head counts are the numbers of kept rows overall, with label 1 and with label 2; "SAFE" exactly when no kept row has label 2 |
| `ResultFormatter.CountsCoverTotal` | app.py:162-176 | helmet + head == total exactly when every kept row has label 1 or 2; background and unknown detections are reported but counted in neither |
| `ResultFormatter.NothingAboveThreshold` | app.py:146-177 | the summary is (0, 0, 0, "SAFE") exactly when no row reaches 0.5 |
| `ResultFormatter.ScenarioOneHelmetOneHead` | app.py:136-177 | head at 0.92, helmet at 0.81 and a row at 0.3 summarise to (2, 1, 1, "UNSAFE") |
| `HttpSurface.PredictOutcome` | app.py:104-187 | `Attempt` is the `try` body (model check, then content type, then decoding, inference and formatting) and `Message` is `str(e)` in the handler; as written, every error response has status 500 and a detail starting with "İşlem hatası: "; a 200 happens exactly when the model is set, the content type is present and starts with "image/", and decoding and inference succeed |
| `HttpSurface.ModelCheckFirst` | app.py:104-107 | without a model, every request gets 500 with detail "İşlem hatası: 503: Model yüklenmedi", whatever its content type |
| `HttpSurface.ContentTypeGate` | app.py:109-114 | with a model, a non-image content type gets 500 carrying the 400 message; a missing content type gets 500 carrying the `startswith` AttributeError message |
| `HttpSurface.SuccessBody` | app.py:146-179 | on success: status "success", the upload's filename, the image size; the detections are exactly the records of the kept rows in input order, all ≥ 0.5; the counts are those of kept rows overall, with label 1 and with label 2; safety_status is "SAFE" exactly when no kept row has label 2 |
| `HttpSurface.FaultsAfterGates` | app.py:117-127 | once both gates pass, a decode failure (whatever inference would give) or else an inference failure with message m gets 500 with detail "İşlem hatası: " + m |
| `HttpSurface.GatingStatusSwallowed` | app.py:185-187 | counterexample: a request without a model gets 500 from the code, 503 from the corrected surface |
| `HttpSurface.PredictIntended` | app.py:104-114 | corrected surface: 503 "Model yüklenmedi" without a model, 400 with the content-type message for a non-image type; errors are only 400, 500 or 503 |
| `HttpSurface.IntendedAgreesElsewhere` | app.py:185-187 | the corrected surface and the code agree once both gates pass, and on a missing content type |
| `HttpSurface.Service.constructor` | app.py:23-24 | before startup both globals are unset, and health reports model_loaded false and "not initialized" |
| `HttpSurface.Service.LoadModel` | app.py:37-56 | the device is cuda when available, else cpu; the model is set even when the weights fail, and that failure is returned; health then reports true and the device name |
| `HttpSurface.Service.Health` | app.py:84-91 | status "healthy"; model_loaded true exactly when a model is set; device "not initialized" exactly when no device is set, else the device's name |
| `HttpSurface.Service.Predict` | app.py:93-187 | the endpoint, running the detections loop, answers exactly as `PredictOutcome` |

## Left out

- Network construction and weight loading (`get_model`, `torch.load`, `load_state_dict`, `model.to`, `model.eval`): torch internals. `LoadModel` takes whether CUDA is available and the weights failure, if any, as inputs. Aborting startup after a failure belongs to the web framework.
- Reading the upload, `Image.open` and `process_image`: library internals. Their outcome is the `decoded` input: an image size or an error message.
- The forward pass under `torch.no_grad` and the `.cpu().numpy()` conversions. Their outcome is the `inferred` input: boxes, labels and scores, or an error message.
- Float32 values: scores and coordinates are `real`. A NaN score, which fails `>= 0.5`, is not modelled.
- The root endpoint's static payload, FastAPI routing, `JSONResponse`, logging and the `uvicorn` entry point: no logic.
- Determinism of repeated inference: the detector is not modelled, so the model cannot state it.
- Concurrency: requests are modelled one at a time.
- `HttpSurface.Service.Predict` models the code as written. The corrected `HttpSurface.PredictIntended` is a separate function and is not what the endpoint runs.

## Findings

| source | as written | input that shows it | evidently intended | confidence | as-written member | corrected member |
|---|---|---|---|---|---|---|
| app.py:104-114 | the 503 and 400 `HTTPException`s are raised inside the `try`, and the `except Exception` at app.py:185-187 turns them into 500 "İşlem hatası: 503: Model yüklenmedi" / "İşlem hatası: 400: …" | any request while `model` is `None`, or with content type "text/plain" | 503 "Model yüklenmedi" and 400 with the content-type message, every other fault 500 | high, not executed | `HttpSurface.GatingStatusSwallowed` | `HttpSurface.PredictIntended` |

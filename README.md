# Body-measurement web client — Dafny model

This project models the client-side logic of a browser front end for a body-measurement
service. The user picks a full-body photo, enters height and weight, and starts an
inference. The remote service answers with measurements and the URL of a 3D mesh. The
model covers four pieces:

- **App request lifecycle** (`orchestration.dfy`, module `Orchestration`). The six state
  variables of `App` are a value `State`. There is one transition function per handler:
  `Select`, `Start` and `Finish`. The class `App` keeps the same state in fields, and its
  methods update those fields step by step. Each method is proved to make the transition
  its function describes. The network call is an abstract `Outcome`, either a response
  or a failure. `Step` and `Run` replay sequences of user and network events. Selections
  arrive through the uploader's rules, the start button is gated the way the page gates
  it, and the invariants are proved over every run.
- **Results presenter** (`measurement_results.dfy`, module `MeasurementResults`). This
  covers `toCm` unit normalisation, the 17-row `items` list, the null-data guard and the
  `displayValue` rule. The literal row list is proved equal, row for row, to an
  independent table: labels, wire field names and units.
- **Upload surface** (`image_uploader.dfy`, module `ImageUploader`). This covers the
  unanchored MIME test, the first-file rule for drops and picks, clearing, and the
  `dragActive` flag, which is a field of the class `DropZone`.
- **Mesh viewer URL rule** (`mesh_viewer.dfy`, module `MeshViewer`). This covers how
  `fullUrl` is resolved against the API base URL, and the guard that mounts the model
  only for a truthy `meshUrl`.

Values that JavaScript may leave `null`, `undefined` or empty are `Option`s (`wrappers.dfy`).
Numbers are reals.

Where the code's behaviour differs from what its comments and layout suggest, the model
follows the code:

- A failed request keeps any earlier result for the same image. Only selecting an image
  clears the result.
- A missing number shows as 0, not as a dash. For a response whose fields are numbers or
  absent, `toCm` turns a missing value into 0, so the "--" branch of `displayValue` is
  never reached from the row list.
- The error is cleared when a valid request starts, not when the response arrives. In
  every run where the button is gated, the error is already empty by the time a response
  arrives (`Orchestration.Invariant`).

## Model

| member | source | states |
|---|---|---|
| `MeshViewer.ResolveUrl` | src/components/BodyMeshViewer.jsx:13 | A URL starting with "http" is returned unchanged. Any other URL is appended to the base with nothing inserted or removed. The input is always a suffix of the result. An absolute base gives an absolute result. |
| `MeshViewer.ResolveIdempotent` | src/components/BodyMeshViewer.jsx:13 | With a base starting with "http", resolving an already resolved URL changes nothing. |
| `MeshViewer.DefaultBaseIsAbsolute` | src/services/api.js:3 | The default base `http://localhost:8000` starts with "http", so resolution against it is idempotent for every URL. |
| `MeshViewer.PrefixTestExamples` | src/components/BodyMeshViewer.jsx:13 | The test is a bare prefix test: "https://…" and the relative "httpx/…" are kept as they are, and "/meshes/123.obj" is prefixed with the base. |
| `MeshViewer.RelativeBaseNotIdempotent` | src/components/BodyMeshViewer.jsx:13 | With a relative base, a second resolution prefixes the base again. |
| `MeshViewer.ViewFor` | src/components/BodyMeshViewer.jsx:114-139 | The placeholder is shown exactly when `meshUrl` is absent or empty. Otherwise the model is loaded from the resolved URL. |
| `MeasurementResults.ToCm` | src/components/MeasurementResults.jsx:46-52 | A missing value gives 0, even for weight and BMI. Weight and BMI pass through. Any other value below 10 is multiplied by 100, and 10 or more is kept. |
| `MeasurementResults.MetresLandInCentimetreRange` | src/components/MeasurementResults.jsx:50 | A length from 0.1 up to (not including) 10, read as metres, comes out between 10 and 1000. |
| `MeasurementResults.ToCmIdempotent` | src/components/MeasurementResults.jsx:50-51 | Normalising a normalised length of at least 0.1 changes nothing. |
| `MeasurementResults.ToCmTinyValueRescales` | src/components/MeasurementResults.jsx:50 | Below 0.1 the heuristic is not idempotent: 0.05 gives 5, and 5 gives 500. |
| `MeasurementResults.DisplayValue` | src/components/MeasurementResults.jsx:14 | "--" is shown exactly for a missing value. A number is shown as that number. |
| `MeasurementResults.Items` | src/components/MeasurementResults.jsx:54-72 | Exactly 17 rows. Row i equals the layout table's row i: its label, the normalised value of its wire field, and its unit. |
| `MeasurementResults.Render` | src/components/MeasurementResults.jsx:37-43 | Nothing is rendered exactly when the data is absent. Otherwise the rows are `Items` of the data. |
| `MeasurementResults.RowLabelsAndUnits` | src/components/MeasurementResults.jsx:54-72 | Labels come in the fixed order Height … Rise. The unit is "kg" for Weight, "" for BMI and "cm" for every other row. |
| `MeasurementResults.WeightAndBmiUnscaled` | src/components/MeasurementResults.jsx:56-57 | Weight and BMI rows show the response value unscaled, whatever its size, or 0 when it is missing. |
| `MeasurementResults.MissingMeasurementsShowZero` | src/components/MeasurementResults.jsx:43-71 | Without a `measurements` object, all 14 body rows show 0. |
| `MeasurementResults.NoRowShowsDash` | src/components/MeasurementResults.jsx:14-72 | Every row value is a number, so no row displays "--". |
| `MeasurementResults.ExampleResponse` | src/components/MeasurementResults.jsx:46-58 | For the example response, height 1.76 shows 176 cm, weight 65 shows 65 kg, BMI 21 shows 21, neck 0.38 shows 38 cm, and a missing chest shows 0. |
| `ImageUploader.Contains` | src/components/ImageUploader.jsx:36 | True exactly when the pattern occurs at some position of the string. |
| `ImageUploader.ValidateAndSelect` | src/components/ImageUploader.jsx:35-41 | The file is forwarded unchanged exactly when its MIME type contains "image". Otherwise only an alert is raised. |
| `ImageUploader.FirstFile` | src/components/ImageUploader.jsx:23-32 | A file is taken exactly when the list is present and non-empty, and it is the list's first file. |
| `ImageUploader.SelectFirst` | src/components/ImageUploader.jsx:23-32 | An absent or empty list has no effect. Otherwise the first file goes through `ValidateAndSelect`. |
| `ImageUploader.NextDragActive` | src/components/ImageUploader.jsx:9-17 | `dragenter` and `dragover` set the flag, `dragleave` clears it, and any other event type keeps it. |
| `ImageUploader.DropZone.constructor` | src/components/ImageUploader.jsx:6 | `dragActive` starts false. |
| `ImageUploader.DropZone.HandleDrag` | src/components/ImageUploader.jsx:9-17 | The new flag is `NextDragActive` of the old flag and the event type. |
| `ImageUploader.DropZone.HandleDrop` | src/components/ImageUploader.jsx:19-26 | A drop always clears `dragActive`. Its effect is `SelectFirst` of the dropped list. |
| `ImageUploader.DropZone.HandleChange` | src/components/ImageUploader.jsx:28-33 | A pick has the effect `SelectFirst` of the picked list. Anything forwarded is an image. |
| `ImageUploader.DropZone.ClearImage` | src/components/ImageUploader.jsx:43-46 | Clearing forwards `null`. |
| `ImageUploader.ForwardsOnlyFirstImage` | src/components/ImageUploader.jsx:19-41 | A drop or pick forwards a file if and only if the list is non-empty and its first file is an image. The file forwarded is that first file. |
| `ImageUploader.MimeTypeExamples` | src/components/ImageUploader.jsx:36-40 | "image/png" and "image/jpeg" pass. "application/pdf" is alerted. The unanchored "application/x-image-data" passes. |
| `ImageUploader.LastDragEventDecides` | src/components/ImageUploader.jsx:12-16 | After any sequence of drag events, a final `dragleave` leaves the zone unhighlighted, and a final `dragenter` or `dragover` leaves it highlighted. A sequence with none of the three leaves the flag as it was. |
| `Orchestration.Initial` | src/App.jsx:11-16 | No image, height 176, weight 65, not processing, no result and no error. The button is disabled and the invariant holds. |
| `Orchestration.Select` | src/App.jsx:18-22 | The given image, or none, is selected. Result and error are cleared. Height, weight and processing are unchanged. |
| `Orchestration.Start` | src/App.jsx:24-33 | A request is issued if and only if an image is selected and both inputs are present and positive. With no image nothing changes. With invalid inputs only the fixed validation error is set. A valid start clears the error, sets processing and issues a request carrying the image and the two positive values. |
| `Orchestration.Finish` | src/App.jsx:35-43 | Processing ends on both paths. A response replaces the result. A failure sets the fixed error and keeps the result. Image and inputs are unchanged. |
| `Orchestration.StepKeepsInvariant` | src/App.jsx:18-43 | Every event keeps the invariant: the error is one of the two fixed messages or none, and there is no error while processing. |
| `Orchestration.RunKeepsInvariant` | src/App.jsx:18-43 | Every run from a state satisfying the invariant ends in one that satisfies it. |
| `Orchestration.StepIssuesOnlyWhenIdle` | src/App.jsx:88-90 | Only a press of the start button issues a request. It does so only when nothing is in flight, and the App is then processing. A press while processing changes nothing. |
| `Orchestration.RunOneInFlight` | src/App.jsx:24-90 | In every run, the requests issued equal the responses applied plus the one pending, so at most one request is in flight. |
| `Orchestration.RunRequestsValid` | src/App.jsx:25-36 | When selections come through the uploader, the selected image always has an image MIME type. No request of any run carries a missing or non-positive height or weight, or a file the uploader would reject. |
| `Orchestration.RejectedFileChangesNothing` | src/components/ImageUploader.jsx:35-41 | A non-image file leaves the App state exactly as it was. |
| `Orchestration.RejectedUploadSendsNothing` | src/components/ImageUploader.jsx:35-41 | Dropping a rejected file on a fresh page leaves the state as it was, and a press then sends nothing. |
| `Orchestration.SelectionHidesStaleOutput` | src/App.jsx:18-22 | After any selection, the results panel renders nothing and the viewer shows its placeholder. |
| `Orchestration.FailedRequestScenario` | src/App.jsx:35-43 | Select, start, then fail: the fixed failure error, no result, not processing, and exactly one request with height 176 and weight 65. |
| `Orchestration.EarlierResultSurvivesFailure` | src/App.jsx:36-40 | A success followed by a failed retry keeps the first result next to the failure error. |
| `Orchestration.ClearedHeightBlocksRequest` | src/App.jsx:27-30 | With the height cleared, a press sets the validation error and issues no request. |
| `Orchestration.App.constructor` | src/App.jsx:11-16 | The fields start as `Initial()`. |
| `Orchestration.App.HandleImageSelect` | src/App.jsx:18-22 | The new state is `Select` of the old state. |
| `Orchestration.App.SetHeight` | src/App.jsx:71 | Only the height changes. |
| `Orchestration.App.SetWeight` | src/App.jsx:80 | Only the weight changes. |
| `Orchestration.App.HandleStartInference` | src/App.jsx:24-33 | The new state and the issued request are exactly `Start` of the old state. |
| `Orchestration.App.CompleteInference` | src/App.jsx:35-43 | The new state is `Finish` of the old state and the outcome. |
| `Orchestration.App.PressStart` | src/App.jsx:88-90 | A press of the button is the `Click` step: it does nothing while the button is disabled, and otherwise it is `HandleStartInference`. |

## Left out

- The transport client (src/services/api.js) is reduced to an abstract success-or-failure `Outcome`. Not modelled: building the multipart form, dropping falsy height and weight fields, the POST to `/infer`, logging and rethrowing.
- The environment override of the API base URL is a parameter (`base`) of `MeshViewer.ResolveUrl`. Only the default value is a constant.
- The mesh geometry pipeline (BodyMeshViewer.jsx:16-49) is left out. Cloning, deleting the normal and uv attributes, `mergeVertices` and `computeVertexNormals` are three.js calls on floating-point buffers.
- Materials, lights, camera, orbit controls, contact shadows, `Suspense` and camera reset are left out. They only affect rendering.
- `toFixed(2)` formatting is left out. `DisplayValue` keeps the number rather than its two-decimal string. JavaScript floating point is modelled as exact reals, so 1.76 × 100 is exactly 176.
- `alert`, `URL.createObjectURL`, the hidden input's `click()` and `preventDefault`/`stopPropagation` are browser side effects. An alert appears only as the `Alerted` effect.
- Height and weight are modelled as `Option<real>`, where the empty string is `None`. Non-numeric text is not modelled: a `type="number"` input reports it as "". The JavaScript check would let such text through, because a comparison with NaN is false.
- Async interleaving is reduced to one begin/complete pair per request, so the stale-response race is not modelled. `Run` lets a selection happen while a request is in flight, and the later response is still applied. No property about this race is stated.
- While processing, the uploader is disabled only through CSS (`pointer-events-none`). The model lets `Upload` and `Clear` events through at any time.
- MeasurementResults.DisplayValue: response fields are assumed to be numbers or absent. A non-numeric weight or BMI is not modelled. The source passes it through `toCm` unchanged and shows it as itself, or as "--" when it is falsy (an empty string, `false`).
- Orchestration.Finish: a successful response is assumed to be a response object. A falsy payload, such as a JSON `null` body, would clear the result and hide both panels; the model always stores the payload.
- src/components/Header.jsx and tailwind.config.js are not part of this model. They are presentational markup and styling.

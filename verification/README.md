# Background Remover API — a Dafny model

This project models the decision logic and state updates of the Background
Remover API. It has two parts:

- a FastAPI server that removes image backgrounds for callers holding an API key;
- the two browser scripts that drive it, the demo page and the account page.

Every library the server leans on is a parameter of the model, given as a
function-valued field that may fail: rembg, MediaPipe, OpenCV, PIL, torch,
`requests`, `secrets`, the clock and the file system. Each module follows one
source file:

| module | source file | what it holds |
|---|---|---|
| `Hybrid` | `hybrid_remover.py` | the content classifier (face +0.4, pose +0.3, in tenths), MediaPipe's lazily built models, the memoising rembg session cache, and the MediaPipe → rembg → rembg `u2net` fallback chain |
| `Remover` | `background_remover.py` | hint → model lookup, the override to `u2netp`, the four-stage model-file search, the sorted list of available models, the cache reset, the all-opaque fallback mask |
| `Database` | `database.py` | the `api_keys` record with its column defaults, id/key uniqueness, the `bgr_` key format, the table as a class |
| `Auth` | `auth.py` | bearer-key validation: reject unknown or inactive keys without touching the table, otherwise count one use |
| `Api` | `main.py` | create / list / deactivate keys, and the remove-background endpoint with its download filename |
| `DemoClient` | `assets/js/demo.js` | API base URL, key-name check, upload checks (key, file, type, 5 MiB), the request form, the drop zone |
| `AuthClient` | `assets/js/auth.js` | key masking and the show/hide toggle, registration checks, and the session globals (login, logout, restore, key list, key-creation guard) |

`Wrappers`, `Text` and `Imaging` are shared helpers:

- `Wrappers`: `Option` and `Result`.
- `Text`: strings, with JavaScript's `trim` and `substring` semantics and Python's code-point ordering and `sorted`.
- `Imaging`: RGB/RGBA bitmaps and `putalpha`.

Operations that change state in place are methods of classes with `modifies`
clauses:

- `HybridBackgroundRemover`, `BackgroundRemover`, `ApiKeyTable`, `KeyCell`, `AuthSession` and `FileInput`;
- the table operations in `Auth` and `Api`, which modify an `ApiKeyTable`.

Each such method is tied by its postcondition to a pure function. The lemmas
prove the promised properties about those functions: memoisation, idempotence,
invariant preservation, rejection without mutation, and counting every
accepted request once.

## Model

| member | source | states |
|---|---|---|
| Text.SortStrings | background_remover.py:293 | `sorted` on strings: the result is ordered by code point and is a permutation of the input |
| Text.JsSubstring | assets/js/auth.js:308 | `substring` never yields more than the string, and for indices with `0 <= start <= end <= length` it is the plain slice |
| Imaging.ConvertRgba | background_remover.py:215-216 | `convert('RGBA')` of an RGB image: same size, every colour kept, every pixel opaque |
| Imaging.PutAlpha | hybrid_remover.py:176-186 | `convert('RGBA')` + `putalpha` of a 0/255 mask: same size and colours, a pixel is opaque exactly where the mask is set and transparent exactly where it is not |
| Hybrid.Characterise | hybrid_remover.py:110-116 | `is_portrait` holds iff height > width; `is_high_res` iff width > 1000 or height > 1000 |
| Hybrid.DetectContent | hybrid_remover.py:81-160 | confidence is one of 0, 0.3, 0.4, 0.7 (0.4 for faces plus 0.3 for a pose). At ≥ 0.6 the type is `human` with one human: MediaPipe iff portrait with faces, else rembg `u2net_human_seg`. Between 0.3 and 0.6 it is `human_possible` with rembg `u2net_human_seg`. Below 0.3 it is `object` with rembg, `u2net` for a portrait and `isnet-general-use` otherwise. Any failure leaves `general` with rembg `u2net` |
| Hybrid.HumanNeedsFaceAndPose | hybrid_remover.py:96-123 | a `human` classification needs both a face and a pose |
| Hybrid.PoseFailureKeepsFaces | hybrid_remover.py:96-107 | a pose detector that raises keeps the face count and its 0.4 but routes to rembg `u2net` as `general` |
| Hybrid.InitHandles | hybrid_remover.py:34-56 | each MediaPipe model still unset is built in order and the first failure stops the rest; the call completes iff all three are then set; set models are never rebuilt |
| Hybrid.CachedSession | hybrid_remover.py:58-68 | the cached session for a known name, else whatever construction yields |
| Hybrid.SessionsAfter | hybrid_remover.py:58-68 | the cache gains exactly the name whose construction succeeded; existing entries are unchanged; a failure inserts nothing |
| Hybrid.SessionMemoised | hybrid_remover.py:58-68 | after a successful construction later calls return the same handle and leave the cache alone, whatever the constructor would now do |
| Hybrid.SessionRetried | hybrid_remover.py:58-68 | a failed construction leaves the cache unchanged, so the next call constructs again |
| Hybrid.RembgRun | hybrid_remover.py:196-214 | rembg runs with the cached or new session, and without a session when none could be built |
| Hybrid.RembgRunRepeat | hybrid_remover.py:58-68 | repeating a rembg run with the same model gives the same outcome and the same cache |
| Hybrid.SelfieMask | hybrid_remover.py:162-186 | a mask is used only when initialisation and conversion succeed and the mask matches the image size |
| Hybrid.MediapipeRun | hybrid_remover.py:162-194 | a usable mask becomes the alpha channel with the cache untouched; any other outcome is rembg `u2net_human_seg` |
| Hybrid.ProcessRun | hybrid_remover.py:216-249 | the recommended remover first. On failure there is one rembg `u2net` retry, which rewrites the recommendation to rembg/`u2net`. Then "All background removal methods failed". A returned record is either the detection or its rewrite |
| Hybrid.RetryWithSameModelCannotRescue | hybrid_remover.py:239-249 | when the classifier already chose rembg `u2net` and it fails, the retry repeats the same call and the request fails |
| Hybrid.HybridBackgroundRemover.constructor | hybrid_remover.py:27-32 | no MediaPipe model and an empty session cache |
| Hybrid.HybridBackgroundRemover.InitMediapipe | hybrid_remover.py:34-56 | the handles become `InitHandles` of the old handles; the result says whether all three are set |
| Hybrid.HybridBackgroundRemover.InitRembgSession | hybrid_remover.py:58-68 | returns `CachedSession` and leaves `SessionsAfter` of the old cache |
| Hybrid.HybridBackgroundRemover.DetectImageContent | hybrid_remover.py:70-160 | a failed colour conversion (outside the `try`) propagates with no state change; otherwise the result is `DetectContent` of what the detectors observe after initialisation |
| Hybrid.HybridBackgroundRemover.RemoveBackgroundRembg | hybrid_remover.py:196-214 | output and cache as `RembgRun` |
| Hybrid.HybridBackgroundRemover.RemoveBackgroundMediapipe | hybrid_remover.py:162-194 | output and cache as `MediapipeRun`, including the second rembg call when the first one, made inside the `try` for a missing mask, fails |
| Hybrid.HybridBackgroundRemover.ProcessImage | hybrid_remover.py:216-249 | a failed conversion propagates and nothing changes; otherwise handles per `InitHandles`, and result and cache per `ProcessRun` of the detection |
| Hybrid.HybridBackgroundRemover.Cleanup | hybrid_remover.py:251-266 | every built MediaPipe model is closed (not reset) and the session cache is empty |
| Remover.ModelForHint | background_remover.py:107-115 | case-insensitive: `human` → `u2net_human_seg`, `object` → `u2net`, anything else → the default `u2netp`; always a downloadable model |
| Remover.HintIgnoresCase | background_remover.py:115 | hints equal up to ASCII case choose the same model |
| Remover.HintExamples | background_remover.py:107-115 | "Human", "OBJECT" and an unknown hint map as the table says |
| Remover.EffectiveModel | background_remover.py:153-159 | whatever the hint, the model used is `u2netp` |
| Remover.DownloadTarget | background_remover.py:79-83 | a name with a known URL is downloaded as itself, any other name as the default |
| Remover.FirstPth | background_remover.py:101-103 | the first `*.pth` entry of the listing, and none exactly when there is none |
| Remover.WithFile | background_remover.py:91-92 | a written file joins the cache listing and nothing is lost |
| Remover.ResolveModelPath | background_remover.py:56-105 | the cached file; else the bundled file; else the download of `DownloadTarget`, which then sits in the cache; else the first cached `*.pth`; else "No model available for …". A write that fails after the file was created leaves that file in the cache, where the fallback search can find it. Only an error leaves the store unchanged |
| Remover.DownloadedModelIsCached | background_remover.py:62-95 | after a known model is downloaded the next lookup is served from the cache |
| Remover.PartialWriteIsServedAsModel | background_remover.py:62-105 | when the write fails after the file was created and no other model is cached, the truncated file is returned, and every later lookup takes it as the cached model |
| Remover.UnknownModelFetchesDefault | background_remover.py:79-95 | an unknown name downloads the default and is never cached under its own file name |
| Remover.PthStems | background_remover.py:277-285 | the stems of the `*.pth` entries, no more than there are entries |
| Remover.StemInjective | background_remover.py:278 | distinct `*.pth` names other than ".pth" itself have distinct stems |
| Remover.DistinctStems | background_remover.py:277-278 | a duplicate-free listing without ".pth" yields duplicate-free stems |
| Remover.StemCollision | background_remover.py:277-278 | the listing ".pth", ".pth.pth" yields the stem ".pth" twice |
| Remover.ClearOutsideMask | background_remover.py:224-227 | in place: pixels where the mask is set are kept, the rest become transparent black |
| Remover.BackgroundRemover.constructor | background_remover.py:34-41 | an empty model cache |
| Remover.BackgroundRemover.ClearCache | background_remover.py:295-297 | the model cache is empty |
| Remover.BackgroundRemover.SimpleRemoveBackground | background_remover.py:213-229 | same width and height, every pixel kept with full opacity (the all-true mask); the result is `ConvertRgba` of the input |
| Remover.RemovalRun | background_remover.py:117-211 | failures carry the "Background removal failed: " prefix. A failed decode or model search returns it. So does a failure to read the pixel data, which PIL defers until the image is saved as PNG; that happens after the model search and keeps any download it made. A success reports `u2netp`, `cpu`, the elapsed time, the matting flag and both sizes. A successful segmentation gives its image, opened as a `PngImageFile`. A failed one falls back to the all-opaque copy, an `Image`. The store is the one `ResolveModelPath` leaves |
| Remover.LateDecodeFailureKeepsDownload | background_remover.py:145-168 | an upload whose pixel data cannot be read, with `u2netp` neither cached nor bundled and a successful download, fails with the prefixed error, and the downloaded `u2netp.pth` stays in the cache |
| Remover.BackgroundRemover.RemoveBackground | background_remover.py:117-211 | result and store are those of `RemovalRun` |
| Remover.BackgroundRemover.GetAvailableModels | background_remover.py:272-293 | sorted. A name is listed iff it is a cached stem, a bundled stem or one of the three downloadable models. Duplicate-free when the cached stems are |
| Database.GenerateApiKey | database.py:39-41 | the key is "bgr_" followed by the token, intact |
| Database.GeneratedKeysDistinct | database.py:41 | different tokens give different keys |
| Database.NewApiKey | database.py:18-27 | a new row has usage 0, `is_active` "true" and no `last_used` |
| Database.ApiKeyTable.constructor | database.py:18-22 | an empty table satisfying the uniqueness invariant |
| Database.FirstWhere | auth.py:19 | `filter(...).first()`: the first row the filter accepts, or none exactly when it accepts no row |
| Auth.FindByKey | auth.py:19 | the first record holding the key, or none exactly when no record holds it |
| Auth.FindsTheKeyHolder | database.py:22 | with unique keys, a key finds the one record that holds it |
| Auth.Authenticate | auth.py:9-38 | an unknown key gives 401 "Invalid API key" and a known inactive key gives 401 "API key is inactive", in that order, both with the rows unchanged. Success iff the first match is active. Then the returned record has the presented key, one more use and `last_used` = now, and no other record or field changes |
| Auth.AuthenticateKeepsTableValid | auth.py:33-36 | validation preserves id and key uniqueness |
| Auth.RepeatedValidation | auth.py:33-36 | after n validations of an active key its count has grown by n, it carries the last time, and every other record is unchanged |
| Auth.ValidateApiKey | auth.py:9-38 | the table and result are those of `Authenticate`; the table stays valid |
| Api.ToResponse | main.py:91-99 | every column copied; active iff the stored string is exactly "true" |
| Api.OnlyTrueIsActive | main.py:98 | "True", "1" and "false" all read as inactive |
| Api.Create | main.py:68-107 | exactly one row is appended, with the next id, the generated key, the name and the defaults, and it is reported with usage 0 and active. A clashing key gives 500 "Error creating API key: …" and no change |
| Api.CreateKeepsTableValid | main.py:78-88 | creation preserves id and key uniqueness |
| Api.CreatedKeyAuthenticates | main.py:78-99 | a key just created validates, which counts its first use |
| Api.CreateApiKey | main.py:68-107 | the table and result are those of `Create`; the table stays valid |
| Api.ListApiKeys | main.py:109-129 | one response per stored row, in order, each that row's `ToResponse` |
| Api.FindById | main.py:211 | the first record with the id, or none exactly when no record has it |
| Api.Deactivate | main.py:202-228 | the matching record alone becomes "false", reported as success. An unknown id gives 500 "Error deactivating API key: 404: API key not found" with nothing changed |
| Api.UnknownIdDetail | main.py:211-227 | the unknown-id detail text, spelled out |
| Api.DeactivateIdempotent | main.py:211-222 | deactivating twice equals deactivating once, both reporting success |
| Api.DeactivateKeepsTableValid | main.py:219 | deactivation preserves id and key uniqueness |
| Api.DeactivatedKeyRejected | main.py:219-220 | a deactivated key is then refused as inactive, with nothing counted |
| Api.DeactivateApiKey | main.py:202-228 | the table and result are those of `Deactivate`; the table stays valid; any integer id is accepted and an unknown one is the wrapped 404 |
| Api.DownloadName | main.py:186 | "processed_" + name with every '.' as '_' + ".png": exactly one '.', every other character in place |
| Api.RemoveBackgroundAsWritten | main.py:137-200 | as written: after authentication every request is the generic 500 naming the missing `validate_image`, and its use has already been counted |
| Api.DeliverAsWritten | main.py:166-190 | as written: a successful removal is reported as a 500 "Processing failed" because an image is passed where bytes are expected; the details name the image's class, `PngImageFile` or `Image` |
| Api.AsWrittenNamesImageClass | main.py:166-190 | on an upload the remover processes, the as-written details name `PngImageFile` iff the segmentation succeeded and `Image` when the fallback was used |
| Api.Deliver | main.py:166-190 | the PNG of the processed image, as a base64 data URL in JSON or as a stream with the download name, the processing time and the key's name. A header value that does not fit in latin-1 (the first such, in header order) makes the stream a 500 "Processing failed" carrying the encoding error |
| Api.NonLatin1KeyNameNeverStreams | main.py:182-190 | a key whose name does not fit in latin-1 never receives a streamed image, whatever is uploaded, while the JSON form still works |
| Api.RemoveBackgroundEndpoint | main.py:137-200 | an authentication failure gives its 401. A non-image gives 400 "Invalid image file" before any removal. A removal failure gives the 500 with the remover's message. Otherwise `Deliver` of `RemovalRun` with the default hint and matting options and the key's name. A 500 carries the remover's prefix unless a streamed header failed to encode. The model store is always the one `RemovalRun` leaves, untouched before the removal |
| DemoClient.GetApiUrl | assets/js/demo.js:5-12 | the local server iff the host is `localhost` or `127.0.0.1`, the production server otherwise |
| DemoClient.MissingCharNotContained | assets/js/demo.js:19 | a string lacking a character of the pattern does not contain it |
| DemoClient.CheckKeyName | assets/js/demo.js:41-65 | a blank name (JavaScript whitespace only) is rejected first, then a placeholder URL. Otherwise the untrimmed name is sent as `key_name` |
| DemoClient.ConfigurationCheckUnreachable | assets/js/demo.js:51-60 | no URL `getApiUrl` can return contains the placeholder, so that branch never runs |
| DemoClient.EndsWithAny | assets/js/demo.js:137 | `some(endsWith)` holds iff some listed suffix ends the name |
| DemoClient.IsSupportedFile | assets/js/demo.js:132-137 | accepted iff the MIME type is one of six or the lower-cased name ends with one of seven extensions |
| DemoClient.UpperCaseExtensionAccepted | assets/js/demo.js:135-137 | "SCAN.TIF" with no MIME type is accepted |
| DemoClient.ListedTypeAcceptsAnyName | assets/js/demo.js:136 | a listed MIME type is accepted whatever the name |
| DemoClient.CheckUpload | assets/js/demo.js:120-148 | blank key, then no file, then type, then size (`>` 5 MiB), each an iff. Only the first file counts |
| DemoClient.FiveMiBBoundary | assets/js/demo.js:145 | exactly 5 MiB passes and one byte more is too large |
| DemoClient.UploadMessage | assets/js/demo.js:120-148 | every rejection has its message; acceptance has none |
| DemoClient.BuildUploadForm | assets/js/demo.js:160-175 | the file, `api_key`, `alpha_matting`, then the four thresholds. A threshold field is present iff matting is on; with matting off the form has exactly the two fields |
| DemoClient.RemoveBackground | assets/js/demo.js:115-175 | the form is built iff every check passes; otherwise the first failure's message |
| DemoClient.FileInput.HandleDrop | assets/js/demo.js:296-324 | the dropped files replace the input's only when the first passes the type test. Nothing else changes |
| AuthClient.MaskText | assets/js/auth.js:308 | first 8 + "..." + last 4 with `substring` clamping. Exact length formula. The plain form for keys of 12 or more |
| AuthClient.MaskOfGeneratedKey | assets/js/auth.js:308 | a generated key masks to 15 characters: "bgr_", four token characters, "...", the token's last four |
| AuthClient.InitialText | assets/js/auth.js:308 | "Hidden" iff the key is missing or empty, the mask otherwise |
| AuthClient.TogglesRestore | assets/js/auth.js:344-359 | two toggles restore the starting text iff the key is present and non-empty |
| AuthClient.KeyCell.constructor | assets/js/auth.js:308-315 | a cell starts hidden, showing `InitialText`, holding the key or "undefined" |
| AuthClient.KeyCell.Toggle | assets/js/auth.js:344-359 | a hidden cell shows the full key; a shown cell shows the mask again |
| AuthClient.CheckRegistration | assets/js/auth.js:136-146 | a mismatch is reported first, then a password shorter than 6. Otherwise name, email and password are sent |
| AuthClient.MismatchReportedFirst | assets/js/auth.js:137-146 | a short, mismatching password is reported as a mismatch |
| AuthClient.RegistrationMessage | assets/js/auth.js:137-146 | every rejection has its message |
| AuthClient.AuthSession.constructor | assets/js/auth.js:4-5 | no user and no keys |
| AuthClient.AuthSession.ClearAuthData | assets/js/auth.js:411-416 | no user, no keys, both stored items removed, nothing else |
| AuthClient.AuthSession.CheckAuthState | assets/js/auth.js:419-425 | the dashboard iff a user is set |
| AuthClient.AuthSession.InitializeAuth | assets/js/auth.js:18-32 | with both items stored, the value `parse` yields is restored as the user; everything is cleared when `parse` yields none, that is, when `JSON.parse` throws or the restored value cannot be shown. Otherwise nothing changes |
| AuthClient.AuthSession.HandleLogin | assets/js/auth.js:83-124 | success stores token and user and sets the user. A refusal shows the server's detail or the fallback. A network error shows its message. Both leave the state alone |
| AuthClient.AuthSession.LoadUserApiKeys | assets/js/auth.js:249-302 | nothing without a token. A failure keeps the keys. Otherwise the received list (or none) replaces them, and the table shows one masked cell per key |
| AuthClient.AuthSession.GenerateApiKey | assets/js/auth.js:591-605 | a request only with a user and a non-blank name; the name field is then cleared, otherwise untouched |
| AuthClient.KeyRequestMessage | assets/js/auth.js:592-601 | every refusal has its message |

## Left out

- Segmentation, detection and decoding are oracles; no pixel output is specified. This covers rembg `remove`/`new_session`, MediaPipe's three models, the OpenCV colour conversion, PIL decoding and encoding, and backgroundremover's `remove`. MediaPipe's `> 0.5` threshold is folded into the mask oracle, which yields booleans.
- Floating point is not modelled. Confidence is kept in integer tenths; the source's 0.4 + 0.3 compares the same way against 0.6 and 0.3. `aspect_ratio`, the `resolution` text, `processing_time` (a natural-number parameter here) and the health check's memory figures are left out.
- `Hybrid.HybridBackgroundRemover.Cleanup`: a `close()` that raises stops the remaining closes and the cache reset. This is not modelled; every close succeeds.
- `Hybrid.Toolkit`: the detectors ignore whether a handle was closed. In the source a closed MediaPipe model raises when used again, which sends the request down the exception paths. This is reachable only after `__del__` has run `cleanup`.
- `Remover.RemovalRun`: the library's output is taken to be PNG bytes, so `Image.open` yields a `PngImageFile`. A failure of `Image.open` on the output counts as a failed segmentation.
- `Hybrid.Toolkit` is deterministic: the same image gives the same detector and rembg outcome each time. `RembgRunRepeat` and `RetryWithSameModelCannotRescue` rely on this.
- The file system is a value: the cache listing in `glob` order, and the bundled listing or its absence. `mkdir`, the download itself, the `remove` import from backgroundremover and `gc.collect()` are left out. `Backend.fetch` says how a download ends: written, nothing written, or a file created and then left truncated by a failed write.
- `Remover.BackgroundRemover.GetAvailableModels`: promises no duplicates only when the cached stems are distinct. A cache holding ".pth" and ".pth.pth" lists ".pth" twice (`StemCollision`).
- `AuthClient.AuthSession.InitializeAuth`: a user is a record of name and email. A stored JSON primitive such as `42` parses, and the page keeps it as its user. Such a value has no counterpart here; `parse` only decides whether restoring succeeds and what record it yields.
- Case folding is ASCII only (`Text.Lower`): Python's `str.lower` and JavaScript's `toLowerCase` also fold non-ASCII letters.
- JavaScript string lengths are code points here, not UTF-16 units. This affects `substring` and the password length only for characters outside the Basic Multilingual Plane.
- `secrets.token_urlsafe` and the clock are parameters, as are the account server's responses, `JSON.parse` and `localStorage`.
- Key uniqueness failures report a fixed database message (`Api.DuplicateKey`); SQLAlchemy's exact exception text, with its SQL statement, is not modelled. The other database failures behind the 500 "Error retrieving API keys" are left out too.
- DOM effects are left out: `innerHTML` texts around the modelled messages, spinners, timers, notifications, clipboard, `formatDate`, tab switching, logout confirmation and CSS. The cell's template whitespace around the initial mask is ignored. `createApiKey`'s request is not modelled, only the guard and the clearing of the field.
- The request encodings of the browser scripts are not checked against the server's. The demo page posts the key name and the API key as form fields, while the server reads a JSON body and a bearer header.
- The `HTTPBearer` scheme of `auth.py:7` is not modelled. It refuses a request with no `Authorization` header or a non-Bearer one before `validate_api_key` runs; `Auth.Authenticate` starts from the presented key.
- `Api.RemoveBackgroundEndpoint`: a 500 does not always carry the remover's "Background removal failed: " prefix. When a streamed header fails to encode, the details are the encoding error's text, which `Codec.latin1Error` supplies rather than spells out.
- `AuthClient.DataFullKey`: `None` stands for a record without a `key` field, which the template renders as "undefined". A key sent as JSON `null` renders as "null" and is not modelled separately.
- The server's CORS configuration, routing, `get_db`/`create_tables`, `main_minimal.py`, `main_simple.py`, the test scripts and the pydantic schemas are left out.
- `background_remover.py:272` annotates with `List`, but `List` is not among the names imported at `background_remover.py:11`. Up to Python 3.13, the annotation is evaluated when the class body runs, so importing the module raises `NameError`. From Python 3.14 on, annotations are evaluated lazily and the import succeeds. The model assumes the annotation resolves. This leaves no behaviour to contrast, so it has no Findings row.

## Findings

| source | as written | input that shows it | evidently intended | confidence | as-written member | corrected member |
|---|---|---|---|---|---|---|
| main.py:155 | calls `bg_remover.validate_image`, which `BackgroundRemover` does not define; the `AttributeError` is caught as a generic 500 | any upload with a valid, active key, e.g. a well-formed PNG | non-images rejected with 400 "Invalid image file" before any removal; images processed | high; not executed | Api.RemoveBackgroundAsWritten | Api.RemoveBackgroundEndpoint |
| main.py:166 | unpacks the `(image, metadata)` pair of `background_remover.py:207` as `(bytes, time)`; base64 and the byte stream both refuse a PIL image, with "a bytes-like object is required, not 'PngImageFile'" (or `'Image'` after the fallback) | any upload the remover processes successfully | the processed image encoded as PNG, with the processing time from the metadata | high; not executed | Api.DeliverAsWritten | Api.Deliver |

# BarcodeAnalyzer — a Dafny model of the smartscanner barcode pipeline

This project models the decision pipeline inside `BarcodeAnalyzer.kt` of the
ID PASS smartscanner core library. For each camera frame the analyzer:

1. combines the requested ML Kit barcode formats into one bit mask, starting
   from `FORMAT_QR_CODE`;
2. hands the frame to the ML Kit scanner, attaches a success and a failure
   listener, and returns; the model runs whichever listener fires in
   sequence with the rest of `analyze`;
3. on success with at least one barcode, renders the corner points of the
   first barcode as a string of `"x,y "` tokens and builds a `BarcodeResult`;
4. dispatches on the intent action:
   - the QR-code intent builds a one-key bundle from the raw bytes
     (gunzipped, then optionally read by a JSON path or re-serialised as JSON)
     or from the raw value;
   - the barcode and ODK barcode intents build a bundle of image path,
     corners and value (plus the ODK data key for ODK), and copy each entry to
     a top-level extra whose name carries a caller-chosen prefix;
   - any other action delivers the Gson serialisation of the `BarcodeResult`;
5. calls `setResult(RESULT_OK, ..)` and `finish()` on the activity, then closes
   the frame.

Modules:

- `Wrappers` (`wrappers.dfy`): `Option` for Kotlin's nullable values and
  `Result` for a library call that may throw.
- `BarcodeFormats` (`formats.dfy`): the format-mask fold as a function and as
  the loop of `analyze`, with the lemmas that the mask is the least mask
  covering the QR-code flag and every requested format, and so is independent
  of order and repetition.
- `Corners` (`corners.dfy`): Kotlin's decimal rendering of an `Int`, the
  corner-string builder loop, and a decoder that reads the string back, used
  to prove that the string holds one token per corner, in input order.
- `ResultEncoding` (`results.dfy`): intents and their extras, the action
  dispatch, the QR-code bundle of `sendGzippedResult`, and the bundle and
  prefixed copies of `sendBundleResult` (its `keySet()` loop is a method).
- `Analyzer` (`analyzer.dfy`): the activity and the image proxy as objects,
  the `BarcodeAnalyzer` class with `analyze` and the three `send…` methods,
  and `AnalyzeEffect`, the function that says what one frame does to the
  activity and to the frame; the lemmas about it give the failure, empty,
  delivering and throwing cases.

The library codecs (`GzipUtils.decompress`, `JsonPath`, `JSONObject`, Gson)
and the ML Kit detector are parameters: `Codecs` holds one function per codec
(those that can throw return `Result`), and `analyze` takes the detector as a
function from the format mask to a `Detection`. The model only states where
their results go, and that they pass through unchanged.

Behaviour of the source that the model keeps as written:

- A frame whose `imageProxy.image` is `null` is never closed
  (`BarcodeAnalyzer.kt:51`, `117`): both `close()` calls sit inside the
  listeners, which are only attached when the image is present.
- An exception thrown by the decompressor or the JSON libraries leaves the
  success listener before `imageProxy.close()`. Nothing is delivered, the
  frame stays open, and there is no "failed" outcome (`ThrownLeavesFrameOpen`).
- The unprefixed keys exist only inside the bundle under `RESULT`. At the top
  level there are only the prefixed copies, whose prefix is `""` when the
  prefix extra is absent. When that extra is present but holds no `String`,
  Kotlin's `String? + String` makes the prefix `"null"`.
- Formats are combined as a 32-bit mask, not as a set. Requesting
  `FORMAT_ALL_FORMATS` with any other ML Kit formats (all within its bits)
  yields exactly
  `FORMAT_ALL_FORMATS`, because the QR-code flag is one of its bits
  (`AllFormatsRequestsEverything`).
- The analyzer has no guard against a second delivery. Each frame delivers at
  most once (`AnalyzeEffect`), but a later frame analysed before the
  activity finishes can deliver again.

Constants: `FORMAT_QR_CODE` = 256 and `FORMAT_ALL_FORMATS` = 0xFFFF (ML Kit's
`Barcode`), `RESULT_OK` = -1 (Android's `Activity`). `ScannerConstants` and
`SmartScannerActivity` are not part of this model. Each intent action, extra
name and bundle key is therefore the string of its own identifier. The proofs
use only that these names are distinct. Whether a prefixed copy can land on
the key `RESULT` depends on the real values of the prefix and the keys, so
`BundleResultLayout` takes its absence as a hypothesis instead.

## Model

| member | source | states |
|---|---|---|
| `BarcodeFormats.CombineFormats` | core-lib/src/main/java/org/idpass/smartscanner/lib/barcode/BarcodeAnalyzer.kt:56-59 | the `forEach` loop leaves `barcodeFormat` equal to the fold `it or barcodeFormat` over the list, started at `FORMAT_QR_CODE` |
| `BarcodeFormats.FormatMask` | core-lib/src/main/java/org/idpass/smartscanner/lib/barcode/BarcodeAnalyzer.kt:56-59 | the mask contains the QR-code bit and every bit of every requested format |
| `BarcodeFormats.MaskIsLeast` | core-lib/src/main/java/org/idpass/smartscanner/lib/barcode/BarcodeAnalyzer.kt:56-59 | the mask sets no other bit: any mask covering the QR-code flag and every requested format covers it |
| `BarcodeFormats.MaskIgnoresOrder` | core-lib/src/main/java/org/idpass/smartscanner/lib/barcode/BarcodeAnalyzer.kt:57-59 | two format lists with the same elements give the same mask, whatever the order or repetition |
| `BarcodeFormats.MaskIgnoresPermutation` | core-lib/src/main/java/org/idpass/smartscanner/lib/barcode/BarcodeAnalyzer.kt:57-59 | a permutation of the format list gives the same mask |
| `BarcodeFormats.AllFormatsRequestsEverything` | core-lib/src/main/java/org/idpass/smartscanner/lib/barcode/BarcodeAnalyzer.kt:56-60 | a list that requests `FORMAT_ALL_FORMATS`, with other formats inside its bits, configures the scanner for exactly `FORMAT_ALL_FORMATS` |
| `Corners.IntToString` | core-lib/src/main/java/org/idpass/smartscanner/lib/barcode/BarcodeAnalyzer.kt:79 | the rendering of a coordinate is nonempty, starts with `-` exactly for a negative value and is otherwise made of decimal digits |
| `Corners.IntRoundTrip` | core-lib/src/main/java/org/idpass/smartscanner/lib/barcode/BarcodeAnalyzer.kt:79 | the decimal rendering of a coordinate in the string template reads back as the same integer, sign included |
| `Corners.CornersText` | core-lib/src/main/java/org/idpass/smartscanner/lib/barcode/BarcodeAnalyzer.kt:76-81 | the builder content is empty exactly when there are no corners, and otherwise ends with the space closing the last token |
| `Corners.CornersString` | core-lib/src/main/java/org/idpass/smartscanner/lib/barcode/BarcodeAnalyzer.kt:75-86 | the corner string holds exactly one space per reported corner point, and none when the corners are `null` |
| `Corners.BuildCornersString` | core-lib/src/main/java/org/idpass/smartscanner/lib/barcode/BarcodeAnalyzer.kt:75-86 | the `StringBuilder` loop yields the tokens `"x,y "` of the corners appended in order, and the empty string when the corners are `null` |
| `Corners.CornersRoundTrip` | core-lib/src/main/java/org/idpass/smartscanner/lib/barcode/BarcodeAnalyzer.kt:76-81 | the corner string decodes back to exactly the corner points, in input order |
| `Corners.OneSpacePerCorner` | core-lib/src/main/java/org/idpass/smartscanner/lib/barcode/BarcodeAnalyzer.kt:78-80 | N corners give a string with exactly N spaces, one terminating each token |
| `Corners.NoCornersGiveEmptyString` | core-lib/src/main/java/org/idpass/smartscanner/lib/barcode/BarcodeAnalyzer.kt:76-86 | `null` or empty corner points give the empty corner string |
| `ResultEncoding.GetBooleanExtra` | core-lib/src/main/java/org/idpass/smartscanner/lib/barcode/BarcodeAnalyzer.kt:123-124 | a boolean flag differs from its default only when the intent stores that boolean under the flag's name, and is the stored boolean whenever one is stored |
| `ResultEncoding.GetStringExtra` | core-lib/src/main/java/org/idpass/smartscanner/lib/barcode/BarcodeAnalyzer.kt:125 | the JSON path is present exactly when the intent stores a `String` under `JSON_PATH`, and is that string |
| `ResultEncoding.RouteOf` | core-lib/src/main/java/org/idpass/smartscanner/lib/barcode/BarcodeAnalyzer.kt:89-101 | the action selects the QR-code path iff it is the QR-code intent, the bundle path iff it is the barcode or ODK barcode intent, the analyzer path otherwise (including a `null` action) |
| `ResultEncoding.QrCodeBundle` | core-lib/src/main/java/org/idpass/smartscanner/lib/barcode/BarcodeAnalyzer.kt:122-142 | a built QR-code bundle has a single entry, and a codec can only throw when gzip is enabled |
| `ResultEncoding.QrBundleHasOneKey` | core-lib/src/main/java/org/idpass/smartscanner/lib/barcode/BarcodeAnalyzer.kt:127-142 | a built QR-code bundle has exactly one key: `QRCODE_JSON_VALUE` iff gzipped with a JSON path, `QRCODE_TEXT` otherwise |
| `ResultEncoding.QrBundleCases` | core-lib/src/main/java/org/idpass/smartscanner/lib/barcode/BarcodeAnalyzer.kt:127-142 | the four cases: path-read of the decompressed text, its JSON normalisation, the decompressed text verbatim, the raw value verbatim; a throwing codec yields no bundle |
| `ResultEncoding.QrPlainIgnoresCodecs` | core-lib/src/main/java/org/idpass/smartscanner/lib/barcode/BarcodeAnalyzer.kt:140-142 | with gzip disabled the bundle is `QRCODE_TEXT` = raw value whatever the codecs do: the decompressor is never called |
| `ResultEncoding.QrDefaultsDecompressAndNormalise` | core-lib/src/main/java/org/idpass/smartscanner/lib/barcode/BarcodeAnalyzer.kt:123-135 | both flags default to true: without flags and path the bundle holds the JSON-normalised decompressed text |
| `ResultEncoding.BuildBundleResult` | core-lib/src/main/java/org/idpass/smartscanner/lib/barcode/BarcodeAnalyzer.kt:151-168 | the `putString` calls build the barcode bundle, and the result intent holds it under `RESULT` followed by its prefixed copies |
| `ResultEncoding.PutPrefixedCopies` | core-lib/src/main/java/org/idpass/smartscanner/lib/barcode/BarcodeAnalyzer.kt:166-168 | the `keySet()` loop adds `prefix + k` with `k`'s value for every bundle key, in any iteration order, over what the intent already held |
| `ResultEncoding.BarcodeBundle` | core-lib/src/main/java/org/idpass/smartscanner/lib/barcode/BarcodeAnalyzer.kt:151-158 | the bundle always holds image path, corners and value from the `BarcodeResult`, holds `IDPASS_ODK_INTENT_DATA` (the value) iff the action is the ODK barcode intent, and nothing else |
| `ResultEncoding.ResultPrefix` | core-lib/src/main/java/org/idpass/smartscanner/lib/barcode/BarcodeAnalyzer.kt:161-163 | the prefix is empty unless the prefix extra is present; it is the stored `String` when there is one, and `"null"` when the extra holds something else |
| `ResultEncoding.PrefixedCopy` | core-lib/src/main/java/org/idpass/smartscanner/lib/barcode/BarcodeAnalyzer.kt:166-167 | the copies are one entry `prefix + k` per copied key `k`, holding `k`'s value, and nothing else |
| `ResultEncoding.BundleResultExtras` | core-lib/src/main/java/org/idpass/smartscanner/lib/barcode/BarcodeAnalyzer.kt:160-168 | the result intent holds, for every bundle key `k`, an extra `prefix + k` with the same value, and no key other than these and `RESULT` |
| `ResultEncoding.BundleResultLayout` | core-lib/src/main/java/org/idpass/smartscanner/lib/barcode/BarcodeAnalyzer.kt:164-168 | when no `prefix + k` equals `RESULT`, the result intent still holds the bundle under `RESULT` after the copies are put |
| `ResultEncoding.NoPrefixExtraCopiesPlainKeys` | core-lib/src/main/java/org/idpass/smartscanner/lib/barcode/BarcodeAnalyzer.kt:161-167 | without the prefix extra the top-level copies use the bundle keys unchanged |
| `Analyzer.ResultOf` | core-lib/src/main/java/org/idpass/smartscanner/lib/barcode/BarcodeAnalyzer.kt:75-88 | the corners of the `BarcodeResult` read back as the first barcode's corner points, in order, and as no points when ML Kit reports none |
| `Analyzer.DeliveredExtras` | core-lib/src/main/java/org/idpass/smartscanner/lib/barcode/BarcodeAnalyzer.kt:89-101 | delivery fails only when a codec throws, which happens only on the QR-code path with gzip enabled |
| `Analyzer.BarcodeAnalyzer.constructor` | core-lib/src/main/java/org/idpass/smartscanner/lib/barcode/BarcodeAnalyzer.kt:42-46 | the analyzer keeps the activity, the intent and the requested formats it is given |
| `Analyzer.BarcodeAnalyzer.Analyze` | core-lib/src/main/java/org/idpass/smartscanner/lib/barcode/BarcodeAnalyzer.kt:49-118 | one frame appends to the activity's calls and to the frame's close count exactly what `AnalyzeEffect` gives |
| `Analyzer.BarcodeAnalyzer.SendGzippedResult` | core-lib/src/main/java/org/idpass/smartscanner/lib/barcode/BarcodeAnalyzer.kt:120-148 | either a codec throws and the activity is untouched, or `setResult(RESULT_OK, {RESULT: bundle})` then `finish()` |
| `Analyzer.BarcodeAnalyzer.SendBundleResult` | core-lib/src/main/java/org/idpass/smartscanner/lib/barcode/BarcodeAnalyzer.kt:150-171 | `setResult(RESULT_OK, ..)` with the bundle-and-copies extras, then `finish()` |
| `Analyzer.BarcodeAnalyzer.SendAnalyzerResult` | core-lib/src/main/java/org/idpass/smartscanner/lib/barcode/BarcodeAnalyzer.kt:173-180 | `setResult(RESULT_OK, {SCANNER_RESULT: result})`, then `finish()` |
| `Analyzer.NoImageNoEffect` | core-lib/src/main/java/org/idpass/smartscanner/lib/barcode/BarcodeAnalyzer.kt:50-117 | a frame without an image causes no activity call and is not closed |
| `Analyzer.DetectorFailureOnlyCloses` | core-lib/src/main/java/org/idpass/smartscanner/lib/barcode/BarcodeAnalyzer.kt:110-116 | on detector failure the frame is closed once and no result is delivered |
| `Analyzer.NothingDetectedOnlyCloses` | core-lib/src/main/java/org/idpass/smartscanner/lib/barcode/BarcodeAnalyzer.kt:102-108 | with no barcode the frame is closed once, no result is set and the activity is not finished |
| `Analyzer.DeliveryIsSetResultThenFinish` | core-lib/src/main/java/org/idpass/smartscanner/lib/barcode/BarcodeAnalyzer.kt:89-108 | a delivering frame makes exactly `setResult(RESULT_OK, extras)` then `finish()`, and is closed once |
| `Analyzer.ThrownLeavesFrameOpen` | core-lib/src/main/java/org/idpass/smartscanner/lib/barcode/BarcodeAnalyzer.kt:127-135 | a throwing codec leaves the activity untouched and the frame open, and only happens on the QR-code path with gzip enabled |
| `Analyzer.AnalyzeEffect` | core-lib/src/main/java/org/idpass/smartscanner/lib/barcode/BarcodeAnalyzer.kt:49-118 | every frame makes either no activity call or exactly `setResult(RESULT_OK, ..)` then `finish()`; it is closed at most once, and once when it delivers |
| `Analyzer.OnlyFirstBarcodeMatters` | core-lib/src/main/java/org/idpass/smartscanner/lib/barcode/BarcodeAnalyzer.kt:74-91 | detections that agree on `barcodes[0]` for the combined mask have the same effect |
| `Analyzer.DeliveredPerRoute` | core-lib/src/main/java/org/idpass/smartscanner/lib/barcode/BarcodeAnalyzer.kt:88-100 | what each path delivers: `RESULT` holding the QR-code bundle, the bundle-and-copies extras, or `SCANNER_RESULT` holding the serialised `BarcodeResult` |

## Left out

- Camera image handling: `imageProxy.image` is reduced to present or absent. Bitmap conversion (`toBitmap`), rotation and `InputImage` are platform image I/O.
- The ML Kit scanner (`BarcodeScanning.getClient`, `process`) is a parameter from the format mask to a `Detection`. The asynchronous listeners run in sequence with the rest of `analyze`; no concurrency is modelled.
- `GzipUtils.decompress`, `JsonPath.parse`/`read`, `JSONObject(..).toString()` and `Gson().toJson` are opaque parameters. No gzip format and no JSON are modelled; only where their results go.
- `cacheImagePath` and `cacheImageToLocal`: the file path is an input string. The cached image file is not modelled.
- Logging and the `System.currentTimeMillis` timing have no effect on results and are left out.
- The `Intent`, `Bundle` and `Activity` objects are reduced. An intent is its action and a map of extras; a bundle is a map of strings; the activity is the list of `setResult`/`finish` calls it receives.
- The order between the activity calls and `imageProxy.close()` is not recorded, because the two objects keep separate counts. In the source, close comes after finish.
- The force-unwraps `rawValue!!` and `rawBytes!!` are preconditions (`FrameWellFormed`). The crash they cause otherwise is not modelled.
- Corner coordinates are unbounded integers. Kotlin's are 32-bit, and every 32-bit value renders the same way.
- One outcome per scanning session: the source keeps no session state, so the model covers single frames only.

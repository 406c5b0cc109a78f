/** `BarcodeAnalyzer.analyze`: one camera frame through the detector, the
    corner string, the result dispatch and the hand-over to the activity.
    The asynchronous ML Kit listeners become an input value (`Detection`)
    consumed in sequence; the activity and the frame are objects whose state
    records what the analyzer did to them. */
module Analyzer {
  import opened Wrappers
  import opened BarcodeFormats
  import opened Corners
  import opened ResultEncoding

  /** An ML Kit `Barcode`, reduced to the three properties the analyzer
      reads; each is nullable in the ML Kit API. */
  datatype Barcode = Barcode(rawValue: Option<string>, rawBytes: Option<seq<bv8>>, cornerPoints: Option<seq<Point>>)

  /** What `scanner.process(image)` reports: the failure listener fires, or
      the success listener fires with the detected barcodes. */
  datatype Detection = DetectionFailed | DetectionSucceeded(barcodes: seq<Barcode>)

  /** Android's `Activity.RESULT_OK`. */
  const RESULT_OK: int := -1

  /** A call the analyzer makes on the host activity. */
  datatype ActivityCall = SetResultCall(resultCode: int, data: Extras) | FinishCall

  /** The host activity, reduced to the calls it has received. */
  class Activity {
    var calls: seq<ActivityCall>

    constructor ()
      ensures calls == []
    {
      calls := [];
    }

    method SetResult(resultCode: int, data: Extras)
      modifies this
      ensures calls == old(calls) + [SetResultCall(resultCode, data)]
    {
      calls := calls + [SetResultCall(resultCode, data)];
    }

    method Finish()
      modifies this
      ensures calls == old(calls) + [FinishCall]
    {
      calls := calls + [FinishCall];
    }
  }

  /** A CameraX `ImageProxy`: whether it carries an image, and how many times
      it has been closed (released back to the camera). */
  class ImageProxy {
    const hasImage: bool
    var closeCount: nat

    constructor (hasImage: bool)
      ensures this.hasImage == hasImage && closeCount == 0
    {
      this.hasImage := hasImage;
      closeCount := 0;
    }

    method Close()
      modifies this
      ensures closeCount == old(closeCount) + 1
    {
      closeCount := closeCount + 1;
    }
  }

  /** The values the source force-unwraps are present: `rawValue!!` always,
      `rawBytes!!` on the QR-code path. */
  predicate ForcedValuesPresent(intent: Intent, b: Barcode) {
    b.rawValue.Some? && (RouteOf(intent.action) == GzippedRoute ==> b.rawBytes.Some?)
  }

  /** The `BarcodeResult` of the first barcode. Its corner string reads
      back as the barcode's corner points, in order (none when ML Kit
      reports none). */
  function ResultOf(b: Barcode, filePath: string): (r: BarcodeResult)
    requires b.rawValue.Some?
    ensures DecodeCorners(r.corners) == Some(if b.cornerPoints.Some? then b.cornerPoints.value else [])
  {
    if b.cornerPoints.Some? then
      CornersRoundTrip(b.cornerPoints.value);
      BarcodeResult(filePath, CornersString(b.cornerPoints), b.rawValue.value)
    else
      BarcodeResult(filePath, CornersString(b.cornerPoints), b.rawValue.value)
  }

  /** The extras of the intent handed to `setResult`, or `Thrown` when a
      library call on the QR-code path throws; the other two paths always
      deliver. */
  function DeliveredExtras(intent: Intent, b: Barcode, filePath: string, codecs: Codecs): (d: Result<Extras>)
    requires ForcedValuesPresent(intent, b)
    ensures d.Thrown? ==> RouteOf(intent.action) == GzippedRoute && GetBooleanExtra(intent, GZIPPED_ENABLED, true)
  {
    match RouteOf(intent.action)
    case GzippedRoute =>
      (match QrCodeBundle(intent, b.rawValue.value, b.rawBytes.value, codecs)
       case Thrown => Thrown
       case Ok(bundle) => Ok(map[RESULT := BundleExtra(bundle)]))
    case BundleRoute => Ok(BundleResultExtras(intent, ResultOf(b, filePath)))
    case AnalyzerRoute => Ok(map[SCANNER_RESULT := StringExtra(codecs.toJson(ResultOf(b, filePath)))])
  }

  /** The callers' side of the force-unwraps: when the detector reports a
      barcode for this frame, the first one carries what the source unwraps. */
  predicate FrameWellFormed(intent: Intent, formats: seq<bv32>, hasImage: bool, detect: bv32 -> Detection) {
    hasImage ==>
      match detect(FormatMask(formats))
      case DetectionFailed => true
      case DetectionSucceeded(bs) => |bs| > 0 ==> ForcedValuesPresent(intent, bs[0])
  }

  /** What one call of `analyze` does: the calls made on the activity and
      the number of times the frame is closed. */
  datatype FrameEffect = FrameEffect(calls: seq<ActivityCall>, closes: nat)

  /** The effect of one frame. Every frame either delivers nothing or makes
      exactly the two calls `setResult(RESULT_OK, ..)` then `finish()`; it
      is closed at most once, and always once when it delivers. */
  function AnalyzeEffect(intent: Intent, formats: seq<bv32>, hasImage: bool, detect: bv32 -> Detection,
                         filePath: string, codecs: Codecs): (e: FrameEffect)
    requires FrameWellFormed(intent, formats, hasImage, detect)
    ensures e.closes <= 1
    ensures e.calls == [] ||
      (|e.calls| == 2 && e.calls[0].SetResultCall? && e.calls[0].resultCode == RESULT_OK &&
       e.calls[1] == FinishCall && e.closes == 1)
  {
    if !hasImage then FrameEffect([], 0)
    else
      match detect(FormatMask(formats))
      case DetectionFailed => FrameEffect([], 1)
      case DetectionSucceeded(bs) =>
        if |bs| == 0 then FrameEffect([], 1)
        else
          match DeliveredExtras(intent, bs[0], filePath, codecs)
          case Thrown => FrameEffect([], 0)
          case Ok(data) => FrameEffect([SetResultCall(RESULT_OK, data), FinishCall], 1)
  }

  // ---------------------------------------------------------------------
  // What one frame can do

  /** A frame without an image is neither analysed nor closed. */
  lemma NoImageNoEffect(intent: Intent, formats: seq<bv32>, detect: bv32 -> Detection, filePath: string, codecs: Codecs)
    ensures AnalyzeEffect(intent, formats, false, detect, filePath, codecs) == FrameEffect([], 0)
  {
  }

  /** Detector failure: the frame is closed once and nothing is delivered. */
  lemma DetectorFailureOnlyCloses(intent: Intent, formats: seq<bv32>, detect: bv32 -> Detection,
                                  filePath: string, codecs: Codecs)
    requires detect(FormatMask(formats)) == DetectionFailed
    ensures AnalyzeEffect(intent, formats, true, detect, filePath, codecs) == FrameEffect([], 1)
  {
  }

  /** No barcode found: the frame is closed once, no result is set and the
      activity is not finished. */
  lemma NothingDetectedOnlyCloses(intent: Intent, formats: seq<bv32>, detect: bv32 -> Detection,
                                  filePath: string, codecs: Codecs)
    requires detect(FormatMask(formats)) == DetectionSucceeded([])
    ensures AnalyzeEffect(intent, formats, true, detect, filePath, codecs) == FrameEffect([], 1)
  {
  }

  /** A delivering frame calls `setResult(RESULT_OK, ..)` exactly once, then
      `finish()`, and is closed once. */
  lemma DeliveryIsSetResultThenFinish(intent: Intent, formats: seq<bv32>, detect: bv32 -> Detection,
                                      first: Barcode, rest: seq<Barcode>, filePath: string, codecs: Codecs)
    requires detect(FormatMask(formats)) == DetectionSucceeded([first] + rest)
    requires ForcedValuesPresent(intent, first)
    requires DeliveredExtras(intent, first, filePath, codecs).Ok?
    ensures FrameWellFormed(intent, formats, true, detect)
    ensures AnalyzeEffect(intent, formats, true, detect, filePath, codecs) ==
      FrameEffect([SetResultCall(RESULT_OK, DeliveredExtras(intent, first, filePath, codecs).value), FinishCall], 1)
  {
  }

  /** A library exception on the QR-code path leaves the activity alone and
      the frame open; it can only come from that path with gzip enabled. */
  lemma ThrownLeavesFrameOpen(intent: Intent, formats: seq<bv32>, detect: bv32 -> Detection,
                              filePath: string, codecs: Codecs)
    requires FrameWellFormed(intent, formats, true, detect)
    requires detect(FormatMask(formats)).DetectionSucceeded?
    requires var bs := detect(FormatMask(formats)).barcodes;
      |bs| > 0 && DeliveredExtras(intent, bs[0], filePath, codecs).Thrown?
    ensures AnalyzeEffect(intent, formats, true, detect, filePath, codecs) == FrameEffect([], 0)
    ensures RouteOf(intent.action) == GzippedRoute && GetBooleanExtra(intent, GZIPPED_ENABLED, true)
  {
  }

  /** Only `barcodes[0]` is used: detections that agree on the first barcode
      have the same effect. The detector is only asked about the combined
      format mask. */
  lemma OnlyFirstBarcodeMatters(intent: Intent, formats: seq<bv32>, d1: bv32 -> Detection, d2: bv32 -> Detection,
                                filePath: string, codecs: Codecs)
    requires FrameWellFormed(intent, formats, true, d1)
    requires d1(FormatMask(formats)).DetectionSucceeded? && d2(FormatMask(formats)).DetectionSucceeded?
    requires var bs1, bs2 := d1(FormatMask(formats)).barcodes, d2(FormatMask(formats)).barcodes;
      |bs1| > 0 && |bs2| > 0 && bs1[0] == bs2[0]
    ensures FrameWellFormed(intent, formats, true, d2)
    ensures AnalyzeEffect(intent, formats, true, d1, filePath, codecs) ==
            AnalyzeEffect(intent, formats, true, d2, filePath, codecs)
  {
  }

  /** What is delivered on each of the three paths. */
  lemma DeliveredPerRoute(intent: Intent, b: Barcode, filePath: string, codecs: Codecs)
    requires ForcedValuesPresent(intent, b)
    ensures var d := DeliveredExtras(intent, b, filePath, codecs);
      var r := BarcodeResult(filePath, CornersString(b.cornerPoints), b.rawValue.value);
      && (RouteOf(intent.action) == GzippedRoute ==>
            match QrCodeBundle(intent, b.rawValue.value, b.rawBytes.value, codecs)
            case Thrown => d == Thrown
            case Ok(bundle) => d == Ok(map[RESULT := BundleExtra(bundle)]))
      && (RouteOf(intent.action) == BundleRoute ==> d == Ok(BundleResultExtras(intent, r)))
      && (RouteOf(intent.action) == AnalyzerRoute ==> d == Ok(map[SCANNER_RESULT := StringExtra(codecs.toJson(r))]))
  {
  }

  /** Two calls appended one after the other form one appended pair. */
  lemma AppendPair<T>(s: seq<T>, x: T, y: T)
    ensures s + [x] + [y] == s + [x, y]
  {
  }

  class BarcodeAnalyzer {
    const activity: Activity
    const intent: Intent
    const barcodeFormats: seq<bv32>

    constructor (activity: Activity, intent: Intent, barcodeFormats: seq<bv32>)
      ensures this.activity == activity && this.intent == intent && this.barcodeFormats == barcodeFormats
    {
      this.activity := activity;
      this.intent := intent;
      this.barcodeFormats := barcodeFormats;
    }

    /** `analyze`. `detect` is the ML Kit scanner configured with the given
        format mask; `filePath` is what `activity.cacheImagePath()` returns. */
    method Analyze(imageProxy: ImageProxy, detect: bv32 -> Detection, filePath: string, codecs: Codecs)
      requires FrameWellFormed(intent, barcodeFormats, imageProxy.hasImage, detect)
      modifies activity, imageProxy
      ensures var effect := AnalyzeEffect(intent, barcodeFormats, imageProxy.hasImage, detect, filePath, codecs);
        && activity.calls == old(activity.calls) + effect.calls
        && imageProxy.closeCount == old(imageProxy.closeCount) + effect.closes
    {
      if imageProxy.hasImage {
        var barcodeFormat := CombineFormats(barcodeFormats);
        match detect(barcodeFormat) {
          case DetectionSucceeded(barcodes) =>
            if |barcodes| > 0 {
              var cornersString := BuildCornersString(barcodes[0].cornerPoints);
              var rawValue := barcodes[0].rawValue.value;
              var result := BarcodeResult(filePath, cornersString, rawValue);
              match RouteOf(intent.action) {
                case GzippedRoute =>
                  var thrown := SendGzippedResult(rawValue, barcodes[0].rawBytes.value, codecs);
                  if thrown {
                    // The exception leaves the success listener before `imageProxy.close()`.
                    return;
                  }
                case BundleRoute =>
                  SendBundleResult(result);
                case AnalyzerRoute =>
                  SendAnalyzerResult(codecs.toJson(result));
              }
            }
            imageProxy.Close();
          case DetectionFailed =>
            imageProxy.Close();
        }
      }
    }

    /** `sendGzippedResult`; `thrown` tells whether a library call threw, in
        which case the activity is left alone. */
    method SendGzippedResult(rawValue: string, rawBytes: seq<bv8>, codecs: Codecs) returns (thrown: bool)
      modifies activity
      ensures var bundle := QrCodeBundle(intent, rawValue, rawBytes, codecs);
        && thrown == bundle.Thrown?
        && activity.calls == old(activity.calls) +
             (if thrown then [] else [SetResultCall(RESULT_OK, map[RESULT := BundleExtra(bundle.value)]), FinishCall])
    {
      var bundle := QrCodeBundle(intent, rawValue, rawBytes, codecs);
      if bundle.Thrown? {
        return true;
      }
      thrown := false;
      var data: Extras := map[];
      data := data[RESULT := BundleExtra(bundle.value)];
      activity.SetResult(RESULT_OK, data);
      activity.Finish();
    }

    /** `sendBundleResult`. */
    method SendBundleResult(barcodeResult: BarcodeResult)
      modifies activity
      ensures activity.calls == old(activity.calls) +
        [SetResultCall(RESULT_OK, BundleResultExtras(intent, barcodeResult)), FinishCall]
    {
      var bundle, result := BuildBundleResult(intent, barcodeResult);
      ghost var before := activity.calls;
      activity.SetResult(RESULT_OK, result);
      activity.Finish();
      AppendPair(before, SetResultCall(RESULT_OK, result), FinishCall);
    }

    /** `sendAnalyzerResult`. */
    method SendAnalyzerResult(result: string)
      modifies activity
      ensures activity.calls == old(activity.calls) +
        [SetResultCall(RESULT_OK, map[SCANNER_RESULT := StringExtra(result)]), FinishCall]
    {
      var data: Extras := map[];
      data := data[SCANNER_RESULT := StringExtra(result)];
      activity.SetResult(RESULT_OK, data);
      activity.Finish();
    }
  }
}

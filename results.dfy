/** What `BarcodeAnalyzer` hands back to the calling app: the dispatch on the
    intent action, the single-key bundle of the QR-code path
    (`sendGzippedResult`), the barcode bundle and its prefixed top-level copy
    (`sendBundleResult`), and the serialised result of the fallback path
    (`sendAnalyzerResult`). */
module ResultEncoding {
  import opened Wrappers

  // Names of intent actions, intent extras and bundle keys. The values of
  // `ScannerConstants` and `SmartScannerActivity.SCANNER_RESULT` are not part
  // of this model; each is represented by its own identifier.
  const IDPASS_SMARTSCANNER_QRCODE_INTENT: string := "IDPASS_SMARTSCANNER_QRCODE_INTENT"
  const IDPASS_SMARTSCANNER_BARCODE_INTENT: string := "IDPASS_SMARTSCANNER_BARCODE_INTENT"
  const IDPASS_SMARTSCANNER_ODK_BARCODE_INTENT: string := "IDPASS_SMARTSCANNER_ODK_BARCODE_INTENT"
  const GZIPPED_ENABLED: string := "GZIPPED_ENABLED"
  const JSON_ENABLED: string := "JSON_ENABLED"
  const JSON_PATH: string := "JSON_PATH"
  const IDPASS_ODK_PREFIX_EXTRA: string := "IDPASS_ODK_PREFIX_EXTRA"
  const RESULT: string := "RESULT"
  const SCANNER_RESULT: string := "SCANNER_RESULT"
  const QRCODE_JSON_VALUE: string := "QRCODE_JSON_VALUE"
  const QRCODE_TEXT: string := "QRCODE_TEXT"
  const IDPASS_ODK_INTENT_DATA: string := "IDPASS_ODK_INTENT_DATA"
  const BARCODE_IMAGE: string := "BARCODE_IMAGE"
  const BARCODE_CORNERS: string := "BARCODE_CORNERS"
  const BARCODE_VALUE: string := "BARCODE_VALUE"

  /** The `BarcodeResult` record built for the first detected barcode. */
  datatype BarcodeResult = BarcodeResult(imagePath: string, corners: string, value: string)

  /** One value held in an `Intent`'s extras. `NullExtra` is an extra put with
      a `null` value; `OtherExtra` stands for a value of any type the
      analyzer never reads as such (an `Int`, say). */
  datatype Extra =
    | BoolExtra(b: bool)
    | StringExtra(s: string)
    | BundleExtra(bundle: map<string, string>)
    | NullExtra
    | OtherExtra

  type Extras = map<string, Extra>

  /** An Android `Intent`, reduced to its action and its extras. */
  datatype Intent = Intent(action: Option<string>, extras: Extras)

  /** `Intent.hasExtra`. */
  predicate HasExtra(intent: Intent, name: string) {
    name in intent.extras
  }

  /** `Intent.getBooleanExtra`: the default unless a `Boolean` is stored. */
  function GetBooleanExtra(intent: Intent, name: string, default: bool): (b: bool)
    ensures b != default ==> name in intent.extras && intent.extras[name] == BoolExtra(b)
    ensures name in intent.extras && intent.extras[name].BoolExtra? ==> b == intent.extras[name].b
  {
    if name in intent.extras && intent.extras[name].BoolExtra? then intent.extras[name].b
    else default
  }

  /** `Intent.getStringExtra`: `null` unless a `String` is stored. */
  function GetStringExtra(intent: Intent, name: string): (r: Option<string>)
    ensures r.Some? <==> name in intent.extras && intent.extras[name].StringExtra?
    ensures r.Some? ==> intent.extras[name] == StringExtra(r.value)
  {
    if name in intent.extras && intent.extras[name].StringExtra? then Some(intent.extras[name].s)
    else None
  }

  // ---------------------------------------------------------------------
  // Dispatch on the intent action

  datatype Route = GzippedRoute | BundleRoute | AnalyzerRoute

  /** The `when (intent.action)` of `analyze`: three exclusive outcomes. */
  function RouteOf(action: Option<string>): (r: Route)
    ensures r == GzippedRoute <==> action == Some(IDPASS_SMARTSCANNER_QRCODE_INTENT)
    ensures r == BundleRoute <==>
      action == Some(IDPASS_SMARTSCANNER_BARCODE_INTENT) ||
      action == Some(IDPASS_SMARTSCANNER_ODK_BARCODE_INTENT)
    ensures r == AnalyzerRoute <==>
      action !in {Some(IDPASS_SMARTSCANNER_QRCODE_INTENT), Some(IDPASS_SMARTSCANNER_BARCODE_INTENT),
                  Some(IDPASS_SMARTSCANNER_ODK_BARCODE_INTENT)}
  {
    match action
    case Some(a) =>
      if a == IDPASS_SMARTSCANNER_QRCODE_INTENT then GzippedRoute
      else if a == IDPASS_SMARTSCANNER_BARCODE_INTENT || a == IDPASS_SMARTSCANNER_ODK_BARCODE_INTENT then BundleRoute
      else AnalyzerRoute
    case None => AnalyzerRoute
  }

  // ---------------------------------------------------------------------
  // Library codecs the analyzer calls but this model does not look into

  /** `GzipUtils.decompress`, `JsonPath.parse(..).read(path).toString()`,
      `JSONObject(..).toString()` and `Gson().toJson`. The first three may
      throw; Gson serialisation of a `BarcodeResult` does not. */
  datatype Codecs = Codecs(
    decompress: seq<bv8> -> Result<string>,
    readJsonPath: (string, string) -> Result<string>,
    normaliseJson: string -> Result<string>,
    toJson: BarcodeResult -> string)

  // ---------------------------------------------------------------------
  // QR-code path: sendGzippedResult

  /** The bundle `sendGzippedResult` builds, or `Thrown` when one of the
      library calls it makes throws. A built bundle has a single entry, and
      only the gzipped path calls code that can throw. */
  function QrCodeBundle(intent: Intent, rawValue: string, rawBytes: seq<bv8>, codecs: Codecs)
    : (r: Result<map<string, string>>)
    ensures r.Ok? ==> |r.value| == 1
    ensures r.Thrown? ==> GetBooleanExtra(intent, GZIPPED_ENABLED, true)
  {
    var isGzipped := GetBooleanExtra(intent, GZIPPED_ENABLED, true);
    var isJson := GetBooleanExtra(intent, JSON_ENABLED, true);
    var jsonPath := GetStringExtra(intent, JSON_PATH);
    if isGzipped then
      match codecs.decompress(rawBytes)
      case Thrown => Thrown
      case Ok(gzippedData) =>
        match jsonPath
        case Some(path) =>
          (match codecs.readJsonPath(gzippedData, path)
           case Thrown => Thrown
           case Ok(v) => Ok(map[QRCODE_JSON_VALUE := v]))
        case None =>
          if isJson then
            match codecs.normaliseJson(gzippedData)
            case Thrown => Thrown
            case Ok(json) => Ok(map[QRCODE_TEXT := json])
          else Ok(map[QRCODE_TEXT := gzippedData])
    else Ok(map[QRCODE_TEXT := rawValue])
  }

  /** Whatever the flags, a bundle that is built holds exactly one key:
      `QRCODE_JSON_VALUE` when a JSON path is given for gzipped data,
      `QRCODE_TEXT` otherwise. */
  lemma QrBundleHasOneKey(intent: Intent, rawValue: string, rawBytes: seq<bv8>, codecs: Codecs)
    requires QrCodeBundle(intent, rawValue, rawBytes, codecs).Ok?
    ensures var b := QrCodeBundle(intent, rawValue, rawBytes, codecs).value;
      |b| == 1 &&
      (b.Keys == {QRCODE_JSON_VALUE} <==>
         GetBooleanExtra(intent, GZIPPED_ENABLED, true) && GetStringExtra(intent, JSON_PATH).Some?) &&
      (b.Keys == {QRCODE_TEXT} <==>
         !(GetBooleanExtra(intent, GZIPPED_ENABLED, true) && GetStringExtra(intent, JSON_PATH).Some?))
  {
  }

  /** The four cases of `sendGzippedResult`: the value stored is the library
      result (or the raw value) passed through unchanged. */
  lemma QrBundleCases(intent: Intent, rawValue: string, rawBytes: seq<bv8>, codecs: Codecs)
    ensures var isGzipped := GetBooleanExtra(intent, GZIPPED_ENABLED, true);
      var isJson := GetBooleanExtra(intent, JSON_ENABLED, true);
      var jsonPath := GetStringExtra(intent, JSON_PATH);
      var r := QrCodeBundle(intent, rawValue, rawBytes, codecs);
      && (isGzipped && jsonPath.Some? && codecs.decompress(rawBytes).Ok? ==>
            r == (match codecs.readJsonPath(codecs.decompress(rawBytes).value, jsonPath.value)
                  case Ok(v) => Ok(map[QRCODE_JSON_VALUE := v])
                  case Thrown => Thrown))
      && (isGzipped && jsonPath.None? && isJson && codecs.decompress(rawBytes).Ok? ==>
            r == (match codecs.normaliseJson(codecs.decompress(rawBytes).value)
                  case Ok(v) => Ok(map[QRCODE_TEXT := v])
                  case Thrown => Thrown))
      && (isGzipped && jsonPath.None? && !isJson && codecs.decompress(rawBytes).Ok? ==>
            r == Ok(map[QRCODE_TEXT := codecs.decompress(rawBytes).value]))
      && (isGzipped && codecs.decompress(rawBytes).Thrown? ==> r == Thrown)
      && (!isGzipped ==> r == Ok(map[QRCODE_TEXT := rawValue]))
  {
  }

  /** When the gzip flag is off, the decompressor and the JSON codecs are
      never called: any two sets of codecs give the same bundle. */
  lemma QrPlainIgnoresCodecs(intent: Intent, rawValue: string, rawBytes: seq<bv8>, c1: Codecs, c2: Codecs)
    requires !GetBooleanExtra(intent, GZIPPED_ENABLED, true)
    ensures QrCodeBundle(intent, rawValue, rawBytes, c1) == QrCodeBundle(intent, rawValue, rawBytes, c2)
    ensures QrCodeBundle(intent, rawValue, rawBytes, c1) == Ok(map[QRCODE_TEXT := rawValue])
  {
  }

  /** Both flags default to true: an intent carrying neither flag nor path
      gets the normalised decompressed text. */
  lemma QrDefaultsDecompressAndNormalise(intent: Intent, rawValue: string, rawBytes: seq<bv8>, codecs: Codecs)
    requires GZIPPED_ENABLED !in intent.extras && JSON_ENABLED !in intent.extras
    requires JSON_PATH !in intent.extras
    ensures QrCodeBundle(intent, rawValue, rawBytes, codecs) ==
      match codecs.decompress(rawBytes)
      case Thrown => Thrown
      case Ok(text) =>
        (match codecs.normaliseJson(text)
         case Thrown => Thrown
         case Ok(json) => Ok(map[QRCODE_TEXT := json]))
  {
  }

  // ---------------------------------------------------------------------
  // Barcode path: sendBundleResult

  /** The bundle of `sendBundleResult`. It always holds the image path, the
      corners and the value of the `BarcodeResult`, holds
      `IDPASS_ODK_INTENT_DATA` (the value again) exactly when the action is
      the ODK barcode intent, and nothing else. */
  function BarcodeBundle(action: Option<string>, r: BarcodeResult): (b: map<string, string>)
    ensures BARCODE_IMAGE in b && b[BARCODE_IMAGE] == r.imagePath
    ensures BARCODE_CORNERS in b && b[BARCODE_CORNERS] == r.corners
    ensures BARCODE_VALUE in b && b[BARCODE_VALUE] == r.value
    ensures IDPASS_ODK_INTENT_DATA in b <==> action == Some(IDPASS_SMARTSCANNER_ODK_BARCODE_INTENT)
    ensures IDPASS_ODK_INTENT_DATA in b ==> b[IDPASS_ODK_INTENT_DATA] == r.value
    ensures b.Keys <= {BARCODE_IMAGE, BARCODE_CORNERS, BARCODE_VALUE, IDPASS_ODK_INTENT_DATA}
  {
    var odk := if action == Some(IDPASS_SMARTSCANNER_ODK_BARCODE_INTENT)
               then map[IDPASS_ODK_INTENT_DATA := r.value] else map[];
    odk[BARCODE_IMAGE := r.imagePath][BARCODE_CORNERS := r.corners][BARCODE_VALUE := r.value]
  }

  /** The prefix for the top-level copies: empty unless the intent carries
      `IDPASS_ODK_PREFIX_EXTRA`, and then the `String` it holds. Kotlin's
      `String? + String` renders a `null` prefix as "null", which happens
      when the extra is present but holds no `String`. */
  function ResultPrefix(intent: Intent): (p: string)
    ensures p != "" ==> HasExtra(intent, IDPASS_ODK_PREFIX_EXTRA)
    ensures GetStringExtra(intent, IDPASS_ODK_PREFIX_EXTRA).Some? ==>
      p == GetStringExtra(intent, IDPASS_ODK_PREFIX_EXTRA).value
    ensures HasExtra(intent, IDPASS_ODK_PREFIX_EXTRA) && !intent.extras[IDPASS_ODK_PREFIX_EXTRA].StringExtra? ==>
      p == "null"
  {
    if HasExtra(intent, IDPASS_ODK_PREFIX_EXTRA) then
      match GetStringExtra(intent, IDPASS_ODK_PREFIX_EXTRA)
      case Some(p) => p
      case None => "null"
    else ""
  }

  /** One top-level extra `prefix + key` for each of the bundle keys in
      `keys`, holding that key's value, and no other entry. */
  function PrefixedCopy(prefix: string, bundle: map<string, string>, keys: set<string>): (c: Extras)
    requires keys <= bundle.Keys
    ensures c.Keys == set k | k in keys :: prefix + k
    ensures forall k :: k in keys ==> prefix + k in c && c[prefix + k] == StringExtra(bundle[k])
  {
    assert forall k1, k2 | k1 in keys && k2 in keys && prefix + k1 == prefix + k2 :: k1 == k2 by {
      forall k1, k2 | k1 in keys && k2 in keys && prefix + k1 == prefix + k2 ensures k1 == k2 {
        assert k1 == (prefix + k1)[|prefix|..];
      }
    }
    var c := map k | k in keys :: prefix + k := StringExtra(bundle[k]);
    assert forall k :: k in keys ==> c[prefix + k] == StringExtra(bundle[k]) by {
      forall k | k in keys ensures c[prefix + k] == StringExtra(bundle[k]) {
        var k' :| k' in keys && prefix + k == prefix + k';
        assert k == (prefix + k)[|prefix|..] == k';
      }
    }
    c
  }

  /** Copying one more key adds exactly its prefixed entry. */
  lemma PrefixedCopyStep(prefix: string, bundle: map<string, string>, keys: set<string>, key: string)
    requires keys <= bundle.Keys && key in bundle && key !in keys
    ensures PrefixedCopy(prefix, bundle, keys + {key}) ==
      PrefixedCopy(prefix, bundle, keys)[prefix + key := StringExtra(bundle[key])]
  {
    var lhs := PrefixedCopy(prefix, bundle, keys + {key});
    var rhs := PrefixedCopy(prefix, bundle, keys)[prefix + key := StringExtra(bundle[key])];
    forall x | x in lhs ensures x in rhs && lhs[x] == rhs[x] {
      var k :| k in keys + {key} && x == prefix + k;
      assert k == x[|prefix|..];
    }
    forall x | x in rhs ensures x in lhs {
      if x != prefix + key {
        var k :| k in keys && x == prefix + k;
      }
    }
  }

  lemma UpdateAfterUnion<K, V>(m1: map<K, V>, m2: map<K, V>, k: K, v: V)
    ensures (m1 + m2)[k := v] == m1 + m2[k := v]
  {
  }

  /** The extras of the result intent of `sendBundleResult`: the bundle under
      `RESULT`, then the copies, put after it. Every bundle key `k` has a
      top-level `prefix + k` holding the same value; there is nothing else. */
  function BundleResultExtras(intent: Intent, r: BarcodeResult): (e: Extras)
    ensures var b := BarcodeBundle(intent.action, r);
      var prefix := ResultPrefix(intent);
      && (forall k :: k in b ==> prefix + k in e && e[prefix + k] == StringExtra(b[k]))
      && e.Keys == {RESULT} + (set k | k in b :: prefix + k)
  {
    var bundle := BarcodeBundle(intent.action, r);
    map[RESULT := BundleExtra(bundle)] + PrefixedCopy(ResultPrefix(intent), bundle, bundle.Keys)
  }

  /** `sendBundleResult` up to the hand-over to the activity: the bundle is
      filled with `putString`, then the result intent is filled with
      `putExtra`, the copies in the order of `bundle.keySet()`, which this
      method leaves open. */
  method BuildBundleResult(intent: Intent, r: BarcodeResult) returns (bundle: map<string, string>, extras: Extras)
    ensures bundle == BarcodeBundle(intent.action, r)
    ensures extras == BundleResultExtras(intent, r)
  {
    bundle := map[];
    if intent.action == Some(IDPASS_SMARTSCANNER_ODK_BARCODE_INTENT) {
      bundle := bundle[IDPASS_ODK_INTENT_DATA := r.value];
    }
    bundle := bundle[BARCODE_IMAGE := r.imagePath];
    bundle := bundle[BARCODE_CORNERS := r.corners];
    bundle := bundle[BARCODE_VALUE := r.value];

    extras := map[];
    extras := extras[RESULT := BundleExtra(bundle)];
    extras := PutPrefixedCopies(extras, ResultPrefix(intent), bundle);
  }

  /** The `for (key in bundle.keySet())` loop: puts `prefix + key` for every
      bundle key into the extras, in whatever order the key set yields. */
  method PutPrefixedCopies(init: Extras, prefix: string, bundle: map<string, string>) returns (extras: Extras)
    ensures extras == init + PrefixedCopy(prefix, bundle, bundle.Keys)
  {
    extras := init;
    var remaining := bundle.Keys;
    while remaining != {}
      invariant remaining <= bundle.Keys
      invariant extras == init + PrefixedCopy(prefix, bundle, bundle.Keys - remaining)
      decreases remaining
    {
      var key :| key in remaining;
      ghost var done := bundle.Keys - remaining;
      PrefixedCopyStep(prefix, bundle, done, key);
      UpdateAfterUnion(init, PrefixedCopy(prefix, bundle, done), prefix + key, StringExtra(bundle[key]));
      assert bundle.Keys - (remaining - {key}) == done + {key};
      extras := extras[prefix + key := StringExtra(bundle[key])];
      remaining := remaining - {key};
    }
    assert bundle.Keys - remaining == bundle.Keys;
  }

  /** The result intent of the barcode path holds the bundle under `RESULT`
      as long as no prefixed copy lands on the key `RESULT`; a copy that did
      would be put after the bundle and replace it. */
  lemma BundleResultLayout(intent: Intent, r: BarcodeResult)
    requires forall k :: k in BarcodeBundle(intent.action, r) ==> ResultPrefix(intent) + k != RESULT
    ensures var e := BundleResultExtras(intent, r);
      RESULT in e && e[RESULT] == BundleExtra(BarcodeBundle(intent.action, r))
  {
    var b := BarcodeBundle(intent.action, r);
    var copies := PrefixedCopy(ResultPrefix(intent), b, b.Keys);
    assert RESULT !in copies;
  }

  /** Without `IDPASS_ODK_PREFIX_EXTRA` the copies carry the bundle keys
      themselves. */
  lemma NoPrefixExtraCopiesPlainKeys(intent: Intent, r: BarcodeResult)
    requires !HasExtra(intent, IDPASS_ODK_PREFIX_EXTRA)
    ensures var b := BarcodeBundle(intent.action, r);
      var e := BundleResultExtras(intent, r);
      forall k :: k in b ==> k in e && e[k] == StringExtra(b[k])
  {
    assert ResultPrefix(intent) == "";
    forall k: string ensures "" + k == k { }
  }
}

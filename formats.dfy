/** The barcode format mask handed to the detector: the requested ML Kit
    format flags OR-ed together, starting from the QR-code flag. Kotlin's
    `Int` is a 32-bit two's-complement value and `or` is bitwise, so the
    mask is a `bv32`. */
module BarcodeFormats {

  /** ML Kit's `Barcode.FORMAT_QR_CODE`. */
  const FORMAT_QR_CODE: bv32 := 256
  /** ML Kit's `Barcode.FORMAT_ALL_FORMATS`: the union of the bits of every
      supported format. */
  const FORMAT_ALL_FORMATS: bv32 := 0xFFFF

  /** Every bit set in `f` is also set in `mask`. */
  predicate Covers(mask: bv32, f: bv32) {
    f | mask == mask
  }

  /** The mask after the `forEach` has visited every element of `formats`,
      in list order: each step computes `it or barcodeFormat`. It always
      holds the QR-code bit and every bit of every requested format. */
  function FormatMask(formats: seq<bv32>): (mask: bv32)
    ensures Covers(mask, FORMAT_QR_CODE)
    ensures forall i :: 0 <= i < |formats| ==> Covers(mask, formats[i])
  {
    if formats == [] then FORMAT_QR_CODE
    else formats[|formats| - 1] | FormatMask(formats[..|formats| - 1])
  }

  /** The `var barcodeFormat` accumulation loop of `analyze`. */
  method CombineFormats(formats: seq<bv32>) returns (mask: bv32)
    ensures mask == FormatMask(formats)
  {
    mask := FORMAT_QR_CODE;
    for i := 0 to |formats|
      invariant mask == FormatMask(formats[..i])
    {
      assert formats[..i + 1][..i] == formats[..i];
      mask := formats[i] | mask;
    }
    assert formats[..|formats|] == formats;
  }

  /** The mask sets no bit beyond those: any mask covering the QR-code flag
      and every requested format covers the combined mask. */
  lemma {:induction false} MaskIsLeast(formats: seq<bv32>, m: bv32)
    requires Covers(m, FORMAT_QR_CODE)
    requires forall i :: 0 <= i < |formats| ==> Covers(m, formats[i])
    ensures Covers(m, FormatMask(formats))
  {
    if formats != [] {
      var init := formats[..|formats| - 1];
      forall i | 0 <= i < |init| ensures Covers(m, init[i]) {
        assert init[i] == formats[i];
      }
      MaskIsLeast(init, m);
      assert Covers(m, formats[|formats| - 1]);
    }
  }

  /** The mask depends only on which formats were requested, not on their
      order or on repetitions. */
  lemma MaskIgnoresOrder(s: seq<bv32>, t: seq<bv32>)
    requires forall f :: f in s <==> f in t
    ensures FormatMask(s) == FormatMask(t)
  {
    forall i | 0 <= i < |t| ensures Covers(FormatMask(s), t[i]) {
      assert t[i] in t;
      var j :| 0 <= j < |s| && s[j] == t[i];
    }
    forall i | 0 <= i < |s| ensures Covers(FormatMask(t), s[i]) {
      assert s[i] in s;
      var j :| 0 <= j < |t| && t[j] == s[i];
    }
    MaskIsLeast(t, FormatMask(s));
    MaskIsLeast(s, FormatMask(t));
  }

  /** A permutation of the requested list gives the same mask. */
  lemma MaskIgnoresPermutation(s: seq<bv32>, t: seq<bv32>)
    requires multiset(s) == multiset(t)
    ensures FormatMask(s) == FormatMask(t)
  {
    forall f ensures f in s <==> f in t {
      assert f in s <==> f in multiset(s);
      assert f in t <==> f in multiset(t);
    }
    MaskIgnoresOrder(s, t);
  }

  /** Requesting `FORMAT_ALL_FORMATS` alongside ML Kit formats (each made of
      bits within it) configures the detector for every format: the QR-code
      flag is one of its bits, so the fold adds nothing further. */
  lemma AllFormatsRequestsEverything(formats: seq<bv32>)
    requires FORMAT_ALL_FORMATS in formats
    requires forall i :: 0 <= i < |formats| ==> Covers(FORMAT_ALL_FORMATS, formats[i])
    ensures FormatMask(formats) == FORMAT_ALL_FORMATS
  {
    MaskIsLeast(formats, FORMAT_ALL_FORMATS);
    var j :| 0 <= j < |formats| && formats[j] == FORMAT_ALL_FORMATS;
    assert Covers(FormatMask(formats), formats[j]);
  }
}

/**
 * The pixel conversion of the game-window capture: the captured BGRA bytes
 * are copied into an RGBA image and the red and blue byte of every pixel
 * exchanged in place.
 */
module Screenshot {
  import opened Common

  /** The byte at index i once red and blue are exchanged in every 4-byte pixel. */
  function SwappedAt(s: seq<bv8>, i: nat): bv8
    requires |s| % 4 == 0 && i < |s|
  {
    if i % 4 == 0 then s[i + 2] else if i % 4 == 2 then s[i - 2] else s[i]
  }

  function SwapRB(s: seq<bv8>): (r: seq<bv8>)
    requires |s| % 4 == 0
    ensures |r| == |s|
    ensures forall p :: 0 <= p < |s| / 4 ==>
              r[4 * p] == s[4 * p + 2] && r[4 * p + 1] == s[4 * p + 1] && r[4 * p + 2] == s[4 * p] && r[4 * p + 3] == s[4 * p + 3]
  {
    seq(|s|, i requires 0 <= i < |s| => SwappedAt(s, i))
  }

  /** Swapping twice gives the original bytes back. */
  lemma SwapRBInvolution(s: seq<bv8>)
    requires |s| % 4 == 0
    ensures SwapRB(SwapRB(s)) == s
  {
    var r := SwapRB(s);
    forall i | 0 <= i < |s|
      ensures SwapRB(r)[i] == s[i]
    {
      assert SwapRB(r)[i] == SwappedAt(r, i);
    }
  }

  /** idx = y * Stride + x * 4, with Stride = 4 * w, is the first byte of the (y * w + x)-th pixel, which lies in the image. */
  lemma PixelIndexInBounds(w: nat, h: nat, x: nat, y: nat)
    requires x < w && y < h
    ensures y * (4 * w) + x * 4 == 4 * (y * w + x)
    ensures y * w + x < w * h
    ensures y * (4 * w) + x * 4 + 3 < w * h * 4
  {
    assert y * (4 * w) == 4 * (y * w);
    assert y * w <= (h - 1) * w by {
      assert y <= h - 1;
    }
    assert (h - 1) * w == h * w - w;
    assert w * h * 4 == 4 * (w * h);
  }

  /** The first n pixels of `pix` converted, the rest still as in `orig`. */
  ghost predicate SwappedUpTo(pix: seq<bv8>, orig: seq<bv8>, n: nat)
    requires |orig| % 4 == 0 && |pix| == |orig|
  {
    && (forall i :: 0 <= i < 4 * n && i < |pix| ==> pix[i] == SwappedAt(orig, i))
    && (forall i :: 4 * n <= i < |pix| ==> pix[i] == orig[i])
  }

  /** The statement in the loop body: exchange bytes idx and idx + 2 of pixel n. */
  method SwapPixel(pix: array<bv8>, idx: nat, ghost orig: seq<bv8>, ghost n: nat)
    requires |orig| % 4 == 0 && pix.Length == |orig|
    requires idx == 4 * n && idx + 3 < pix.Length
    requires SwappedUpTo(pix[..], orig, n)
    modifies pix
    ensures SwappedUpTo(pix[..], orig, n + 1)
  {
    pix[idx], pix[idx + 2] := pix[idx + 2], pix[idx];
  }

  /** The inner loop: convert the w pixels of row y. */
  method SwapRow(pix: array<bv8>, w: nat, h: nat, y: nat, ghost orig: seq<bv8>)
    requires y < h && pix.Length == w * h * 4 && |orig| == pix.Length && |orig| % 4 == 0
    requires SwappedUpTo(pix[..], orig, y * w)
    modifies pix
    ensures SwappedUpTo(pix[..], orig, (y + 1) * w)
  {
    for x := 0 to w
      invariant SwappedUpTo(pix[..], orig, y * w + x)
    {
      PixelIndexInBounds(w, h, x, y);
      var idx := y * (4 * w) + x * 4;
      SwapPixel(pix, idx, orig, y * w + x);
    }
    assert (y + 1) * w == y * w + w;
  }

  /** The swap loop over an RGBA image of w by h pixels, rows of Stride = 4 * w bytes. */
  method SwapRedBlue(pix: array<bv8>, w: nat, h: nat)
    requires pix.Length == w * h * 4
    modifies pix
    ensures pix.Length % 4 == 0
    ensures pix[..] == SwapRB(old(pix[..]))
  {
    ghost var orig := pix[..];
    assert pix.Length == 4 * (w * h);
    for y := 0 to h
      invariant SwappedUpTo(pix[..], orig, y * w)
    {
      SwapRow(pix, w, h, y, orig);
    }
    assert h * w == w * h;
    assert pix[..] == SwapRB(orig);
  }

  /**
   * The conversion in Screenshot: `buf` is what the capture wrote, w * h * 4
   * bytes; it is copied into a fresh image and converted there.
   */
  method ToRGBA(buf: seq<bv8>, w: nat, h: nat) returns (pix: array<bv8>)
    requires |buf| == w * h * 4
    ensures fresh(pix)
    ensures pix.Length == |buf|
    ensures pix[..] == SwapRB(buf)
  {
    pix := new bv8[w * h * 4](i requires 0 <= i < |buf| => buf[i]);
    assert pix[..] == buf;
    SwapRedBlue(pix, w, h);
  }

  /** ScreenshotWithRelease: the body is commented out and it returns no image and no error. */
  method ScreenshotWithRelease() returns (img: Option<seq<bv8>>, err: Option<string>)
    ensures img == None && err == None
  {
    return None, None;
  }
}

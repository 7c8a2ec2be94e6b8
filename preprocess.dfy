/**
 * RGBA raster to planar, normalised CHW tensor (src/utils/preprocess.ts).
 *
 * Base64 and JPEG decoding are not part of this model: the input is the raster
 * the JPEG decoder returns, four bytes (R, G, B, A) per pixel, row-major.
 * Tensor values are real numbers; the float32 rounding of the output buffer is
 * not modelled.
 */
module Preprocess {
  import opened Wrappers
  import opened Config

  newtype byte = x: int | 0 <= x < 256

  /** A decoded image as the JPEG decoder returns it. */
  datatype Raster = Raster(width: nat, height: nat, data: seq<byte>)
  {
    /** The decoder always yields four bytes per pixel. */
    predicate WellFormed()
    {
      |data| == 4 * width * height
    }
  }

  /** The only failure of this stage: the decoded image is not 224 x 224. */
  datatype ShapeError = ShapeError(width: nat, height: nat)

  /** Pixels per plane of the model input. */
  const PLANE_SIZE: nat := INPUT_SIDE * INPUT_SIDE

  /** Three per-channel means and three non-zero standard deviations. */
  predicate NormParams(mean: seq<real>, std: seq<real>)
  {
    |mean| == 3 && |std| == 3 && std[0] != 0.0 && std[1] != 0.0 && std[2] != 0.0
  }

  /** Scales one byte to [0, 1] and standardises it; nothing is clamped. */
  function Normalize(b: byte, mean: real, std: real): real
    requires std != 0.0
  {
    (b as real / 255.0 - mean) / std
  }

  /** Plane `c` of the tensor: channel `c` of every pixel, normalised. */
  function Plane(data: seq<byte>, size: nat, c: nat, mean: seq<real>, std: seq<real>): (r: seq<real>)
    requires c < 3 && |data| == 4 * size && NormParams(mean, std)
    ensures |r| == size
  {
    seq(size, i requires 0 <= i < size => Normalize(data[4 * i + c], mean[c], std[c]))
  }

  /** The whole tensor: the red plane, then the green plane, then the blue plane. */
  function Chw(data: seq<byte>, size: nat, mean: seq<real>, std: seq<real>): seq<real>
    requires |data| == 4 * size && NormParams(mean, std)
  {
    Plane(data, size, 0, mean, std) + Plane(data, size, 1, mean, std) + Plane(data, size, 2, mean, std)
  }

  /** Two rasters whose bytes agree at every position of channel `c`. */
  predicate SameChannel(data: seq<byte>, data': seq<byte>, c: nat)
  {
    |data| == |data'| && forall k :: 0 <= k < |data| && k % 4 == c ==> data[k] == data'[k]
  }

  /**
   * Checks the 224 x 224 shape, then fills the three planes in one pass over
   * the pixels. There is no channel-swap parameter: the order is always R, G, B.
   * The ghost `writes` counts, per output index, how often the loop stored to it.
   */
  method ChwFromRgba224(img: Raster, mean: seq<real>, std: seq<real>)
    returns (r: Result<array<real>, ShapeError>, ghost writes: seq<nat>)
    requires img.WellFormed()
    requires NormParams(mean, std)
    ensures r.Failure? <==> img.width != INPUT_SIDE || img.height != INPUT_SIDE
    ensures r.Failure? ==> r.error == ShapeError(img.width, img.height)
    ensures r.Success? ==> fresh(r.value) && r.value.Length == 150528
    ensures r.Success? ==> r.value[..] == Chw(img.data, PLANE_SIZE, mean, std)
    ensures r.Success? ==> |writes| == 150528 && forall k :: 0 <= k < |writes| ==> writes[k] == 1
  {
    writes := [];
    if img.width != INPUT_SIDE || img.height != INPUT_SIDE {
      return Failure(ShapeError(img.width, img.height)), writes;
    }
    var size := img.width * img.height;
    assert size == PLANE_SIZE;
    var out := new real[3 * size];
    ghost var red, green, blue := Plane(img.data, size, 0, mean, std),
                                  Plane(img.data, size, 1, mean, std),
                                  Plane(img.data, size, 2, mean, std);
    writes := seq(3 * size, _ => 0);
    var i := 0;
    while i < size
      invariant 0 <= i <= size
      invariant forall j :: 0 <= j < i ==> out[j] == red[j]
      invariant forall j :: 0 <= j < i ==> out[size + j] == green[j]
      invariant forall j :: 0 <= j < i ==> out[2 * size + j] == blue[j]
      invariant |writes| == 3 * size
      invariant forall k :: 0 <= k < 3 * size ==>
        writes[k] == (if k < i || size <= k < size + i || 2 * size <= k < 2 * size + i then 1 else 0)
    {
      var r := img.data[4 * i] as real / 255.0;
      var g := img.data[4 * i + 1] as real / 255.0;
      var b := img.data[4 * i + 2] as real / 255.0;
      out[0 * size + i] := (r - mean[0]) / std[0];
      out[1 * size + i] := (g - mean[1]) / std[1];
      out[2 * size + i] := (b - mean[2]) / std[2];
      writes := writes[i := writes[i] + 1][size + i := writes[size + i] + 1][2 * size + i := writes[2 * size + i] + 1];
      i := i + 1;
    }
    assert out[..] == red + green + blue;
    r := Success(out);
  }

  /** Entry `i` of each plane comes from byte `4i + c`: red first, then green, then blue. */
  lemma ChwEntries(data: seq<byte>, size: nat, mean: seq<real>, std: seq<real>, i: nat)
    requires |data| == 4 * size && NormParams(mean, std) && i < size
    ensures |Chw(data, size, mean, std)| == 3 * size
    ensures Chw(data, size, mean, std)[i] == Normalize(data[4 * i], mean[0], std[0])
    ensures Chw(data, size, mean, std)[size + i] == Normalize(data[4 * i + 1], mean[1], std[1])
    ensures Chw(data, size, mean, std)[2 * size + i] == Normalize(data[4 * i + 2], mean[2], std[2])
  {
  }

  /** Plane `c` reads nothing but channel `c`. */
  lemma {:induction false} PlaneDependsOnlyOnChannel(data: seq<byte>, data': seq<byte>, size: nat, c: nat, mean: seq<real>, std: seq<real>)
    requires c < 3 && |data| == 4 * size && NormParams(mean, std)
    requires SameChannel(data, data', c)
    ensures Plane(data, size, c, mean, std) == Plane(data', size, c, mean, std)
  {
    forall i | 0 <= i < size
      ensures data[4 * i + c] == data'[4 * i + c]
    {
      assert (4 * i + c) % 4 == c;
    }
  }

  /** The alpha byte of a pixel never reaches the tensor. */
  lemma AlphaIgnored(data: seq<byte>, data': seq<byte>, size: nat, mean: seq<real>, std: seq<real>)
    requires |data| == 4 * size && NormParams(mean, std)
    requires |data'| == |data| && forall k :: 0 <= k < |data| && k % 4 != 3 ==> data[k] == data'[k]
    ensures Chw(data, size, mean, std) == Chw(data', size, mean, std)
  {
    PlaneDependsOnlyOnChannel(data, data', size, 0, mean, std);
    PlaneDependsOnlyOnChannel(data, data', size, 1, mean, std);
    PlaneDependsOnlyOnChannel(data, data', size, 2, mean, std);
  }

  /** A channel with one byte value everywhere gives a constant plane, unclamped. */
  lemma {:induction false} UniformChannel(data: seq<byte>, size: nat, c: nat, v: byte, mean: seq<real>, std: seq<real>)
    requires c < 3 && |data| == 4 * size && NormParams(mean, std)
    requires forall k :: 0 <= k < |data| && k % 4 == c ==> data[k] == v
    ensures forall i :: 0 <= i < size ==> Plane(data, size, c, mean, std)[i] == Normalize(v, mean[c], std[c])
  {
    forall i | 0 <= i < size
      ensures data[4 * i + c] == v
    {
      assert (4 * i + c) % 4 == c;
    }
  }

  /** With the ImageNet parameters a black pixel maps below 0 and a white one above 1. */
  lemma NotClamped()
    ensures Normalize(0, IMAGENET_MEAN[0], IMAGENET_STD[0]) < 0.0
    ensures Normalize(255, IMAGENET_MEAN[0], IMAGENET_STD[0]) > 1.0
  {
  }
}

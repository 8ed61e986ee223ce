/**
 * `validate_wireframe_output`, the workflow test's acceptance check on a
 * processed image: the array must be three-dimensional, four-channel when
 * the configuration asks for RGBA, and must hold some colour. The
 * transparency ratio and the construction-line colours are only reported,
 * and an indexing error inside the validator counts as a failure.
 */
module Validator {
  import opened Common
  import Wireframe

  /** A numpy `uint8` array: its shape and its values in C order. */
  datatype NdImage = NdImage(shape: seq<nat>, data: seq<Byte>)
  {
    predicate Valid() { |data| == Product(shape) }
  }

  function Product(xs: seq<nat>): nat
  {
    if xs == [] then 1 else Product(xs[..|xs| - 1]) * xs[|xs| - 1]
  }

  /** The lines the validator prints, in order. */
  datatype Note =
    | WrongDimensions(dimensions: nat)
    | WrongChannels(channels: nat)
    | Transparency(low: bool, transparent: nat, total: nat)
    | AllBlack
    | ConstructionDetected
    | ConstructionNotDetected
    | ValidationError

  datatype Validation = Validation(ok: bool, notes: seq<Note>)

  predicate Is3D(img: NdImage)
  {
    img.Valid() && |img.shape| == 3
  }

  function Pixels(img: NdImage): nat
    requires Is3D(img)
  {
    img.shape[0] * img.shape[1]
  }

  function Channels(img: NdImage): nat
    requires Is3D(img)
  {
    img.shape[2]
  }

  lemma ProductOfThree(shape: seq<nat>)
    requires |shape| == 3
    ensures Product(shape) == shape[0] * shape[1] * shape[2]
  {
    var two, one := shape[..2], shape[..1];
    assert shape[..|shape| - 1] == two && two[..|two| - 1] == one && one[..|one| - 1] == [];
    assert Product(one) == shape[0];
    assert Product(two) == shape[0] * shape[1];
  }

  lemma IndexInBounds(p: nat, c: nat, n: nat, ch: nat)
    requires p < n && c < ch
    ensures p * ch + c < n * ch
  {
    assert p * ch + c < p * ch + ch == (p + 1) * ch;
    assert (p + 1) * ch <= n * ch;
  }

  /** `image[p // width, p % width, c]` for the flat pixel index `p`. */
  function At(img: NdImage, p: nat, c: nat): Byte
    requires Is3D(img) && p < Pixels(img) && c < Channels(img)
  {
    ProductOfThree(img.shape);
    IndexInBounds(p, c, Pixels(img), Channels(img));
    img.data[p * Channels(img) + c]
  }

  /** `np.any(image[p, :3] > 0)`: some colour channel of the pixel is not zero. */
  predicate HasColour(img: NdImage, p: nat)
    requires Is3D(img) && p < Pixels(img)
  {
    exists c :: 0 <= c < Min(3, Channels(img)) && At(img, p, c) > 0
  }

  /** `np.sum(np.any(image[:, :, :3] > 0, axis=2))` over the first `n` pixels. */
  function NonZeroCount(img: NdImage, n: nat): (count: nat)
    requires Is3D(img) && n <= Pixels(img)
    ensures count <= n
  {
    if n == 0 then 0 else NonZeroCount(img, n - 1) + (if HasColour(img, n - 1) then 1 else 0)
  }

  /** `np.sum(image[:, :, 3] == 0)` over the first `n` pixels. */
  function TransparentCount(img: NdImage, n: nat): (count: nat)
    requires Is3D(img) && Channels(img) == 4 && n <= Pixels(img)
    ensures count <= n
  {
    if n == 0 then 0 else TransparentCount(img, n - 1) + (if At(img, n - 1, 3) == 0 then 1 else 0)
  }

  /** `np.any(image[:, :, c] > 200)`. */
  predicate AnyAbove200(img: NdImage, c: nat)
    requires Is3D(img) && c < Channels(img)
  {
    exists p :: 0 <= p < Pixels(img) && At(img, p, c) > 200
  }

  /**
   * The transparency line: low when fewer than a tenth of the pixels are
   * transparent. With no pixels the ratio is NaN, which compares as not low.
   */
  function TransparencyNote(img: NdImage): (note: Note)
    requires Is3D(img) && Channels(img) == 4
    ensures note.Transparency? && note.total == Pixels(img)
    ensures note.low <==> Pixels(img) > 0 && 10 * note.transparent < Pixels(img)
  {
    var transparent := TransparentCount(img, Pixels(img));
    var total := Pixels(img);
    var low := total > 0 && (transparent as real) / (total as real) < 0.1;
    RatioBelowTenth(transparent, total);
    Transparency(low, transparent, total)
  }

  lemma RatioBelowTenth(part: nat, total: nat)
    ensures total > 0 ==> ((part as real) / (total as real) < 0.1 <==> 10 * part < total)
  {
    if total > 0 {
      var t, p := total as real, part as real;
      QuotientBelowTenth(p, t, p / t);
      assert (10 * part) as real == 10.0 * p;
    }
  }

  lemma QuotientBelowTenth(p: real, t: real, q: real)
    requires t > 0.0 && q == p / t
    ensures q < 0.1 <==> 10.0 * p < t
  {
    assert q * t == p;
    ScaleKeepsOrder(q, 0.1, t);
  }

  lemma ScaleKeepsOrder(a: real, b: real, t: real)
    requires t > 0.0
    ensures a < b <==> a * t < b * t
  {
    if a < b {
      PosProduct(b - a, t);
      assert (b - a) * t == b * t - a * t;
    } else {
      NonNegProduct(a - b, t);
      assert (a - b) * t == a * t - b * t;
    }
  }

  /** `validate_wireframe_output(image, config)`; the printed lines become `notes`. */
  function ValidateWireframeOutput(img: NdImage, config: Wireframe.WireframeConfig): (v: Validation)
    requires img.Valid()
    ensures |img.shape| != 3 ==> v == Validation(false, [WrongDimensions(|img.shape|)])
    ensures |img.shape| == 3 && config.outputFormat == "rgba" && img.shape[2] != 4
            ==> v == Validation(false, [WrongChannels(img.shape[2])])
  {
    if |img.shape| != 3 then Validation(false, [WrongDimensions(|img.shape|)])
    else if config.outputFormat == "rgba" && Channels(img) != 4 then Validation(false, [WrongChannels(Channels(img))])
    else
      var transparency := if config.outputFormat == "rgba" then [TransparencyNote(img)] else [];
      if NonZeroCount(img, Pixels(img)) == 0 then Validation(false, transparency + [AllBlack])
      else if !config.enableConstructionLines then Validation(true, transparency)
      // `image[:, :, 1]` or `image[:, :, 2]` raises IndexError below three channels.
      else if Channels(img) < 3 then Validation(false, transparency + [ValidationError])
      else
        var detected := AnyAbove200(img, 0) || AnyAbove200(img, 1) || AnyAbove200(img, 2);
        Validation(true, transparency + [if detected then ConstructionDetected else ConstructionNotDetected])
  }

  /**
   * What the validator accepts, stated without the transparency ratio and the
   * construction colours: a three-dimensional array, four channels when RGBA
   * is configured, some pixel with colour, and three channels to inspect when
   * construction lines are enabled.
   */
  predicate Acceptable(img: NdImage, config: Wireframe.WireframeConfig)
    requires img.Valid()
  {
    && |img.shape| == 3
    && (config.outputFormat == "rgba" ==> Channels(img) == 4)
    && (exists p :: 0 <= p < Pixels(img) && HasColour(img, p))
    && (config.enableConstructionLines ==> Channels(img) >= 3)
  }

  lemma {:induction false} NonZeroCountZero(img: NdImage, n: nat)
    requires Is3D(img) && n <= Pixels(img)
    ensures NonZeroCount(img, n) == 0 <==> forall p :: 0 <= p < n ==> !HasColour(img, p)
  {
    if n > 0 {
      NonZeroCountZero(img, n - 1);
    }
  }

  /**
   * The result is decided by `Acceptable` alone: neither the transparency
   * ratio nor the construction-line colours change it.
   */
  lemma ValidationAccepts(img: NdImage, config: Wireframe.WireframeConfig)
    requires img.Valid()
    ensures ValidateWireframeOutput(img, config).ok <==> Acceptable(img, config)
  {
    if |img.shape| == 3 {
      NonZeroCountZero(img, Pixels(img));
    }
  }

  /** An image whose colour channels are all zero is rejected, with the all-black line last. */
  lemma AllBlackRejected(img: NdImage, config: Wireframe.WireframeConfig)
    requires Is3D(img) && !(config.outputFormat == "rgba" && Channels(img) != 4)
    requires forall p, c :: 0 <= p < Pixels(img) && 0 <= c < Min(3, Channels(img)) ==> At(img, p, c) == 0
    ensures var v := ValidateWireframeOutput(img, config);
      !v.ok && v.notes[|v.notes| - 1] == AllBlack
  {
    NonZeroCountZero(img, Pixels(img));
  }

  /** A low transparency ratio is reported but does not fail an otherwise acceptable image. */
  lemma LowTransparencyOnlyWarns(img: NdImage, config: Wireframe.WireframeConfig)
    requires img.Valid() && Acceptable(img, config) && config.outputFormat == "rgba"
    ensures var v := ValidateWireframeOutput(img, config);
      v.ok && v.notes[0] == TransparencyNote(img)
  {
    ValidationAccepts(img, config);
  }
}

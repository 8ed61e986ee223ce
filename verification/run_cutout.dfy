/**
 * The BiRefNet cutout tool: a soft foreground mask from the segmentation
 * network becomes an 8-bit alpha channel, optionally restricted to the
 * largest connected component and feathered; the foreground image carries
 * that alpha and the background image its complement. Around it sit the
 * execution-provider ordering, the output naming and the batch loop. The
 * network, the resizes, the component labelling and the blur are inputs.
 */
module Cutout {
  import opened Common

  // ---------------------------------------------------------------------------
  // Mask and alpha

  function Clip01(x: real): (y: real)
    ensures 0.0 <= y <= 1.0
    ensures 0.0 <= x <= 1.0 ==> y == x
    ensures x < 0.0 ==> y == 0.0
    ensures x > 1.0 ==> y == 1.0
  {
    MinR(1.0, MaxR(0.0, x))
  }

  /** `predict_mask`: the network output, resized back by the caller, clipped into `[0, 1]` pixel by pixel. */
  function PredictMask(resized: seq<real>): (mask: seq<real>)
    ensures |mask| == |resized|
    ensures forall k :: 0 <= k < |mask| ==> mask[k] == Clip01(resized[k])
  {
    seq(|resized|, k requires 0 <= k < |resized| => Clip01(resized[k]))
  }

  predicate IsUnitMask(mask: seq<real>)
  {
    forall k :: 0 <= k < |mask| ==> 0.0 <= mask[k] <= 1.0
  }

  lemma PredictedMaskIsUnit(resized: seq<real>)
    ensures IsUnitMask(PredictMask(resized))
  {
  }

  /** `(mask01 * 255.0).astype(np.uint8)` for a mask value in `[0, 1]`. */
  function AlphaOf(m: real): (a: Byte)
    requires 0.0 <= m <= 1.0
    ensures a == Trunc(m * 255.0)
    ensures m == 1.0 ==> a == 255
    ensures m == 0.0 ==> a == 0
  {
    FractionOfSize(m, 255);
    TruncMonotone(m * 255.0, 255.0);
    TruncOfInt(255);
    Trunc(m * 255.0)
  }

  /** More mask means more alpha. */
  lemma AlphaMonotone(m: real, n: real)
    requires 0.0 <= m <= n <= 1.0
    ensures AlphaOf(m) <= AlphaOf(n)
  {
    assert m * 255.0 <= n * 255.0;
    TruncMonotone(m * 255.0, n * 255.0);
  }

  /** The library operations the cutout relies on, per pixel. */
  datatype CutoutLibrary = CutoutLibrary(
    /** `cv2.connectedComponents` of a binary image: the label count, background included. */
    componentCount: (seq<Byte>, nat, nat) -> nat,
    /** ... and the label of pixel `k`. */
    componentLabel: (seq<Byte>, nat, nat, nat) -> nat,
    /** `cv2.GaussianBlur` with a square kernel of the given size: pixel `k`. */
    gaussianBlur: (seq<Byte>, nat, nat, nat, nat) -> Byte)

  /** `cv2.threshold(alpha, 0, 255, THRESH_BINARY)`: 255 where alpha is positive. */
  function Binarised(alpha: seq<Byte>): (b: seq<Byte>)
    ensures |b| == |alpha|
    ensures forall k :: 0 <= k < |b| ==> (b[k] == 255 <==> alpha[k] > 0) && (b[k] == 0 <==> alpha[k] == 0)
  {
    seq(|alpha|, k requires 0 <= k < |alpha| => if alpha[k] > 0 then 255 else 0)
  }

  function HasLabel(id: nat): nat -> bool
  {
    (l: nat) => l == id
  }

  /** The pixel count of each non-background label `1 .. num - 1`. */
  function ComponentAreas(labels: seq<nat>, num: nat): (areas: seq<real>)
    ensures |areas| == if num >= 1 then num - 1 else 0
    ensures forall i :: 0 <= i < |areas| ==> areas[i] == Count(labels, HasLabel(i + 1)) as real
  {
    var n := if num >= 1 then num - 1 else 0;
    seq(n, i requires 0 <= i < n => Count(labels, HasLabel(i + 1)) as real)
  }

  /** `1 + argmax(areas)`: the largest component, the lowest label on ties. */
  function LargestLabel(labels: seq<nat>, num: nat): (keep: nat)
    requires num > 2
    ensures 1 <= keep < num
    ensures forall i :: 1 <= i < num ==> Count(labels, HasLabel(i)) <= Count(labels, HasLabel(keep))
    ensures forall i :: 1 <= i < keep ==> Count(labels, HasLabel(i)) < Count(labels, HasLabel(keep))
  {
    var areas := ComponentAreas(labels, num);
    var j := ArgMaxFirst(areas);
    LargestArea(labels, num, j);
    1 + j
  }

  /** A position of a largest area, first on ties, names a largest label, lowest on ties. */
  lemma LargestArea(labels: seq<nat>, num: nat, j: nat)
    requires num > 2
    requires var areas := ComponentAreas(labels, num);
      && j < |areas|
      && (forall i :: 0 <= i < |areas| ==> areas[i] <= areas[j])
      && (forall i :: 0 <= i < j ==> areas[i] < areas[j])
    ensures forall i :: 1 <= i < num ==> Count(labels, HasLabel(i)) <= Count(labels, HasLabel(1 + j))
    ensures forall i :: 1 <= i < 1 + j ==> Count(labels, HasLabel(i)) < Count(labels, HasLabel(1 + j))
  {
    var areas := ComponentAreas(labels, num);
    assert areas[j] == Count(labels, HasLabel(1 + j)) as real;
    forall i | 1 <= i < num
      ensures Count(labels, HasLabel(i)) <= Count(labels, HasLabel(1 + j))
      ensures i < 1 + j ==> Count(labels, HasLabel(i)) < Count(labels, HasLabel(1 + j))
    {
      assert areas[i - 1] == Count(labels, HasLabel(i)) as real;
    }
  }

  function Labels(lib: CutoutLibrary, binary: seq<Byte>, height: nat, width: nat): (labels: seq<nat>)
    ensures |labels| == |binary|
  {
    seq<nat>(|binary|, k requires 0 <= k < |binary| => lib.componentLabel(binary, height, width, k))
  }

  /** Alpha after the largest-component rule: kept only on the largest component when there are two or more. */
  function LargestComponentAlpha(lib: CutoutLibrary, alpha: seq<Byte>, height: nat, width: nat): (out: seq<Byte>)
    ensures |out| == |alpha|
  {
    var binary := Binarised(alpha);
    var num := lib.componentCount(binary, height, width);
    if num > 2 then
      var labels := Labels(lib, binary, height, width);
      var keep := LargestLabel(labels, num);
      seq(|alpha|, k requires 0 <= k < |alpha| => if labels[k] == keep then alpha[k] else 0)
    else alpha
  }

  /** `feather and feather > 0 and feather % 2 == 1` */
  predicate FeatherApplies(feather: int)
  {
    feather > 0 && feather % 2 == 1
  }

  /** The alpha channel `create_fg_bg_images` ends with. */
  function FinalAlpha(lib: CutoutLibrary, mask: seq<real>, height: nat, width: nat, keepLargest: bool, feather: int)
    : (alpha: seq<Byte>)
    requires IsUnitMask(mask)
    ensures |alpha| == |mask|
  {
    var raw := seq(|mask|, k requires 0 <= k < |mask| => AlphaOf(mask[k]));
    var kept := if keepLargest then LargestComponentAlpha(lib, raw, height, width) else raw;
    if FeatherApplies(feather) then
      seq<Byte>(|kept|, k requires 0 <= k < |kept| => lib.gaussianBlur(kept, height, width, feather, k))
    else kept
  }

  /** Without the component rule and feathering, alpha is the mask scaled to bytes. */
  lemma PlainAlpha(lib: CutoutLibrary, mask: seq<real>, height: nat, width: nat, feather: int)
    requires IsUnitMask(mask)
    requires !FeatherApplies(feather)
    ensures forall k :: 0 <= k < |mask| ==>
      FinalAlpha(lib, mask, height, width, false, feather)[k] == Trunc(mask[k] * 255.0)
  {
  }

  /**
   * With more than one foreground component and no feathering, every pixel off
   * the largest component is fully transparent in the foreground; on it the
   * mask's alpha is kept.
   */
  lemma OnlyLargestComponentKept(lib: CutoutLibrary, mask: seq<real>, height: nat, width: nat, feather: int)
    requires IsUnitMask(mask)
    requires !FeatherApplies(feather)
    ensures var raw := seq(|mask|, k requires 0 <= k < |mask| => AlphaOf(mask[k]));
      var binary := Binarised(raw);
      var num := lib.componentCount(binary, height, width);
      num > 2 ==>
        var keep := LargestLabel(Labels(lib, binary, height, width), num);
        forall k :: 0 <= k < |mask| ==>
          FinalAlpha(lib, mask, height, width, true, feather)[k]
          == (if lib.componentLabel(binary, height, width, k) == keep then AlphaOf(mask[k]) else 0)
  {
  }

  /** One foreground component or none: the rule changes nothing. */
  lemma SingleComponentUntouched(lib: CutoutLibrary, alpha: seq<Byte>, height: nat, width: nat)
    requires lib.componentCount(Binarised(alpha), height, width) <= 2
    ensures LargestComponentAlpha(lib, alpha, height, width) == alpha
  {
  }

  /** The foreground pixel: the image colour under the alpha. */
  function Foreground(p: Rgb, alpha: Byte): Rgba
  {
    Rgba(p.r, p.g, p.b, alpha)
  }

  /** The background pixel: the same colour under the complementary alpha. */
  function Background(p: Rgb, alpha: Byte): (q: Rgba)
    ensures q.a + alpha == 255
  {
    Rgba(p.r, p.g, p.b, 255 - alpha)
  }

  /**
   * `create_fg_bg_images`: the alpha channel as the rules above leave it, then
   * two RGBA buffers filled pixel by pixel from the same colours.
   */
  method CreateFgBgImages(lib: CutoutLibrary, image: seq<Rgb>, mask: seq<real>, height: nat, width: nat,
                          keepLargest: bool, feather: int)
    returns (fg: array<Rgba>, bg: array<Rgba>)
    requires |image| == |mask| == height * width
    requires IsUnitMask(mask)
    ensures fg.Length == bg.Length == height * width
    ensures forall k :: 0 <= k < fg.Length ==>
      var alpha := FinalAlpha(lib, mask, height, width, keepLargest, feather)[k];
      fg[k] == Foreground(image[k], alpha) && bg[k] == Background(image[k], alpha)
  {
    var alpha := AlphaChannel(lib, mask, height, width, keepLargest, feather);
    fg, bg := FillLayers(image, alpha);
  }

  /** The alpha steps of `create_fg_bg_images`: scale, the largest-component rule, feathering. */
  method AlphaChannel(lib: CutoutLibrary, mask: seq<real>, height: nat, width: nat, keepLargest: bool, feather: int)
    returns (alpha: seq<Byte>)
    requires IsUnitMask(mask)
    ensures alpha == FinalAlpha(lib, mask, height, width, keepLargest, feather)
  {
    alpha := seq(|mask|, k requires 0 <= k < |mask| => AlphaOf(mask[k]));
    if keepLargest {
      alpha := LargestComponentAlpha(lib, alpha, height, width);
    }
    if FeatherApplies(feather) {
      var kept := alpha;
      alpha := seq<Byte>(|kept|, k requires 0 <= k < |kept| => lib.gaussianBlur(kept, height, width, feather, k));
    }
  }

  /** The two RGBA buffers, filled pixel by pixel from the colours and the alpha channel. */
  method FillLayers(image: seq<Rgb>, alpha: seq<Byte>) returns (fg: array<Rgba>, bg: array<Rgba>)
    requires |image| == |alpha|
    ensures fg.Length == bg.Length == |image|
    ensures forall k :: 0 <= k < fg.Length ==> fg[k] == Foreground(image[k], alpha[k]) && bg[k] == Background(image[k], alpha[k])
  {
    fg := new Rgba[|image|];
    bg := new Rgba[|image|];
    var k := 0;
    while k < |image|
      invariant 0 <= k <= |image|
      invariant forall j :: 0 <= j < k ==> fg[j] == Foreground(image[j], alpha[j]) && bg[j] == Background(image[j], alpha[j])
    {
      fg[k] := Foreground(image[k], alpha[k]);
      bg[k] := Background(image[k], alpha[k]);
      k := k + 1;
    }
  }

  /** The two outputs share their colours and their alphas add up to 255 at every pixel. */
  lemma ForegroundBackgroundComplement(p: Rgb, alpha: Byte)
    ensures RgbOf(Foreground(p, alpha)) == RgbOf(Background(p, alpha)) == p
    ensures Foreground(p, alpha).a + Background(p, alpha).a == 255
  {
  }

  // ---------------------------------------------------------------------------
  // Execution providers

  const Cuda := "CUDAExecutionProvider"
  const Rocm := "ROCMExecutionProvider"
  const Cpu := "CPUExecutionProvider"

  /** The options dictionary paired with a provider. */
  datatype ProviderOptions =
    | GpuOptions(cudnnHeuristic: bool)
    | CpuOptions

  /** CUDA if available, else ROCm if available, then the CPU always. */
  function Providers(available: seq<string>): (providers: seq<string>)
  {
    (if Cuda in available then [Cuda] else if Rocm in available then [Rocm] else []) + [Cpu]
  }

  /** `make_session`'s provider and option lists, built by appending. */
  method MakeProviders(available: seq<string>) returns (providers: seq<string>, options: seq<ProviderOptions>)
    ensures providers == Providers(available)
    ensures |options| == |providers|
    ensures forall i :: 0 <= i < |providers| ==>
      options[i] == if providers[i] == Cpu then CpuOptions else GpuOptions(Cuda in available)
  {
    var gpuOptions := GpuOptions(false);
    if Cuda in available {
      gpuOptions := gpuOptions.(cudnnHeuristic := true);
    }
    providers := [];
    options := [];
    if Cuda in available {
      providers := providers + [Cuda];
      options := options + [gpuOptions];
    } else if Rocm in available {
      providers := providers + [Rocm];
      options := options + [gpuOptions];
    }
    providers := providers + [Cpu];
    options := options + [CpuOptions];
  }

  /** The CPU comes last, at most one GPU provider precedes it, and it is one the runtime offers. */
  lemma ProviderOrder(available: seq<string>)
    ensures var p := Providers(available);
      && 1 <= |p| <= 2 && p[|p| - 1] == Cpu
      && !(Cuda in p && Rocm in p)
      && (Cuda in available ==> p == [Cuda, Cpu])
      && (Cuda !in available && Rocm in available ==> p == [Rocm, Cpu])
      && (Cuda !in available && Rocm !in available ==> p == [Cpu])
  {
  }

  // ---------------------------------------------------------------------------
  // Output naming

  /** `s.rfind(c)`: the position of the last `c` in `s`, if any. */
  function LastIndex(s: string, c: char): (d: Option<nat>)
    ensures d.Some? ==> d.value < |s| && s[d.value] == c && c !in s[d.value + 1..]
    ensures d.None? ==> c !in s
  {
    if s == [] then None
    else if s[|s| - 1] == c then Some(|s| - 1)
    else
      var d := LastIndex(s[..|s| - 1], c);
      if d.Some? then
        assert s[d.value + 1..] == s[..|s| - 1][d.value + 1..] + [s[|s| - 1]];
        d
      else None
  }

  /** Characters other than `c` after the last `c` leave it the last one. */
  lemma {:induction false} LastIndexSkips(s: string, t: string, c: char)
    requires c !in t
    ensures LastIndex(s + t, c) == LastIndex(s, c)
  {
    if t == [] {
      assert s + t == s;
    } else {
      var init := t[..|t| - 1];
      LastIndexSkips(s, init, c);
      assert (s + t)[..|s + t| - 1] == s + init;
      assert t[|t| - 1] in t;
    }
  }

  /** `os.path.basename`: what follows the last slash. */
  function Basename(path: string): (name: string)
    ensures '/' !in name
    ensures |name| <= |path| && path[|path| - |name|..] == name
    ensures |name| < |path| ==> path[|path| - |name| - 1] == '/'
  {
    var i := LastIndex(path, '/');
    if i.Some? then path[i.value + 1..] else path
  }

  /** A name without slashes is the final component of any path it ends after a slash (or of itself). */
  lemma BasenameAfterSlash(prefix: string, name: string)
    requires '/' !in name
    requires prefix == [] || prefix[|prefix| - 1] == '/'
    ensures Basename(prefix + name) == name
  {
    LastIndexSkips(prefix, name, '/');
    if prefix == [] {
      assert prefix + name == name;
    } else {
      assert LastIndex(prefix, '/') == Some(|prefix| - 1);
      assert (prefix + name)[|prefix|..] == name;
    }
  }

  /** `os.path.splitext(name)[0]` for a name without slashes: cut at the last dot unless only dots precede it. */
  function StripExtension(name: string): (root: string)
    ensures root <= name
  {
    var d := LastIndex(name, '.');
    if d.Some? && exists j :: 0 <= j < d.value && name[j] != '.' then name[..d.value] else name
  }

  /** `os.path.join(directory, name)` for a relative name. */
  function PathJoin(directory: string, name: string): string
  {
    if directory == [] || directory[|directory| - 1] == '/' then directory + name else directory + "/" + name
  }

  function FgName(base: string): string { base + "_fg.png" }
  function BgName(base: string): string { base + "_bg.png" }

  /** `cutout_one`'s output paths. */
  function OutputPaths(imagePath: string, fgDir: string, bgDir: string): (paths: (string, string))
  {
    var base := StripExtension(Basename(imagePath));
    (PathJoin(fgDir, FgName(base)), PathJoin(bgDir, BgName(base)))
  }

  lemma JoinEndsWithName(directory: string, name: string)
    ensures var p := PathJoin(directory, name); EndsWith(p, name)
  {
  }

  /**
   * Both outputs are named after the input file without its extension; the
   * foreground name ends in `_fg.png`, the background name in `_bg.png`, so
   * the two never collide even in one directory.
   */
  lemma OutputNames(imagePath: string, fgDir: string, bgDir: string)
    ensures var base := StripExtension(Basename(imagePath));
      && EndsWith(OutputPaths(imagePath, fgDir, bgDir).0, FgName(base))
      && EndsWith(OutputPaths(imagePath, fgDir, bgDir).1, BgName(base))
      && (fgDir == bgDir ==> OutputPaths(imagePath, fgDir, bgDir).0 != OutputPaths(imagePath, fgDir, bgDir).1)
  {
    SuffixedPaths(fgDir, bgDir, StripExtension(Basename(imagePath)));
  }

  lemma SuffixedPaths(fgDir: string, bgDir: string, base: string)
    ensures EndsWith(PathJoin(fgDir, FgName(base)), FgName(base))
    ensures EndsWith(PathJoin(bgDir, BgName(base)), BgName(base))
    ensures fgDir == bgDir ==> PathJoin(fgDir, FgName(base)) != PathJoin(bgDir, BgName(base))
  {
    var fg := PathJoin(fgDir, FgName(base));
    var bg := PathJoin(bgDir, BgName(base));
    JoinEndsWithName(fgDir, FgName(base));
    JoinEndsWithName(bgDir, BgName(base));
    assert fg[|fg| - 6] == FgName(base)[|base| + 1] == 'f';
    assert bg[|bg| - 6] == BgName(base)[|base| + 1] == 'b';
  }

  /** A plain `name.ext` loses exactly its extension. */
  lemma StripsExtension(stem: string, ext: string)
    requires stem != [] && stem[0] != '.' && '.' !in ext
    ensures StripExtension(stem + "." + ext) == stem
  {
    var name := stem + "." + ext;
    assert name[|stem|] == '.';
    assert name[|stem| + 1..] == ext;
    var d := LastIndex(name, '.');
    assert d == Some(|stem|);
    assert name[0] != '.';
    assert name[..|stem|] == stem;
  }

  // ---------------------------------------------------------------------------
  // Batch

  const ImageExtensions: seq<string> := [".jpg", ".jpeg", ".png", ".webp", ".bmp", ".tif", ".tiff"]

  /** `str.lower` on ASCII letters. */
  function LowerAscii(s: string): (t: string)
    ensures |t| == |s|
  {
    seq(|s|, i requires 0 <= i < |s| => if 'A' <= s[i] <= 'Z' then (s[i] as int + 32) as char else s[i])
  }

  predicate EndsWith(s: string, suffix: string)
  {
    |suffix| <= |s| && s[|s| - |suffix|..] == suffix
  }

  function IsImageName(): string -> bool
  {
    (name: string) => exists e :: e in ImageExtensions && EndsWith(LowerAscii(name), e)
  }

  /** The names `cutout_batch` processes, in directory order. */
  function SelectedNames(names: seq<string>): (selected: seq<string>)
    ensures |selected| <= |names|
  {
    Filter(names, IsImageName())
  }

  /**
   * `cutout_batch`: one attempt per selected name; `succeeds` says which
   * attempts return without raising.
   */
  method CutoutBatch(names: seq<string>, succeeds: string -> bool) returns (successCount: nat)
    ensures successCount == Count(SelectedNames(names), succeeds)
    ensures successCount <= |SelectedNames(names)|
  {
    var selected := SelectedNames(names);
    successCount := 0;
    var i := 0;
    while i < |selected|
      invariant 0 <= i <= |selected|
      invariant successCount == Count(selected[..i], succeeds)
    {
      assert selected[..i + 1][..i] == selected[..i];
      if succeeds(selected[i]) {
        successCount := successCount + 1;
      }
      i := i + 1;
    }
    assert selected[..i] == selected;
  }

  /** Upper-case extensions are accepted too. */
  lemma UpperCaseSelected(stem: string)
    ensures IsImageName()(stem + ".PNG")
  {
    var name := stem + ".PNG";
    var lower := LowerAscii(name);
    assert lower[|lower| - 4..] == ".png";
    assert ".png" in ImageExtensions;
  }
}

/**
 * The portrait outline generator: for each `*_fg.png` foreground produced by
 * the cutout tool, outline and construction images named after the input,
 * and optionally a small SVG document written by string concatenation. The
 * face guide, edge and contour stages and the image files are inputs.
 */
module OutlineGenerator {
  import opened Common
  import opened PathData
  import opened Sorting
  import Cutout
  import FaceGuide

  // ---------------------------------------------------------------------------
  // Input files

  /** Python's `str` comparison: code point by code point, a proper prefix first. */
  predicate StringLe(a: string, b: string)
  {
    a == [] || (b != [] && (a[0] < b[0] || (a[0] == b[0] && StringLe(a[1..], b[1..]))))
  }

  lemma {:induction false} StringLeTotal(a: string, b: string)
    ensures StringLe(a, b) || StringLe(b, a)
  {
    if a != [] && b != [] && a[0] == b[0] {
      StringLeTotal(a[1..], b[1..]);
    }
  }

  lemma {:induction false} StringLeTransitive(a: string, b: string, c: string)
    requires StringLe(a, b) && StringLe(b, c)
    ensures StringLe(a, c)
  {
    if a != [] && b != [] && c != [] && a[0] == b[0] && b[0] == c[0] {
      StringLeTransitive(a[1..], b[1..], c[1..]);
    }
  }

  function StringOrder(): (string, string) -> bool
  {
    (a: string, b: string) => StringLe(a, b)
  }

  lemma StringOrderIsTotalPreorder()
    ensures TotalPreorder(StringOrder())
  {
    forall a, b ensures StringOrder()(a, b) || StringOrder()(b, a) {
      StringLeTotal(a, b);
    }
    forall a, b, c | StringOrder()(a, b) && StringOrder()(b, c) ensures StringOrder()(a, c) {
      StringLeTransitive(a, b, c);
    }
  }

  function IsForegroundName(): string -> bool
  {
    (name: string) => Cutout.EndsWith(name, "_fg.png")
  }

  /**
   * `get_foreground_files`: nothing (the `FileNotFoundError`) for a missing
   * directory, else the entries matching `*_fg.png` in sorted order.
   */
  function GetForegroundFiles(directoryExists: bool, entries: seq<string>): (files: Option<seq<string>>)
    ensures files.None? <==> !directoryExists
  {
    if !directoryExists then None
    else Some(SortStable(Filter(entries, IsForegroundName()), StringOrder()))
  }

  /** The files are exactly the matching entries, each as often as listed, in ascending order. */
  lemma ForegroundFilesSortedMatches(entries: seq<string>)
    ensures var files := GetForegroundFiles(true, entries).value;
      && multiset(files) == multiset(Filter(entries, IsForegroundName()))
      && (forall i, j :: 0 <= i < j < |files| ==> StringLe(files[i], files[j]))
      && (forall f :: f in files ==> Cutout.EndsWith(f, "_fg.png"))
  {
    var matching := Filter(entries, IsForegroundName());
    StringOrderIsTotalPreorder();
    SortStableSorted(matching, StringOrder());
    SortStablePermutation(matching, StringOrder());
    var files := GetForegroundFiles(true, entries).value;
    forall f | f in files ensures Cutout.EndsWith(f, "_fg.png") {
      assert f in multiset(files);
      FilterMembership(entries, IsForegroundName(), f);
    }
  }

  // ---------------------------------------------------------------------------
  // Base names

  /** `Path(p).stem`: the final component without its suffix; a leading or trailing dot is no suffix. */
  function Stem(path: string): string
  {
    NameStem(Cutout.Basename(path))
  }

  /** `PurePath.stem` of a final component. */
  function NameStem(name: string): string
  {
    var d := Cutout.LastIndex(name, '.');
    if d.Some? && 0 < d.value < |name| - 1 then name[..d.value] else name
  }

  /** `s.replace("_fg", "")`: every occurrence, scanning left to right. */
  function RemoveAllFg(s: string): (r: string)
    ensures |r| <= |s|
  {
    if |s| >= 3 && s[..3] == "_fg" then RemoveAllFg(s[3..])
    else if s == [] then []
    else [s[0]] + RemoveAllFg(s[1..])
  }

  /** Line 63 as written: the stem with every `_fg` removed. */
  function BaseNameAsWritten(path: string): string
  {
    RemoveAllFg(Stem(path))
  }

  /** The intended base name: the stem with the one `_fg` the cutout tool appended removed from its end. */
  function BaseName(path: string): string
  {
    WithoutFgSuffix(Stem(path))
  }

  /** A stem without the trailing `_fg`, if it has one. */
  function WithoutFgSuffix(stem: string): (base: string)
    ensures base <= stem
    ensures Cutout.EndsWith(stem, "_fg") ==> stem == base + "_fg"
    ensures !Cutout.EndsWith(stem, "_fg") ==> stem == base
  {
    if Cutout.EndsWith(stem, "_fg") then stem[..|stem| - 3] else stem
  }

  lemma WithoutFgSuffixOf(base: string)
    ensures WithoutFgSuffix(base + "_fg") == base
  {
    var stem := base + "_fg";
    assert stem[|stem| - 3..] == "_fg";
    assert stem[..|stem| - 3] == base;
  }

  lemma BasenameOfJoin(directory: string, name: string)
    requires '/' !in name
    ensures Cutout.Basename(Cutout.PathJoin(directory, name)) == name
  {
    if directory == [] || directory[|directory| - 1] == '/' {
      Cutout.BasenameAfterSlash(directory, name);
    } else {
      var withSlash := directory + "/";
      Cutout.BasenameAfterSlash(withSlash, name);
    }
  }

  /** The stem of `{base}_fg.png` is `{base}_fg`. */
  lemma StemOfForegroundName(base: string)
    ensures NameStem(Cutout.FgName(base)) == base + "_fg"
  {
    var name := Cutout.FgName(base);
    var head := base + "_fg.";
    assert name == head + "png";
    Cutout.LastIndexSkips(head, "png", '.');
    assert Cutout.LastIndex(head, '.') == Some(|base| + 3);
    assert name[..|base| + 3] == base + "_fg";
  }

  /** The stem of `{directory}/{base}_fg.png` is `{base}_fg`. */
  lemma ForegroundStem(directory: string, base: string)
    requires '/' !in base
    ensures Stem(Cutout.PathJoin(directory, Cutout.FgName(base))) == base + "_fg"
  {
    var name := Cutout.FgName(base);
    assert '/' !in name by {
      assert name == base + "_fg.png";
    }
    BasenameOfJoin(directory, name);
    StemOfForegroundName(base);
  }

  /**
   * The corrected base name undoes the cutout tool's naming for every base
   * name: the outline files of `{base}_fg.png` are named after `{base}`.
   */
  lemma BaseNameRoundTrip(directory: string, base: string)
    requires '/' !in base
    ensures BaseName(Cutout.PathJoin(directory, Cutout.FgName(base))) == base
  {
    ForegroundStem(directory, base);
    WithoutFgSuffixOf(base);
  }

  /**
   * As written, two different cutouts collapse onto one base name: for
   * instance `a_fgb_fg.png` and `ab_fg.png` both become `ab`, so their
   * outline files overwrite each other.
   */
  lemma BaseNameAsWrittenCollides(directory: string, a: string, b: string)
    requires '_' !in a && '_' !in b && '/' !in a && '/' !in b
    ensures a + "_fg" + b != a + b
    ensures BaseNameAsWritten(Cutout.PathJoin(directory, Cutout.FgName(a + "_fg" + b))) == a + b
    ensures BaseNameAsWritten(Cutout.PathJoin(directory, Cutout.FgName(a + b))) == a + b
  {
    var withFg, plain := a + "_fg" + b, a + b;
    assert |withFg| == |plain| + 3;
    assert '/' !in withFg && '/' !in plain by {
      assert forall c :: c in withFg ==> c in a || c in "_fg" || c in b;
      assert forall c :: c in plain ==> c in a || c in b;
    }
    AsWrittenOfForeground(directory, withFg);
    AsWrittenOfForeground(directory, plain);
    RemoveAllFgOfExample(a, b);
  }

  /** Line 63 on a cutout file: every `_fg` of `{base}_fg` removed. */
  lemma AsWrittenOfForeground(directory: string, base: string)
    requires '/' !in base
    ensures BaseNameAsWritten(Cutout.PathJoin(directory, Cutout.FgName(base))) == RemoveAllFg(base + "_fg")
  {
    ForegroundStem(directory, base);
  }

  lemma RemoveAllFgOfExample(a: string, b: string)
    requires '_' !in a && '_' !in b
    ensures RemoveAllFg(a + "_fg" + b + "_fg") == a + b
    ensures RemoveAllFg(a + b + "_fg") == a + b
  {
    assert a + "_fg" + b + "_fg" == a + ("_fg" + (b + "_fg"));
    RemoveAllFgKeepsPlainPrefix(a, "_fg" + (b + "_fg"));
    RemoveAllFgDropsLeadingFg(b + "_fg");
    RemoveAllFgKeepsPlainPrefix(b, "_fg");
    RemoveAllFgDropsLeadingFg([]);
    assert "_fg" + [] == "_fg";
    assert a + b + "_fg" == a + (b + "_fg");
    RemoveAllFgKeepsPlainPrefix(a, b + "_fg");
  }

  /** No occurrence can start inside a prefix without underscores. */
  lemma {:induction false} RemoveAllFgKeepsPlainPrefix(a: string, t: string)
    requires '_' !in a
    ensures RemoveAllFg(a + t) == a + RemoveAllFg(t)
    decreases |a|
  {
    if a != [] {
      var s := a + t;
      assert s[0] == a[0] && a[0] in a;
      assert |s| >= 3 ==> s[..3][0] != "_fg"[0];
      assert s[1..] == a[1..] + t;
      RemoveAllFgKeepsPlainPrefix(a[1..], t);
    } else {
      assert a + t == t;
    }
  }

  lemma RemoveAllFgDropsLeadingFg(t: string)
    ensures RemoveAllFg("_fg" + t) == RemoveAllFg(t)
  {
    var s := "_fg" + t;
    assert s[..3] == "_fg";
    assert s[3..] == t;
  }

  /** `s` has an occurrence of `_fg`. */
  predicate ContainsFg(s: string)
  {
    |s| >= 3 && (s[..3] == "_fg" || ContainsFg(s[1..]))
  }

  /** For bases without `_fg` the line as written and the corrected one agree. */
  lemma AsWrittenAgreesOnPlainBases(directory: string, base: string)
    requires '/' !in base && !ContainsFg(base)
    ensures BaseNameAsWritten(Cutout.PathJoin(directory, Cutout.FgName(base))) == base
  {
    var name := Cutout.FgName(base);
    assert '/' !in name by {
      assert name == base + "_fg.png";
    }
    BasenameOfJoin(directory, name);
    StemOfForegroundName(base);
    RemoveAllFgAppendFg(base);
  }

  /** A name without `_fg` of its own, followed by the `_fg` suffix, loses exactly the suffix. */
  lemma {:induction false} RemoveAllFgAppendFg(s: string)
    requires !ContainsFg(s)
    ensures RemoveAllFg(s + "_fg") == s
  {
    var t := s + "_fg";
    if s == [] {
      assert t == "_fg";
      assert t[3..] == [];
    } else {
      assert t[1..] == s[1..] + "_fg";
      if |s| >= 3 {
        assert t[..3] == s[..3];
      } else if |s| == 2 {
        assert t[..3] == [s[0], s[1], '_'];
      } else {
        assert t[..3] == [s[0], '_', 'f'];
      }
      RemoveAllFgAppendFg(s[1..]);
    }
  }

  /** `{base_name}_outline.png`, `{base_name}_construction.png` and `{base_name}_outline.svg`. */
  function OutputNames(inputPath: string, outlineDir: string, constructionDir: string, vectorDir: string)
    : (names: (string, string, string))
  {
    var base := BaseName(inputPath);
    (Cutout.PathJoin(outlineDir, base + "_outline.png"),
     Cutout.PathJoin(constructionDir, base + "_construction.png"),
     Cutout.PathJoin(vectorDir, base + "_outline.svg"))
  }

  /** Different cutouts in one directory get different outline files. */
  lemma OutputNamesDistinct(directory: string, base1: string, base2: string, outlineDir: string)
    requires '/' !in base1 && '/' !in base2 && base1 != base2
    ensures BaseName(Cutout.PathJoin(directory, Cutout.FgName(base1)))
            != BaseName(Cutout.PathJoin(directory, Cutout.FgName(base2)))
  {
    BaseNameRoundTrip(directory, base1);
    BaseNameRoundTrip(directory, base2);
  }

  // ---------------------------------------------------------------------------
  // The SVG document

  /** The guide entries of `guide_data['guide_lines']`, each possibly absent. */
  datatype GuideEntries = GuideEntries(vertical: Option<FaceGuide.Line>, eyeLine: Option<FaceGuide.Line>)

  /** The guides `detect_face_features` produces always hold both lines. */
  function EntriesOf(d: FaceGuide.GuideData): (g: GuideEntries)
    ensures g.vertical.Some? && g.eyeLine.Some?
  {
    GuideEntries(Some(d.guides.vertical), Some(d.guides.eyeLine))
  }

  function Quoted(s: string): string { "\"" + s + "\"" }

  const XmlDeclaration := "<?xml" + " version=" + Quoted("1.0") + " encoding=" + Quoted("UTF-8") + "?>"

  function Header(width: int, height: int): string
  {
    XmlDeclaration + SvgOpen(width, height)
  }

  function SvgOpen(width: int, height: int): string
  {
    "\n<svg width=" + Quoted(IntToString(width))
    + " height=" + Quoted(IntToString(height)) + " xmlns=" + Quoted("http://" + "www.w3.org" + "/2000/svg") + ">\n"
  }

  const Footer := "</svg>"

  function PathElement(pathData: string): string
  {
    "  <path d=" + Quoted(pathData) + PathStyle()
  }

  /** The fixed attributes of every contour path. */
  function PathStyle(): string
  {
    " fill=" + Quoted("none") + " stroke=" + Quoted("black") + " stroke-width=" + Quoted("2")
    + " stroke-linejoin=" + Quoted("round") + " stroke-linecap=" + Quoted("round") + "/>\n"
  }

  /** The fixed attributes of every guide line. */
  function GuideStyle(): string
  {
    " stroke=" + Quoted("#AAAAAA") + " stroke-width=" + Quoted("1")
    + " stroke-dasharray=" + Quoted("5,5") + "/>\n"
  }

  function LineElement(l: FaceGuide.Line): string
  {
    "  <line x1=" + Quoted(IntToString(l.x1)) + " y1=" + Quoted(IntToString(l.y1))
    + " x2=" + Quoted(IntToString(l.x2)) + " y2=" + Quoted(IntToString(l.y2))
    + GuideStyle()
  }

  /** The closed comma-separated path of a contour: `M x,y`, ` L x,y` per later point, ` Z`. */
  function ClosedPathData(contour: seq<Point>): string
    requires |contour| >= 1
  {
    Serialize(Polyline(contour, true), Comma)
  }

  /** The path element a contour contributes: none for two points or fewer. */
  function ContourText(contour: seq<Point>): string
  {
    if |contour| > 2 then PathElement(ClosedPathData(contour)) else ""
  }

  function HasMoreThanTwoPoints(): seq<Point> -> bool
  {
    (c: seq<Point>) => |c| > 2
  }

  /** One path element per contour of more than two points, in contour order. */
  function ContourElements(contours: seq<seq<Point>>): (elements: seq<string>)
    ensures |elements| == Count(contours, HasMoreThanTwoPoints())
  {
    if contours == [] then []
    else
      var c := contours[|contours| - 1];
      ContourElements(contours[..|contours| - 1]) + (if |c| > 2 then [PathElement(ClosedPathData(c))] else [])
  }

  /** The guide lines present, vertical first. */
  function GuideElements(guides: GuideEntries): (elements: seq<string>)
    ensures |elements| == (if guides.vertical.Some? then 1 else 0) + (if guides.eyeLine.Some? then 1 else 0)
  {
    (if guides.vertical.Some? then [LineElement(guides.vertical.value)] else [])
    + (if guides.eyeLine.Some? then [LineElement(guides.eyeLine.value)] else [])
  }

  function Concat(parts: seq<string>): string
  {
    if parts == [] then "" else Concat(parts[..|parts| - 1]) + parts[|parts| - 1]
  }

  lemma {:induction false} ConcatAppend(xs: seq<string>, ys: seq<string>)
    ensures Concat(xs + ys) == Concat(xs) + Concat(ys)
  {
    if ys != [] {
      ConcatAppend(xs, ys[..|ys| - 1]);
      assert (xs + ys)[..|xs + ys| - 1] == xs + ys[..|ys| - 1];
    } else {
      assert xs + ys == xs;
    }
  }

  /** The whole document: header, contour paths, guide lines, closing tag. */
  function OutlineDocument(contours: seq<seq<Point>>, guides: GuideEntries, width: int, height: int): string
  {
    Header(width, height) + Body(contours, guides) + Footer
  }

  /** The path elements followed by the guide line elements. */
  function Body(contours: seq<seq<Point>>, guides: GuideEntries): string
  {
    Concat(ContourElements(contours)) + Concat(GuideElements(guides))
  }

  lemma ConcatSnoc(parts: seq<string>, last: string)
    ensures Concat(parts + [last]) == Concat(parts) + last
  {
    assert (parts + [last])[..|parts|] == parts;
  }

  /** The closed path text, built as the source builds it. */
  method ClosedPath(contour: seq<Point>) returns (pathData: string)
    requires |contour| >= 1
    ensures pathData == ClosedPathData(contour)
  {
    pathData := OpenPathData(contour, Comma);
    PathDataClose(contour, Comma);
    pathData := pathData + " Z";
  }

  lemma ContourElementsStep(contours: seq<seq<Point>>, i: nat)
    requires i < |contours|
    ensures Concat(ContourElements(contours[..i + 1])) == Concat(ContourElements(contours[..i])) + ContourText(contours[i])
  {
    var prefix := contours[..i + 1];
    assert prefix[..i] == contours[..i];
    assert prefix[i] == contours[i];
    if |contours[i]| > 2 {
      ConcatSnoc(ContourElements(contours[..i]), PathElement(ClosedPathData(contours[i])));
    } else {
      assert ContourElements(prefix) == ContourElements(contours[..i]);
    }
  }

  /** The contour loop: one closed path element per contour of more than two points. */
  method ContourPathsText(contours: seq<seq<Point>>) returns (text: string)
    ensures text == Concat(ContourElements(contours))
  {
    text := "";
    var i := 0;
    while i < |contours|
      invariant 0 <= i <= |contours|
      invariant text == Concat(ContourElements(contours[..i]))
    {
      ContourElementsStep(contours, i);
      text := AppendContour(text, contours[i]);
      i := i + 1;
    }
    assert contours[..i] == contours;
  }

  /** One pass of the contour loop: the closed path element when the contour has more than two points. */
  method AppendContour(text: string, contour: seq<Point>) returns (extended: string)
    ensures extended == text + ContourText(contour)
  {
    extended := text;
    if |contour| > 2 {
      var pathData := ClosedPath(contour);
      extended := extended + PathElement(pathData);
    } else {
      assert text + "" == text;
    }
  }

  /** The two guide-line blocks: the vertical line, then the eye line, each when present. */
  method GuideLinesText(guides: GuideEntries) returns (lines: string)
    ensures lines == Concat(GuideElements(guides))
  {
    lines := "";
    if guides.vertical.Some? {
      lines := lines + LineElement(guides.vertical.value);
    }
    if guides.eyeLine.Some? {
      lines := lines + LineElement(guides.eyeLine.value);
    }
    GuideText(guides);
  }

  lemma GuideText(guides: GuideEntries)
    ensures Concat(GuideElements(guides))
      == (if guides.vertical.Some? then LineElement(guides.vertical.value) else "")
         + (if guides.eyeLine.Some? then LineElement(guides.eyeLine.value) else "")
  {
    var elements := GuideElements(guides);
    var v := if guides.vertical.Some? then [LineElement(guides.vertical.value)] else [];
    var e := if guides.eyeLine.Some? then [LineElement(guides.eyeLine.value)] else [];
    assert elements == v + e;
    ConcatAppend(v, e);
    ConcatOne(v);
    ConcatOne(e);
  }

  lemma ConcatOne(parts: seq<string>)
    requires |parts| <= 1
    ensures Concat(parts) == if parts == [] then "" else parts[0]
  {
    if parts != [] {
      assert parts[..0] == [];
    }
  }

  /** `generate_svg_outline`'s string building, without the file write. */
  method GenerateSvgOutline(contours: seq<seq<Point>>, guides: GuideEntries, width: int, height: int)
    returns (svgContent: string)
    ensures svgContent == OutlineDocument(contours, guides, width, height)
  {
    svgContent := Header(width, height);
    var paths := ContourPathsText(contours);
    svgContent := svgContent + paths;
    var lines := GuideLinesText(guides);
    svgContent := svgContent + lines + Footer;
    Regroup(Header(width, height), paths, lines, Footer);
  }

  /** The document opens with the sized `<svg>` header and ends with `</svg>`. */
  lemma DocumentFrame(contours: seq<seq<Point>>, guides: GuideEntries, width: int, height: int)
    ensures var doc := OutlineDocument(contours, guides, width, height);
      var head := Header(width, height);
      && |head| + |Footer| <= |doc|
      && doc[..|head|] == head
      && doc[|doc| - |Footer|..] == Footer
  {
    PrefixAndSuffix(Header(width, height), Body(contours, guides), Footer);
  }

  /** The header starts with the XML declaration. */
  lemma HeaderStartsWithDeclaration(width: int, height: int)
    ensures var head := Header(width, height);
      |XmlDeclaration| <= |head| && head[..|XmlDeclaration|] == XmlDeclaration
  {
    PrefixAndSuffix(XmlDeclaration, SvgOpen(width, height), "");
  }

  lemma Regroup(a: string, b: string, c: string, d: string)
    ensures a + b + c + d == a + (b + c) + d
  {
  }

  lemma PrefixAndSuffix(a: string, b: string, c: string)
    ensures var s := a + b + c;
      |a| + |c| <= |s| && s[..|a|] == a && s[|s| - |c|..] == c
  {
  }

  /**
   * Each path element comes from a contour of more than two points, and its
   * path text reads back as that contour, closed.
   */
  lemma {:induction false} ContourElementsFromContours(contours: seq<seq<Point>>, j: nat)
    requires j < |ContourElements(contours)|
    ensures exists i :: (0 <= i < |contours| && |contours[i]| > 2
      && ContourElements(contours)[j] == PathElement(ClosedPathData(contours[i]))
      && Parse(ClosedPathData(contours[i]), Comma) == Some(Polyline(contours[i], true)))
  {
    var n := |contours| - 1;
    var before := ContourElements(contours[..n]);
    if j < |before| {
      ContourElementsFromContours(contours[..n], j);
      var i :| 0 <= i < n && |contours[..n][i]| > 2
        && before[j] == PathElement(ClosedPathData(contours[..n][i]))
        && Parse(ClosedPathData(contours[..n][i]), Comma) == Some(Polyline(contours[..n][i], true));
      assert contours[..n][i] == contours[i];
    } else {
      ParseSerialize(Polyline(contours[n], true), Comma);
    }
  }

  /** Guides from the face guide stage always give both dashed lines, vertical before eye line. */
  lemma GuidesFromFaceGuide(d: FaceGuide.GuideData)
    ensures GuideElements(EntriesOf(d)) == [LineElement(d.guides.vertical), LineElement(d.guides.eyeLine)]
  {
  }

  // ---------------------------------------------------------------------------
  // The run

  /**
   * `main`'s loop: one `process_single_image` per file; `succeeds` says which
   * return True (any exception inside makes it return False).
   */
  method ProcessAll(files: seq<string>, succeeds: string -> bool) returns (successCount: nat)
    ensures successCount == Count(files, succeeds)
    ensures successCount <= |files|
  {
    successCount := 0;
    var i := 0;
    while i < |files|
      invariant 0 <= i <= |files|
      invariant successCount == Count(files[..i], succeeds)
    {
      assert files[..i + 1][..i] == files[..i];
      if succeeds(files[i]) {
        successCount := successCount + 1;
      }
      i := i + 1;
    }
    assert files[..i] == files;
  }
}

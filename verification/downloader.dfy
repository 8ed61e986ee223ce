/**
 * The pure helpers of the Art Institute of Chicago portrait downloader: the
 * file-name sanitiser, the search request body, the IIIF image address, the
 * list coercion of metadata fields and the Markdown curator card. JSON values
 * are modelled as the Python values `json` decodes them to.
 */
module Downloader {
  import opened Common
  import Cutout

  // ---------------------------------------------------------------------------
  // File names

  /** The characters `sanitize_filename` deletes. */
  const Bad: string := "\\/:*?\"<>|\n\r\t"

  /** `str.isspace` for one character: the characters `str.strip()` removes. */
  predicate IsSpace(c: char)
  {
    || '\t' <= c <= '\r' || '\U{1C}' <= c <= ' ' || c == '\U{85}' || c == '\U{A0}' || c == '\U{1680}'
    || '\U{2000}' <= c <= '\U{200A}' || c == '\U{2028}' || c == '\U{2029}' || c == '\U{202F}'
    || c == '\U{205F}' || c == '\U{3000}'
  }

  function IsSpaceFn(): char -> bool
  {
    (c: char) => IsSpace(c)
  }

  function NotBad(): char -> bool
  {
    (c: char) => c !in Bad
  }

  /** How many characters `drop` removes from the front of `s`. */
  function FrontRun(s: string, drop: char -> bool): (n: nat)
    ensures n <= |s|
    ensures forall k :: 0 <= k < n ==> drop(s[k])
    ensures n == |s| || !drop(s[n])
  {
    if s == [] || !drop(s[0]) then 0 else 1 + FrontRun(s[1..], drop)
  }

  /** Where the run of characters `drop` removes from the back of `s[from..]` starts. */
  function BackRun(s: string, from: nat, drop: char -> bool): (m: nat)
    requires from <= |s|
    ensures from <= m <= |s|
    ensures forall k :: m <= k < |s| ==> drop(s[k])
    ensures m == from || !drop(s[m - 1])
    decreases |s| - from
  {
    if |s| == from || !drop(s[|s| - 1]) then |s| else BackRun(s[..|s| - 1], from, drop)
  }

  /**
   * `s.strip()` (with `drop` the whitespace test) or `s.strip(chars)`: the
   * part of `s` between the leading and the trailing run of dropped characters.
   */
  function StripBy(s: string, drop: char -> bool): (r: string)
    ensures r == [] || (!drop(r[0]) && !drop(r[|r| - 1]))
    ensures r == s[FrontRun(s, drop)..BackRun(s, FrontRun(s, drop), drop)]
  {
    var n := FrontRun(s, drop);
    s[n..BackRun(s, n, drop)]
  }

  /** `s.replace(" ", "_")`. */
  function ReplaceSpaces(s: string): (r: string)
    ensures |r| == |s|
    ensures forall i :: 0 <= i < |r| ==> r[i] != ' ' && (r[i] == s[i] || r[i] == '_')
  {
    seq(|s|, i requires 0 <= i < |s| => if s[i] == ' ' then '_' else s[i])
  }

  /** The text `sanitize_filename` keeps before cutting: the name without bad characters, stripped. */
  function Cleaned(name: string): string
  {
    StripBy(Filter(name, NotBad()), IsSpaceFn())
  }

  /**
   * `sanitize_filename`: a missing or empty name counts as empty; the bad
   * characters are deleted, surrounding whitespace stripped, the rest cut to
   * 150 characters, an empty result replaced by `untitled`, and spaces turned
   * into underscores.
   */
  function SanitizeFilename(name: Option<string>): (r: string)
    ensures 1 <= |r| <= 150
    ensures forall i :: 0 <= i < |r| ==> r[i] !in Bad && r[i] != ' '
    ensures name.None? ==> r == "untitled"
  {
    var chosen := Chosen(name);
    ReplaceSpacesKeepsNoBad(chosen);
    ReplaceSpaces(chosen)
  }

  /** The cleaned name cut to 150 characters, or `untitled` when nothing is left. */
  function Chosen(name: Option<string>): (chosen: string)
    ensures 1 <= |chosen| <= 150 && NoBad(chosen)
    ensures name.None? ==> chosen == "untitled"
  {
    var cleaned := Cleaned(if name.Some? then name.value else "");
    var cut := if |cleaned| <= 150 then cleaned else cleaned[..150];
    CleanedHasNoBad(if name.Some? then name.value else "");
    UntitledHasNoBad();
    if cut == [] then "untitled" else cut
  }

  /** Underscores are not bad characters, so replacing spaces keeps a clean name clean. */
  lemma ReplaceSpacesKeepsNoBad(s: string)
    requires NoBad(s)
    ensures NoBad(ReplaceSpaces(s))
  {
    assert '_' !in Bad;
  }

  predicate NoBad(s: string)
  {
    forall i :: 0 <= i < |s| ==> s[i] !in Bad
  }

  lemma UntitledHasNoBad()
    ensures NoBad("untitled")
  {
  }

  lemma CleanedHasNoBad(name: string)
    ensures NoBad(Cleaned(name))
  {
    var kept := Filter(name, NotBad());
    var n := FrontRun(kept, IsSpaceFn());
    var cleaned := Cleaned(name);
    forall i | 0 <= i < |cleaned| ensures cleaned[i] !in Bad {
      assert cleaned[i] == kept[n + i] && kept[n + i] in kept;
      FilterMembership(name, NotBad(), cleaned[i]);
    }
  }

  /**
   * The fallback `untitled` is taken exactly when every character of the name
   * is a deleted one or whitespace.
   */
  lemma SanitizeFallsBack(name: string)
    ensures (forall i :: 0 <= i < |name| ==> name[i] in Bad || IsSpace(name[i])) <==> Cleaned(name) == []
  {
    var kept := Filter(name, NotBad());
    var n := FrontRun(kept, IsSpaceFn());
    if forall i :: 0 <= i < |name| ==> name[i] in Bad || IsSpace(name[i]) {
      if n < |kept| {
        FilterMembership(name, NotBad(), kept[n]);
        assert false;
      }
    } else {
      var i :| 0 <= i < |name| && name[i] !in Bad && !IsSpace(name[i]);
      FilterMembership(name, NotBad(), name[i]);
      var k :| 0 <= k < |kept| && kept[k] == name[i];
      assert n <= k;
      assert BackRun(kept, n, IsSpaceFn()) > k;
    }
  }

  /**
   * A name that is already clean (1 to 150 characters, none deleted, no
   * space, no whitespace at either end) comes back unchanged.
   */
  lemma SanitizeKeepsCleanNames(name: string)
    requires 1 <= |name| <= 150
    requires forall i :: 0 <= i < |name| ==> name[i] !in Bad && name[i] != ' '
    requires !IsSpace(name[0]) && !IsSpace(name[|name| - 1])
    ensures SanitizeFilename(Some(name)) == name
  {
    forall c | c in name ensures NotBad()(c) {
    }
    FilterKeepsAll(name, NotBad());
    assert FrontRun(name, IsSpaceFn()) == 0;
    assert BackRun(name, 0, IsSpaceFn()) == |name|;
    assert Cleaned(name) == name;
    NoSpacesUnchanged(name);
  }

  lemma NoSpacesUnchanged(s: string)
    requires forall i :: 0 <= i < |s| ==> s[i] != ' '
    ensures ReplaceSpaces(s) == s
  {
  }

  // ---------------------------------------------------------------------------
  // JSON values

  /** A decoded JSON value; objects keep their key order. */
  datatype PyValue =
    | PyNone
    | PyBool(b: bool)
    | PyInt(i: int)
    | PyStr(s: string)
    | PyList(items: seq<PyValue>)
    | PyDict(entries: seq<(string, PyValue)>)

  /** Python truthiness. */
  predicate Truthy(v: PyValue)
  {
    match v
    case PyNone => false
    case PyBool(b) => b
    case PyInt(i) => i != 0
    case PyStr(s) => s != ""
    case PyList(items) => items != []
    case PyDict(entries) => entries != []
  }

  /** `dict.get(key)`: the value stored last under `key`, else `None`. */
  function Get(entries: seq<(string, PyValue)>, key: string): (v: PyValue)
    ensures v != PyNone ==> exists i :: 0 <= i < |entries| && entries[i] == (key, v)
  {
    if entries == [] then PyNone
    else if entries[|entries| - 1].0 == key then entries[|entries| - 1].1
    else Get(entries[..|entries| - 1], key)
  }

  /** `sep.join(parts)`. */
  function Join(sep: string, parts: seq<string>): string
  {
    if parts == [] then ""
    else if |parts| == 1 then parts[0]
    else Join(sep, parts[..|parts| - 1]) + sep + parts[|parts| - 1]
  }

  /** `str(v)`; strings inside containers use `Repr`. */
  function Str(v: PyValue): string
    decreases v, 0
  {
    match v
    case PyNone => "None"
    case PyBool(b) => if b then "True" else "False"
    case PyInt(i) => IntToString(i)
    case PyStr(s) => s
    case PyList(items) => "[" + Join(", ", seq(|items|, k requires 0 <= k < |items| => Repr(items[k]))) + "]"
    case PyDict(entries) =>
      "{" + Join(", ", seq(|entries|, k requires 0 <= k < |entries| =>
        Quote(entries[k].0) + ": " + Repr(entries[k].1))) + "}"
  }

  /** `repr(v)`: strings quoted and escaped, everything else as `str`. */
  function Repr(v: PyValue): string
    decreases v, 1
  {
    if v.PyStr? then Quote(v.s) else Str(v)
  }

  /** The hexadecimal digits of `\xhh` escapes, in lower case as Python writes them. */
  const HexDigits: string := "0123456789abcdef"

  /**
   * The characters below U+0100 that `repr` writes as `\xhh`: the C0 and C1
   * controls other than tab, newline and carriage return, DEL, the no-break
   * space and the soft hyphen (the ones `str.isprintable` rejects).
   */
  predicate HexEscaped(c: char)
  {
    && (c as int < 32 || 127 <= c as int <= 160 || c as int == 173)
    && c != '\t' && c != '\n' && c != '\r'
  }

  /** How `repr` writes one character of a string quoted with `q`. */
  function EscapeChar(c: char, q: char): string
  {
    if c == '\\' then ['\\', '\\']
    else if c == q then ['\\', q]
    else if c == '\t' then ['\\', 't']
    else if c == '\n' then ['\\', 'n']
    else if c == '\r' then ['\\', 'r']
    else if HexEscaped(c) then ['\\', 'x', HexDigits[c as int / 16], HexDigits[c as int % 16]]
    else [c]
  }

  function Escaped(s: string, q: char): string
  {
    if s == [] then [] else EscapeChar(s[0], q) + Escaped(s[1..], q)
  }

  /** `repr` uses double quotes only for text with a single quote and no double quote. */
  function QuoteChar(s: string): (q: char)
    ensures q == '\'' || q == '"'
  {
    if '\'' in s && '"' !in s then '"' else '\''
  }

  /** `repr` of a string: the escaped text between the chosen quotes. */
  function Quote(s: string): (r: string)
    ensures |r| >= 2 && r[0] == QuoteChar(s) && r[|r| - 1] == QuoteChar(s)
  {
    var q := QuoteChar(s);
    [q] + Escaped(s, q) + [q]
  }

  /** The value of a hexadecimal digit, or -1. */
  function HexValue(d: char): int
  {
    if '0' <= d <= '9' then d as int - '0' as int
    else if 'a' <= d <= 'f' then d as int - 'a' as int + 10
    else -1
  }

  function Prepend(c: char, rest: Option<string>): Option<string>
  {
    if rest.Some? then Some([c] + rest.value) else None
  }

  /** Reads the text between the quotes of a `repr` back; `None` on a malformed escape. */
  function Unescape(t: string): Option<string>
    decreases |t|
  {
    if t == [] then Some([])
    else if t[0] != '\\' then Prepend(t[0], Unescape(t[1..]))
    else if |t| < 2 then None
    else if t[1] == 't' then Prepend('\t', Unescape(t[2..]))
    else if t[1] == 'n' then Prepend('\n', Unescape(t[2..]))
    else if t[1] == 'r' then Prepend('\r', Unescape(t[2..]))
    else if t[1] == 'x' then
      if |t| >= 4 && 0 <= HexValue(t[2]) && 0 <= HexValue(t[3])
      then Prepend((HexValue(t[2]) * 16 + HexValue(t[3])) as char, Unescape(t[4..]))
      else None
    else Prepend(t[1], Unescape(t[2..]))
  }

  lemma HexDigitValue(i: nat)
    requires i < 16
    ensures HexValue(HexDigits[i]) == i
  {
  }

  /** One escaped character reads back as itself, whatever follows it. */
  lemma EscapeCharReadsBack(c: char, q: char, rest: string)
    requires q == '\'' || q == '"'
    ensures Unescape(EscapeChar(c, q) + rest) == Prepend(c, Unescape(rest))
  {
    var e := EscapeChar(c, q);
    if HexEscaped(c) && c != '\\' && c != q {
      var hi, lo := c as int / 16, c as int % 16;
      HexDigitValue(hi);
      HexDigitValue(lo);
      assert e == ['\\', 'x', HexDigits[hi], HexDigits[lo]];
      assert (e + rest)[4..] == rest;
    } else if e == [c] {
      assert (e + rest)[1..] == rest;
    } else {
      assert |e| == 2 && (e + rest)[2..] == rest;
    }
  }

  /** The escaped text of a string reads back as that string. */
  lemma {:induction false} EscapedReadsBack(s: string, q: char)
    requires q == '\'' || q == '"'
    ensures Unescape(Escaped(s, q)) == Some(s)
    decreases |s|
  {
    if s != [] {
      EscapedReadsBack(s[1..], q);
      EscapeCharReadsBack(s[0], q, Escaped(s[1..], q));
      assert [s[0]] + s[1..] == s;
    }
  }

  /**
   * `repr` of a string is a quoted literal whose body reads back as the
   * string, so no two strings share a `repr`.
   */
  lemma ReprReadsBack(s: string)
    ensures var r := Quote(s); Unescape(r[1..|r| - 1]) == Some(s)
  {
    var q := QuoteChar(s);
    EscapedReadsBack(s, q);
    assert Quote(s)[1..|Quote(s)| - 1] == Escaped(s, q);
  }

  /** A single quote alone switches to double quotes; with both kinds present the single quote is escaped. */
  lemma QuoteChoiceExamples()
    ensures Quote("it's") == "\"it's\""
    ensures Quote("a'\"") == "'a\\'\"'"
  {
    assert '\'' in "it's" && '"' !in "it's";
    assert Escaped("it's", '"') == "it's";
    assert '"' in "a'\"";
    assert Escaped("a'\"", '\'') == "a\\'\"";
  }

  /** Text without quotes, backslashes or control characters is only wrapped in single quotes. */
  lemma {:induction false} PlainTextQuoted(s: string)
    requires forall k :: 0 <= k < |s| ==> s[k] != '\'' && s[k] != '"' && s[k] != '\\' && ' ' <= s[k] <= '~'
    ensures Quote(s) == "'" + s + "'"
  {
    PlainEscaped(s);
  }

  lemma {:induction false} PlainEscaped(s: string)
    requires forall k :: 0 <= k < |s| ==> s[k] != '\'' && s[k] != '"' && s[k] != '\\' && ' ' <= s[k] <= '~'
    ensures Escaped(s, '\'') == s
    decreases |s|
  {
    if s != [] {
      PlainEscaped(s[1..]);
      assert [s[0]] + s[1..] == s;
    }
  }

  /** `as_list`: `None` is empty, a list gives the `str` of each element, anything else a one-element list. */
  function AsList(v: PyValue): (r: seq<string>)
    ensures v.PyNone? ==> r == []
    ensures v.PyList? ==> |r| == |v.items| && forall k :: 0 <= k < |r| ==> r[k] == Str(v.items[k])
    ensures !v.PyNone? && !v.PyList? ==> r == [Str(v)]
  {
    match v
    case PyNone => []
    case PyList(items) => seq(|items|, k requires 0 <= k < |items| => Str(items[k]))
    case _ => [Str(v)]
  }

  /** A JSON list of strings comes back as those strings, and a single string as a list of itself. */
  lemma AsListOfStrings(xs: seq<string>)
    ensures AsList(PyList(seq(|xs|, k requires 0 <= k < |xs| => PyStr(xs[k])))) == xs
    ensures |xs| == 1 ==> AsList(PyStr(xs[0])) == xs
  {
  }

  // ---------------------------------------------------------------------------
  // The search request

  const Fields: seq<string> := ["id", "title", "artist_title", "artist_display", "date_display",
    "short_description", "thumbnail.alt_text", "subject_titles", "style_title", "medium_display",
    "image_id", "is_public_domain"]

  /**
   * A field named in a query clause; `keyword` marks the `.keyword` form,
   * which matches the stored value exactly.
   */
  datatype FieldRef = FieldRef(name: string, keyword: bool)
  {
    /** The field as the request body spells it. */
    function Path(): string
    {
      if keyword then name + ".keyword" else name
    }
  }

  /** The three Elasticsearch query clauses the request body uses. */
  datatype Clause =
    | Term(field: FieldRef, value: PyValue)
    | Terms(field: FieldRef, values: seq<PyValue>)
    | Exists(field: FieldRef)

  /** `build_payload`'s body: a boolean query whose clauses must all hold, the fields to return, the page size. */
  datatype Payload = Payload(must: seq<Clause>, fields: seq<string>, limit: int)

  function BuildPayload(limit: int): (p: Payload)
    ensures p.limit == limit && p.fields == Fields && |p.must| == 4
  {
    Payload(
      [Term(FieldRef("artwork_type_title", true), PyStr("Painting")),
       Terms(FieldRef("subject_titles", true), [PyStr("portrait"), PyStr("portraits")]),
       Exists(FieldRef("image_id", false)),
       Term(FieldRef("is_public_domain", false), PyBool(true))],
      Fields, limit)
  }

  /** The values a document holds in a field: every element of an array, nothing for null or absent. */
  function Values(doc: seq<(string, PyValue)>, field: string): seq<PyValue>
  {
    var v := Get(doc, field);
    if v.PyNone? then [] else if v.PyList? then v.items else [v]
  }

  /** Exact-match reading of a clause against a stored document. */
  predicate Holds(c: Clause, doc: seq<(string, PyValue)>)
  {
    match c
    case Term(f, v) => v in Values(doc, f.name)
    case Terms(f, vs) => exists v :: v in vs && v in Values(doc, f.name)
    case Exists(f) => Values(doc, f.name) != []
  }

  predicate Selects(p: Payload, doc: seq<(string, PyValue)>)
  {
    forall c :: c in p.must ==> Holds(c, doc)
  }

  /** The artworks the downloader wants: public-domain portrait paintings that have an image. */
  predicate PublicDomainPortraitPainting(doc: seq<(string, PyValue)>)
  {
    && PyStr("Painting") in Values(doc, "artwork_type_title")
    && (PyStr("portrait") in Values(doc, "subject_titles") || PyStr("portraits") in Values(doc, "subject_titles"))
    && Values(doc, "image_id") != []
    && PyBool(true) in Values(doc, "is_public_domain")
  }

  /** Whatever the page size, the query selects exactly the public-domain portrait paintings with an image. */
  lemma PayloadSelectsPortraits(limit: int, doc: seq<(string, PyValue)>)
    ensures Selects(BuildPayload(limit), doc) <==> PublicDomainPortraitPainting(doc)
  {
    var must := BuildPayload(limit).must;
    var portraits := [PyStr("portrait"), PyStr("portraits")];
    var subjects := Values(doc, "subject_titles");
    assert Holds(must[1], doc) <==> PyStr("portrait") in subjects || PyStr("portraits") in subjects by {
      if PyStr("portrait") in subjects {
        assert PyStr("portrait") in portraits;
      } else if PyStr("portraits") in subjects {
        assert PyStr("portraits") in portraits;
      }
    }
    assert Selects(BuildPayload(limit), doc)
      <==> Holds(must[0], doc) && Holds(must[1], doc) && Holds(must[2], doc) && Holds(must[3], doc);
  }

  // ---------------------------------------------------------------------------
  // IIIF image addresses

  const IiifWidth := 843
  const IiifSuffix := ",/0/default.jpg"

  /** `iiif_url`: `{base}/{image_id}/full/{width},/0/default.jpg`. */
  function IiifUrl(iiifBase: string, imageId: string, width: int): string
  {
    iiifBase + "/" + imageId + "/full/" + IntToString(width) + IiifSuffix
  }

  /** `int(s)` for the renderings `str(int)` produces. */
  function ParseInt(s: string): Option<int>
  {
    if |s| >= 2 && s[0] == '-' && IsDigits(s[1..]) then Some(0 - ParseDigits(s[1..]) as int)
    else if s != [] && IsDigits(s) then Some(ParseDigits(s))
    else None
  }

  lemma ParseIntToString(i: int)
    ensures ParseInt(IntToString(i)) == Some(i)
    ensures '/' !in IntToString(i)
  {
    var s := IntToString(i);
    if i < 0 {
      assert s[1..] != [];
      assert forall k :: 1 <= k < |s| ==> s[k] == s[1..][k - 1];
    } else {
      assert s[0] != '-';
    }
  }

  /**
   * Reads an address back into the image id and the width, for a given base:
   * the text between `{base}/` and the suffix is read by `ParseLocation`.
   */
  function ParseIiifUrl(iiifBase: string, url: string): Option<(string, int)>
  {
    var prefix := iiifBase + "/";
    if |url| >= |prefix| + |IiifSuffix| && url[..|prefix|] == prefix && url[|url| - |IiifSuffix|..] == IiifSuffix
    then ParseLocation(url[|prefix|..|url| - |IiifSuffix|])
    else None
  }

  /** `{image_id}/full/{width}`: the width is the text after the last slash. */
  function ParseLocation(location: string): Option<(string, int)>
  {
    var widthText := Cutout.Basename(location);
    var rest := location[..|location| - |widthText|];
    var width := ParseInt(widthText);
    if Cutout.EndsWith(rest, "/full/") && width.Some? then Some((rest[..|rest| - 6], width.value))
    else None
  }

  lemma ParseIiifUrlFrame(iiifBase: string, location: string)
    ensures ParseIiifUrl(iiifBase, iiifBase + "/" + location + IiifSuffix) == ParseLocation(location)
  {
    var prefix := iiifBase + "/";
    var url := prefix + location + IiifSuffix;
    assert url[..|prefix|] == prefix;
    assert url[|url| - |IiifSuffix|..] == IiifSuffix;
    assert url[|prefix|..|url| - |IiifSuffix|] == location;
  }

  lemma ParseLocationRoundTrip(imageId: string, width: int)
    ensures ParseLocation(imageId + "/full/" + IntToString(width)) == Some((imageId, width))
  {
    var w := IntToString(width);
    ParseIntToString(width);
    var head := imageId + "/full";
    var location := head + "/" + w;
    assert imageId + "/full/" + w == location;
    LocationParts(head, w);
    FullSuffix(imageId);
    var rest := location[..|location| - |w|];
    assert rest == head + "/";
    assert ParseInt(w) == Some(width);
  }

  lemma LocationParts(head: string, w: string)
    requires '/' !in w
    ensures var location := head + "/" + w;
      Cutout.Basename(location) == w && location[..|location| - |w|] == head + "/"
  {
    var withSlash := head + "/";
    Cutout.BasenameAfterSlash(withSlash, w);
  }

  lemma FullSuffix(imageId: string)
    ensures var rest := imageId + "/full" + "/";
      Cutout.EndsWith(rest, "/full/") && rest[..|rest| - 6] == imageId
  {
    var rest := imageId + "/full" + "/";
    assert rest[|rest| - 6..] == "/full/";
  }

  /** Every address `iiif_url` builds names its image id and width unambiguously. */
  lemma IiifUrlRoundTrip(iiifBase: string, imageId: string, width: int)
    ensures ParseIiifUrl(iiifBase, IiifUrl(iiifBase, imageId, width)) == Some((imageId, width))
  {
    var location := imageId + "/full/" + IntToString(width);
    assert IiifUrl(iiifBase, imageId, width) == iiifBase + "/" + location + IiifSuffix;
    ParseIiifUrlFrame(iiifBase, location);
    ParseLocationRoundTrip(imageId, width);
  }

  // ---------------------------------------------------------------------------
  // Curator cards

  /** `value or ""` rendered with `str`. */
  function OrEmpty(v: PyValue): (s: string)
    ensures !Truthy(v) ==> s == ""
  {
    if Truthy(v) then Str(v) else ""
  }

  /** The characters the artist line's `strip(" \U{B7}")` removes. */
  function ArtistDateStrip(): char -> bool
  {
    (c: char) => c == ' ' || c == '\U{B7}'
  }

  /** The fields the card shows, each already defaulted the way `mk_curator_card` defaults it. */
  datatype CardFields = CardFields(
    title: string, id: string, artist: string, dateDisplay: string, style: string,
    medium: string, subjects: string, shortDescription: string, altText: PyValue)

  function FieldsOf(item: seq<(string, PyValue)>): (f: CardFields)
    ensures Truthy(Get(item, "title")) ==> f.title == Str(Get(item, "title"))
    ensures !Truthy(Get(item, "title")) ==> f.title == "Artwork " + Str(Get(item, "id"))
    ensures f.id == Str(Get(item, "id"))
  {
    var thumbnail := Get(item, "thumbnail");
    CardFields(
      if Truthy(Get(item, "title")) then Str(Get(item, "title")) else "Artwork " + Str(Get(item, "id")),
      Str(Get(item, "id")),
      OrEmpty(Get(item, "artist_title")),
      OrEmpty(Get(item, "date_display")),
      OrEmpty(Get(item, "style_title")),
      OrEmpty(Get(item, "medium_display")),
      Join(", ", AsList(Get(item, "subject_titles"))),
      OrEmpty(Get(item, "short_description")),
      if thumbnail.PyDict? then Get(thumbnail.entries, "alt_text") else PyNone)
  }

  function TitleLine(f: CardFields): string { "### " + f.title }
  function IdLine(f: CardFields): string { "ID: " + f.id }
  function ArtistLine(f: CardFields): string
  {
    StripBy("**Artist / Date**: " + f.artist + " \U{B7} " + f.dateDisplay, ArtistDateStrip())
  }
  function StyleLine(f: CardFields): string { "**Style**: " + f.style }
  function MediumLine(f: CardFields): string { "**Medium**: " + f.medium }
  function SubjectsLine(f: CardFields): string { "**Subjects**: " + f.subjects }
  function DescriptionLine(f: CardFields): string { "**Short description**: " + f.shortDescription }
  function AltTextLine(f: CardFields): string { "**Alt text** (visual description): " + Str(f.altText) }
  function ImageLine(iiifImgUrl: string): string { "**Image (IIIF)**: " + iiifImgUrl }

  /** `[line]` when `present`, else nothing. */
  function When(present: bool, line: string): (r: seq<string>)
    ensures |r| == if present then 1 else 0
  {
    if present then [line] else []
  }

  /** The card's lines: heading, id, the optional lines, the image address. */
  function CardLines(item: seq<(string, PyValue)>, iiifImgUrl: string): seq<string>
  {
    LinesOf(FieldsOf(item), iiifImgUrl)
  }

  /** Heading, id, each optional line whose field is non-empty (in card order), the image address. */
  function LinesOf(f: CardFields, iiifImgUrl: string): seq<string>
  {
    [TitleLine(f), IdLine(f)]
    + When(f.artist != "" || f.dateDisplay != "", ArtistLine(f))
    + When(f.style != "", StyleLine(f))
    + When(f.medium != "", MediumLine(f))
    + When(f.subjects != "", SubjectsLine(f))
    + When(f.shortDescription != "", DescriptionLine(f))
    + When(Truthy(f.altText), AltTextLine(f))
    + [ImageLine(iiifImgUrl)]
  }

  /** `mk_curator_card`: the lines built one `append` at a time, joined with newlines, plus a final newline. */
  method MkCuratorCard(item: seq<(string, PyValue)>, iiifImgUrl: string) returns (card: string)
    ensures card == Join("\n", CardLines(item, iiifImgUrl)) + "\n"
  {
    var f := FieldsOf(item);
    var lines: seq<string> := [];
    lines := lines + [TitleLine(f)];
    lines := lines + [IdLine(f)];
    assert lines == [TitleLine(f), IdLine(f)];
    lines := AppendIf(lines, f.artist != "" || f.dateDisplay != "", ArtistLine(f));
    lines := AppendIf(lines, f.style != "", StyleLine(f));
    lines := AppendIf(lines, f.medium != "", MediumLine(f));
    lines := AppendIf(lines, f.subjects != "", SubjectsLine(f));
    lines := AppendIf(lines, f.shortDescription != "", DescriptionLine(f));
    lines := AppendIf(lines, Truthy(f.altText), AltTextLine(f));
    lines := lines + [ImageLine(iiifImgUrl)];
    card := Join("\n", lines) + "\n";
  }

  /** `if present: lines.append(line)`. */
  method AppendIf(lines: seq<string>, present: bool, line: string) returns (result: seq<string>)
    ensures result == lines + When(present, line)
  {
    result := lines;
    if present {
      result := result + [line];
    }
  }

  function OptionalCount(f: CardFields): nat
  {
    (if f.artist != "" || f.dateDisplay != "" then 1 else 0)
    + (if f.style != "" then 1 else 0) + (if f.medium != "" then 1 else 0)
    + (if f.subjects != "" then 1 else 0) + (if f.shortDescription != "" then 1 else 0)
    + (if Truthy(f.altText) then 1 else 0)
  }

  /**
   * The card opens with the title heading (the title, or `Artwork {id}`
   * without one) and the id line, ends with the image line, and has one line
   * in between for each non-empty optional field.
   */
  lemma CardShape(item: seq<(string, PyValue)>, iiifImgUrl: string)
    ensures var lines := CardLines(item, iiifImgUrl);
      var f := FieldsOf(item);
      && |lines| == 3 + OptionalCount(f)
      && lines[0] == "### " + f.title
      && lines[1] == "ID: " + Str(Get(item, "id"))
      && lines[|lines| - 1] == "**Image (IIIF)**: " + iiifImgUrl
  {
    LinesShape(FieldsOf(item), iiifImgUrl);
  }

  lemma LinesShape(f: CardFields, iiifImgUrl: string)
    ensures var lines := LinesOf(f, iiifImgUrl);
      && |lines| == 3 + OptionalCount(f)
      && lines[0] == "### " + f.title && lines[1] == "ID: " + f.id
      && lines[|lines| - 1] == "**Image (IIIF)**: " + iiifImgUrl
  {
  }

  /** `s.split(sep)` for a one-character separator: at least one part, the empty string gives `[""]`. */
  function Split(s: string, sep: char): (parts: seq<string>)
    ensures |parts| >= 1
  {
    if s == [] then [[]]
    else
      var init := Split(s[..|s| - 1], sep);
      if s[|s| - 1] == sep then init + [[]]
      else init[..|init| - 1] + [init[|init| - 1] + [s[|s| - 1]]]
  }

  lemma {:induction false} SplitAppendLine(s: string, line: string)
    requires '\n' !in line
    ensures Split(s + "\n" + line, '\n') == Split(s, '\n') + [line]
    decreases |line|
  {
    var t := s + "\n" + line;
    if line == [] {
      assert t[..|t| - 1] == s;
    } else {
      var init := line[..|line| - 1];
      assert t[..|t| - 1] == s + "\n" + init;
      assert line[|line| - 1] in line;
      SplitAppendLine(s, init);
      assert init + [line[|line| - 1]] == line;
    }
  }

  lemma {:induction false} SplitOfLine(line: string)
    requires '\n' !in line
    ensures Split(line, '\n') == [line]
    decreases |line|
  {
    if line != [] {
      assert line[|line| - 1] in line;
      SplitOfLine(line[..|line| - 1]);
      assert line[..|line| - 1] + [line[|line| - 1]] == line;
    }
  }

  /** Splitting joined lines at the separator gives the lines back. */
  lemma {:induction false} SplitJoin(lines: seq<string>)
    requires |lines| >= 1 && forall k :: 0 <= k < |lines| ==> '\n' !in lines[k]
    ensures Split(Join("\n", lines), '\n') == lines
    decreases |lines|
  {
    if |lines| == 1 {
      SplitOfLine(lines[0]);
    } else {
      var init := lines[..|lines| - 1];
      SplitJoin(init);
      SplitAppendLine(Join("\n", init), lines[|lines| - 1]);
      assert init + [lines[|lines| - 1]] == lines;
    }
  }

  /** When no field holds a line break, the card's lines are read back by splitting it. */
  lemma CardReadsBack(item: seq<(string, PyValue)>, iiifImgUrl: string, card: string)
    requires card == Join("\n", CardLines(item, iiifImgUrl)) + "\n"
    requires forall k :: 0 <= k < |CardLines(item, iiifImgUrl)| ==> '\n' !in CardLines(item, iiifImgUrl)[k]
    ensures card[|card| - 1] == '\n'
    ensures Split(card[..|card| - 1], '\n') == CardLines(item, iiifImgUrl)
  {
    var body := Join("\n", CardLines(item, iiifImgUrl));
    assert card[..|card| - 1] == body;
    SplitJoin(CardLines(item, iiifImgUrl));
  }
}

/**
 * SVG path data as both generators write it: a move to the first point, a
 * line to each following point, and optionally a close. `SVGGenerator`
 * separates a point's coordinates with a space (`M 3 4 L 5 6`), the outline
 * generator with a comma (`M 3,4 L 5,6 Z`). Tokens are joined by single
 * spaces; `Parse` reads the text back, which shows the text determines the
 * commands it was written from.
 */
module PathData {
  import opened Common

  datatype Command = MoveTo(p: Point) | LineTo(p: Point) | ClosePath

  /** How the two coordinates of a point are separated. */
  datatype Separator = Space | Comma

  // ---------------------------------------------------------------------------
  // Joining and splitting on a delimiter

  /** The tokens with one delimiter between neighbours (`d.join(tokens)`). */
  function Join(tokens: seq<string>, d: char): string
  {
    if tokens == [] then ""
    else if |tokens| == 1 then tokens[0]
    else Join(tokens[..|tokens| - 1], d) + [d] + tokens[|tokens| - 1]
  }

  /** `s.split(d)`: the pieces between delimiters, always at least one. */
  function Split(s: string, d: char): (pieces: seq<string>)
    ensures |pieces| >= 1
  {
    if s == [] then [""]
    else
      var init := Split(s[..|s| - 1], d);
      if s[|s| - 1] == d then init + [""]
      else init[..|init| - 1] + [init[|init| - 1] + [s[|s| - 1]]]
  }

  lemma {:induction false} SplitWithout(t: string, d: char)
    requires d !in t
    ensures Split(t, d) == [t]
  {
    if t != [] {
      SplitWithout(t[..|t| - 1], d);
      assert t[..|t| - 1] + [t[|t| - 1]] == t;
    }
  }

  /** Splitting after a delimiter starts a new piece. */
  lemma {:induction false} SplitAfterDelimiter(x: string, t: string, d: char)
    requires d !in t
    ensures Split(x + [d] + t, d) == Split(x, d) + [t]
    decreases |t|
  {
    var s := x + [d] + t;
    if t == [] {
      assert s[..|s| - 1] == x;
    } else {
      var t' := t[..|t| - 1];
      assert s[..|s| - 1] == x + [d] + t';
      SplitAfterDelimiter(x, t', d);
      assert t' + [t[|t| - 1]] == t;
    }
  }

  /** No token holds the character `d`. */
  predicate Plain(tokens: seq<string>, d: char)
  {
    forall i :: 0 <= i < |tokens| ==> d !in tokens[i]
  }

  lemma PlainAppend(x: seq<string>, y: seq<string>, d: char)
    requires Plain(x, d) && Plain(y, d)
    ensures Plain(x + y, d)
  {
    forall i | 0 <= i < |x + y|
      ensures d !in (x + y)[i]
    {
      if i >= |x| {
        assert (x + y)[i] == y[i - |x|];
      }
    }
  }

  /** Splitting undoes joining when no token holds the delimiter. */
  lemma {:induction false} SplitJoin(tokens: seq<string>, d: char)
    requires |tokens| >= 1
    requires Plain(tokens, d)
    ensures Split(Join(tokens, d), d) == tokens
  {
    if |tokens| == 1 {
      SplitWithout(tokens[0], d);
    } else {
      var init := tokens[..|tokens| - 1];
      SplitJoin(init, d);
      SplitAfterDelimiter(Join(init, d), tokens[|tokens| - 1], d);
      assert init + [tokens[|tokens| - 1]] == tokens;
    }
  }

  lemma {:induction false} JoinAppend(a: seq<string>, b: seq<string>, d: char)
    requires |a| >= 1 && |b| >= 1
    ensures Join(a + b, d) == Join(a, d) + [d] + Join(b, d)
    decreases |b|
  {
    var ab := a + b;
    if |b| == 1 {
      assert ab[..|ab| - 1] == a;
    } else {
      var b' := b[..|b| - 1];
      assert ab[..|ab| - 1] == a + b';
      JoinAppend(a, b', d);
      assert b'[..|b'|] == b';
      assert b[..|b| - 1] == b';
    }
  }

  // ---------------------------------------------------------------------------
  // Integers

  /** `int(s)` for the strings `str(i)` produces: optional minus, then digits. */
  function ParseInt(s: string): Option<int>
  {
    if s == [] then None
    else if s[0] == '-' then
      if |s| > 1 && IsDigits(s[1..]) then Some(0 - ParseDigits(s[1..]) as int) else None
    else if IsDigits(s) then Some(ParseDigits(s))
    else None
  }

  lemma ParseIntRoundTrip(i: int)
    ensures ParseInt(IntToString(i)) == Some(i)
  {
  }

  /** A rendered integer holds only digits and perhaps a leading minus. */
  lemma IntTextIsPlain(i: int)
    ensures ' ' !in IntToString(i) && ',' !in IntToString(i)
  {
    var s := IntToString(i);
    if i < 0 {
      forall k | 1 <= k < |s|
        ensures '0' <= s[k] <= '9'
      {
        assert s[k] == s[1..][k - 1];
      }
    }
  }

  // ---------------------------------------------------------------------------
  // Serialising

  function CoordinateTokens(p: Point, sep: Separator): seq<string>
  {
    match sep
    case Space => [IntToString(p.x), IntToString(p.y)]
    case Comma => [IntToString(p.x) + "," + IntToString(p.y)]
  }

  function CommandTokens(c: Command, sep: Separator): (tokens: seq<string>)
    ensures |tokens| >= 1
  {
    match c
    case MoveTo(p) => ["M"] + CoordinateTokens(p, sep)
    case LineTo(p) => ["L"] + CoordinateTokens(p, sep)
    case ClosePath => ["Z"]
  }

  function Tokens(commands: seq<Command>, sep: Separator): seq<string>
  {
    if commands == [] then [] else CommandTokens(commands[0], sep) + Tokens(commands[1..], sep)
  }

  /** The `d` attribute for a list of commands. */
  function Serialize(commands: seq<Command>, sep: Separator): string
  {
    Join(Tokens(commands, sep), ' ')
  }

  lemma {:induction false} TokensAppend(a: seq<Command>, b: seq<Command>, sep: Separator)
    ensures Tokens(a + b, sep) == Tokens(a, sep) + Tokens(b, sep)
  {
    if a == [] {
      assert a + b == b;
    } else {
      var ab := a + b;
      assert ab[0] == a[0] && ab[1..] == a[1..] + b;
      TokensAppend(a[1..], b, sep);
      var head := CommandTokens(a[0], sep);
      assert Tokens(ab, sep) == head + (Tokens(a[1..], sep) + Tokens(b, sep));
      assert Tokens(a, sep) == head + Tokens(a[1..], sep);
      SeqAssoc(head, Tokens(a[1..], sep), Tokens(b, sep));
    }
  }

  lemma {:induction false} TokensNonEmpty(commands: seq<Command>, sep: Separator)
    requires commands != []
    ensures |Tokens(commands, sep)| >= 1
  {
  }

  /**
   * Appending a command appends its text after one space: the loop
   * `path_data += f' L {x} {y}'` extends the serialisation of the commands so far.
   */
  lemma SerializeSnoc(commands: seq<Command>, c: Command, sep: Separator)
    requires commands != []
    ensures Serialize(commands + [c], sep) == Serialize(commands, sep) + " " + Join(CommandTokens(c, sep), ' ')
  {
    TokensAppend(commands, [c], sep);
    assert Tokens([c], sep) == CommandTokens(c, sep) by {
      assert [c][1..] == [];
    }
    TokensNonEmpty(commands, sep);
    JoinAppend(Tokens(commands, sep), CommandTokens(c, sep), ' ');
  }

  /** The text of one command on its own. */
  lemma CommandText(c: Command, sep: Separator)
    ensures Serialize([c], sep) == Join(CommandTokens(c, sep), ' ')
  {
    assert [c][1..] == [];
    assert Tokens([c], sep) == CommandTokens(c, sep);
  }

  /** The text of a point in either style: `x y` or `x,y`. */
  function PointText(p: Point, sep: Separator): string
  {
    match sep
    case Space => IntToString(p.x) + " " + IntToString(p.y)
    case Comma => IntToString(p.x) + "," + IntToString(p.y)
  }

  lemma JoinTwo(a: string, b: string, d: char)
    ensures Join([a, b], d) == a + [d] + b
  {
    assert [a, b][..1] == [a];
  }

  lemma JoinThree(a: string, b: string, c: string, d: char)
    ensures Join([a, b, c], d) == a + [d] + b + [d] + c
  {
    assert [a, b, c][..2] == [a, b];
    JoinTwo(a, b, d);
  }

  /** `f'M {x} {y}'`, `f'L {x},{y}'` and `'Z'`: the text each command contributes. */
  lemma CommandTextIs(c: Command, sep: Separator)
    ensures Join(CommandTokens(c, sep), ' ') == match c
      case MoveTo(p) => "M " + PointText(p, sep)
      case LineTo(p) => "L " + PointText(p, sep)
      case ClosePath => "Z"
  {
    match c
    case ClosePath =>
    case MoveTo(p) =>
      PointTextIs("M", p, sep);
      assert "M" + " " == "M ";
    case LineTo(p) =>
      PointTextIs("L", p, sep);
      assert "L" + " " == "L ";
  }

  lemma PointTextIs(head: string, p: Point, sep: Separator)
    ensures Join([head] + CoordinateTokens(p, sep), ' ') == head + " " + PointText(p, sep)
  {
    var x, y := IntToString(p.x), IntToString(p.y);
    match sep
    case Space =>
      assert [head] + CoordinateTokens(p, sep) == [head, x, y];
      JoinThree(head, x, y, ' ');
    case Comma =>
      assert [head] + CoordinateTokens(p, sep) == [head, x + "," + y];
      JoinTwo(head, x + "," + y, ' ');
  }

  // ---------------------------------------------------------------------------
  // Parsing

  function ParsePoint(tokens: seq<string>, sep: Separator): Option<(Point, nat)>
  {
    match sep
    case Space =>
      if |tokens| >= 2 && ParseInt(tokens[0]).Some? && ParseInt(tokens[1]).Some?
      then Some((Point(ParseInt(tokens[0]).value, ParseInt(tokens[1]).value), 2))
      else None
    case Comma =>
      if |tokens| >= 1 then
        var parts := Split(tokens[0], ',');
        if |parts| == 2 && ParseInt(parts[0]).Some? && ParseInt(parts[1]).Some?
        then Some((Point(ParseInt(parts[0]).value, ParseInt(parts[1]).value), 1))
        else None
      else None
  }

  function ParseTokens(tokens: seq<string>, sep: Separator): Option<seq<Command>>
    decreases |tokens|
  {
    if tokens == [] then Some([])
    else if tokens[0] == "Z" then
      match ParseTokens(tokens[1..], sep)
      case Some(rest) => Some([ClosePath] + rest)
      case None => None
    else if tokens[0] == "M" || tokens[0] == "L" then
      match ParsePoint(tokens[1..], sep)
      case Some((p, used)) =>
        (match ParseTokens(tokens[1 + used..], sep)
         case Some(rest) => Some([if tokens[0] == "M" then MoveTo(p) else LineTo(p)] + rest)
         case None => None)
      case None => None
    else None
  }

  /** Reads path data back into commands. */
  function Parse(s: string, sep: Separator): Option<seq<Command>>
  {
    if s == "" then Some([]) else ParseTokens(Split(s, ' '), sep)
  }

  lemma ParsePointTokens(p: Point, sep: Separator, rest: seq<string>)
    ensures ParsePoint(CoordinateTokens(p, sep) + rest, sep) == Some((p, |CoordinateTokens(p, sep)|))
  {
    ParseIntRoundTrip(p.x);
    ParseIntRoundTrip(p.y);
    if sep == Comma {
      IntTextIsPlain(p.x);
      IntTextIsPlain(p.y);
      var tokens := [IntToString(p.x), IntToString(p.y)];
      assert Join(tokens, ',') == IntToString(p.x) + "," + IntToString(p.y) by {
        assert tokens[..1] == [IntToString(p.x)];
      }
      SplitJoin(tokens, ',');
    }
  }

  lemma ParseAfterPoint(head: string, p: Point, sep: Separator, rest: seq<string>, commands: seq<Command>)
    requires head == "M" || head == "L"
    requires ParseTokens(rest, sep) == Some(commands)
    ensures ParseTokens([head] + CoordinateTokens(p, sep) + rest, sep)
            == Some([if head == "M" then MoveTo(p) else LineTo(p)] + commands)
  {
    var tokens := [head] + CoordinateTokens(p, sep) + rest;
    assert tokens[0] == head;
    assert tokens[1..] == CoordinateTokens(p, sep) + rest;
    ParsePointTokens(p, sep, rest);
    assert tokens[1 + |CoordinateTokens(p, sep)|..] == rest;
  }

  lemma {:induction false} ParseTokensRoundTrip(commands: seq<Command>, sep: Separator)
    ensures ParseTokens(Tokens(commands, sep), sep) == Some(commands)
  {
    if commands != [] {
      var rest := Tokens(commands[1..], sep);
      ParseTokensRoundTrip(commands[1..], sep);
      assert commands == [commands[0]] + commands[1..];
      match commands[0]
      case ClosePath =>
        assert (["Z"] + rest)[1..] == rest;
      case MoveTo(p) =>
        ParseAfterPoint("M", p, sep, rest, commands[1..]);
        assert ["M"] + CoordinateTokens(p, sep) + rest == CommandTokens(commands[0], sep) + rest;
      case LineTo(p) =>
        ParseAfterPoint("L", p, sep, rest, commands[1..]);
        assert ["L"] + CoordinateTokens(p, sep) + rest == CommandTokens(commands[0], sep) + rest;
    }
  }

  lemma CommandTokensArePlain(c: Command, sep: Separator)
    ensures Plain(CommandTokens(c, sep), ' ')
  {
    match c
    case ClosePath =>
    case MoveTo(p) =>
      IntTextIsPlain(p.x);
      IntTextIsPlain(p.y);
    case LineTo(p) =>
      IntTextIsPlain(p.x);
      IntTextIsPlain(p.y);
  }

  lemma {:induction false} TokensArePlain(commands: seq<Command>, sep: Separator)
    ensures Plain(Tokens(commands, sep), ' ')
  {
    if commands != [] {
      TokensArePlain(commands[1..], sep);
      CommandTokensArePlain(commands[0], sep);
      PlainAppend(CommandTokens(commands[0], sep), Tokens(commands[1..], sep), ' ');
    }
  }

  /** The path data determines the commands it was written from. */
  lemma ParseSerialize(commands: seq<Command>, sep: Separator)
    ensures Parse(Serialize(commands, sep), sep) == Some(commands)
  {
    if commands != [] {
      var tokens := Tokens(commands, sep);
      TokensNonEmpty(commands, sep);
      TokensArePlain(commands, sep);
      SplitJoin(tokens, ' ');
      ParseTokensRoundTrip(commands, sep);
      assert tokens[0] == CommandTokens(commands[0], sep)[0];
      assert tokens != [""];
    }
  }

  /** Distinct command lists give distinct path data. */
  lemma SerializeInjective(a: seq<Command>, b: seq<Command>, sep: Separator)
    requires Serialize(a, sep) == Serialize(b, sep)
    ensures a == b
  {
    ParseSerialize(a, sep);
    ParseSerialize(b, sep);
  }

  // ---------------------------------------------------------------------------
  // Polylines

  /** Move to the first point, a line to each later point, then a close when asked. */
  function Polyline(points: seq<Point>, closed: bool): (commands: seq<Command>)
    requires |points| >= 1
    ensures |commands| == |points| + (if closed then 1 else 0)
    ensures commands[0] == MoveTo(points[0])
    ensures forall i :: 1 <= i < |points| ==> commands[i] == LineTo(points[i])
    ensures closed <==> commands[|commands| - 1] == ClosePath
    decreases |points|, closed
  {
    if closed then Polyline(points, false) + [ClosePath]
    else if |points| == 1 then [MoveTo(points[0])]
    else Polyline(points[..|points| - 1], false) + [LineTo(points[|points| - 1])]
  }

  lemma PolylineSnoc(points: seq<Point>, q: Point)
    requires |points| >= 1
    ensures Polyline(points + [q], false) == Polyline(points, false) + [LineTo(q)]
  {
    assert (points + [q])[..|points|] == points;
  }

  /** The text of a one-point path. */
  lemma PathDataStart(p: Point, sep: Separator)
    ensures Serialize(Polyline([p], false), sep) == "M " + PointText(p, sep)
  {
    assert Polyline([p], false) == [MoveTo(p)];
    CommandText(MoveTo(p), sep);
    CommandTextIs(MoveTo(p), sep);
  }

  lemma PathDataFirst(points: seq<Point>, sep: Separator)
    requires |points| >= 1
    ensures Serialize(Polyline(points[..1], false), sep) == "M " + PointText(points[0], sep)
  {
    assert points[..1] == [points[0]];
    PathDataStart(points[0], sep);
  }

  /** One more point adds ` L ` and the point to the path text. */
  lemma PathDataSnoc(points: seq<Point>, q: Point, sep: Separator)
    requires |points| >= 1
    ensures Serialize(Polyline(points + [q], false), sep) == Serialize(Polyline(points, false), sep) + " L " + PointText(q, sep)
  {
    var before, point := Serialize(Polyline(points, false), sep), PointText(q, sep);
    PolylineSnoc(points, q);
    SerializeSnoc(Polyline(points, false), LineTo(q), sep);
    CommandTextIs(LineTo(q), sep);
    assert Serialize(Polyline(points + [q], false), sep) == before + " " + ("L " + point);
    AppendAfterSpace(before, "L ", point);
    SpaceThenLine();
  }

  /** `x + " " + (head + y) == x + " " + head + y`, so the loop may append ` L ` in one piece. */
  lemma AppendAfterSpace(x: string, head: string, y: string)
    ensures x + " " + (head + y) == x + (" " + head) + y
  {
  }

  lemma SpaceThenLine()
    ensures " " + "L " == " L "
  {
  }

  /** Closing a path adds ` Z` to its text. */
  lemma PathDataClose(points: seq<Point>, sep: Separator)
    requires |points| >= 1
    ensures Serialize(Polyline(points, true), sep) == Serialize(Polyline(points, false), sep) + " Z"
  {
    assert Polyline(points, true) == Polyline(points, false) + [ClosePath];
    SerializeSnoc(Polyline(points, false), ClosePath, sep);
    CommandTextIs(ClosePath, sep);
  }

  /**
   * The path-text loop both SVG writers use: `M` and the first point, then
   * ` L ` and each later point, appended one at a time.
   */
  method OpenPathData(points: seq<Point>, sep: Separator) returns (pathData: string)
    requires |points| >= 1
    ensures pathData == Serialize(Polyline(points, false), sep)
  {
    pathData := "M " + PointText(points[0], sep);
    PathDataFirst(points, sep);
    var i := 1;
    while i < |points|
      invariant 1 <= i <= |points|
      invariant pathData == Serialize(Polyline(points[..i], false), sep)
    {
      pathData := AppendLineTo(pathData, points, i, sep);
      i := i + 1;
    }
    assert points[..i] == points;
  }

  /** One turn of the path-text loop: ` L ` and the next point. */
  method AppendLineTo(pathData: string, points: seq<Point>, i: nat, sep: Separator) returns (longer: string)
    requires 1 <= i < |points|
    requires pathData == Serialize(Polyline(points[..i], false), sep)
    ensures longer == Serialize(Polyline(points[..i + 1], false), sep)
  {
    PathDataPrefixStep(points, i, sep);
    longer := pathData + " L " + PointText(points[i], sep);
  }

  lemma PathDataPrefixStep(points: seq<Point>, i: nat, sep: Separator)
    requires 1 <= i < |points|
    ensures Serialize(Polyline(points[..i + 1], false), sep)
            == Serialize(Polyline(points[..i], false), sep) + " L " + PointText(points[i], sep)
  {
    assert points[..i + 1] == points[..i] + [points[i]];
    PathDataSnoc(points[..i], points[i], sep);
  }
}

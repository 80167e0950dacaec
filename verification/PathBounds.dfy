/**
 The path interpreter nested in `validate_bounded_svg`, against the meaning that
 section 8.3 of SVG 1.1 (Second Edition) gives to the commands M, L, H, V and Z.
 Coordinates are idealised as real numbers; a path is given as its token list.
 */
module PathBounds {
  import opened Common

  datatype Point = Point(x: real, y: real)

  datatype Box = Box(xMin: real, yMin: real, xMax: real, yMax: real)

  const ABSOLUTE := {'M', 'L', 'H', 'V', 'Z'}
  const RELATIVE := {'m', 'l', 'h', 'v', 'z'}

  // The token pattern lets through these letters and numbers only.
  type Letter = c: char | c in ABSOLUTE || c in RELATIVE witness 'M'

  datatype Token = Command(letter: Letter) | Number(value: real)

  // What a path says to draw, with implicit repetitions made explicit.
  datatype Segment = MoveTo(p: Point) | LineTo(q: Point) | Horizontal(x: real) | Vertical(y: real) | Close

  // --- The grammar -------------------------------------------------------------------

  function Arity(command: char): nat {
    if command == 'M' || command == 'L' then 2 else 1
  }

  predicate TakesOperands(command: char) {
    command == 'M' || command == 'L' || command == 'H' || command == 'V'
  }

  // `command` is the command in force, if any; `pending` says it still lacks its first operands.
  function Parse(tokens: seq<Token>, command: Option<char>, pending: bool): Option<seq<Segment>>
    decreases |tokens|
  {
    if tokens == [] then
      if pending then None else Some([])
    else if tokens[0].Command? then
      if pending then None
      else if tokens[0].letter == 'Z' then Prepend(Close, Parse(tokens[1..], None, false))
      else Parse(tokens[1..], Some(tokens[0].letter), true)
    else if command.None? || |tokens| < Arity(command.value) then None
    else if Arity(command.value) == 1 then
      var v := tokens[0].value;
      Prepend(if command.value == 'H' then Horizontal(v) else Vertical(v), Parse(tokens[1..], command, false))
    else if tokens[1].Command? then None
    else
      var p := Point(tokens[0].value, tokens[1].value);
      if command.value == 'M' then Prepend(MoveTo(p), Parse(tokens[2..], Some('L'), false))
      else Prepend(LineTo(p), Parse(tokens[2..], command, false))
  }

  // A supported path: absolute commands only, beginning with a moveto.
  function ParsePath(tokens: seq<Token>): Option<seq<Segment>> {
    if tokens == [] || tokens[0] != Command('M')
       || (exists i :: 0 <= i < |tokens| && tokens[i].Command? && tokens[i].letter !in ABSOLUTE)
    then None
    else Parse(tokens, None, false)
  }

  // --- The meaning: closepath takes the current point back to the start of the subpath ---

  datatype Pen = Pen(current: Point, start: Point, vertices: seq<Point>)

  function Visit(pen: Pen, p: Point): Pen {
    Pen(p, pen.start, pen.vertices + [p])
  }

  function Draw(pen: Pen, s: Segment): Pen {
    match s
    case MoveTo(p) => Visit(pen, p).(start := p)
    case LineTo(p) => Visit(pen, p)
    case Horizontal(x) => Visit(pen, Point(x, pen.current.y))
    case Vertical(y) => Visit(pen, Point(pen.current.x, y))
    case Close => Visit(pen, pen.start)
  }

  function DrawAll(segments: seq<Segment>): Pen {
    if segments == [] then Pen(Point(0.0, 0.0), Point(0.0, 0.0), [])
    else Draw(DrawAll(segments[..|segments| - 1]), segments[|segments| - 1])
  }

  function Vertices(segments: seq<Segment>): seq<Point> {
    DrawAll(segments).vertices
  }

  const EVERY_COMMAND := [MoveTo(Point(1.0, 2.0)), LineTo(Point(3.0, 4.0)), Horizontal(5.0), Vertical(6.0), Close,
                          LineTo(Point(7.0, 8.0))]

  lemma ParseStep(token: Token, rest: seq<Token>, command: Option<char>, pending: bool)
    ensures var tokens := [token] + rest;
            Parse(tokens, command, pending) ==
            if token.Command? then
              if pending then None
              else if token.letter == 'Z' then Prepend(Close, Parse(rest, None, false))
              else Parse(rest, Some(token.letter), true)
            else if command == Some('H') then Prepend(Horizontal(token.value), Parse(rest, command, false))
            else if command == Some('V') then Prepend(Vertical(token.value), Parse(rest, command, false))
            else Parse(tokens, command, pending)
  {
    assert ([token] + rest)[1..] == rest;
  }

  lemma ParsePair(x: real, y: real, rest: seq<Token>, command: char, pending: bool)
    requires command == 'M' || command == 'L'
    ensures Parse([Number(x), Number(y)] + rest, Some(command), pending) ==
            Prepend(if command == 'M' then MoveTo(Point(x, y)) else LineTo(Point(x, y)), Parse(rest, Some('L'), false))
  {
    assert ([Number(x), Number(y)] + rest)[2..] == rest;
  }

  // A path with every command, an implicit lineto and a subpath after a closepath.
  lemma ParsesEveryCommand()
    ensures Parse([Command('M')] + ([Number(1.0), Number(2.0)] + ([Number(3.0), Number(4.0)] + ([Command('H')]
                  + ([Number(5.0)] + ([Command('V')] + ([Number(6.0)] + ([Command('Z')] + ([Command('L')]
                  + ([Number(7.0), Number(8.0)] + []))))))))), None, false) == Some(EVERY_COMMAND)
  {
    var empty: seq<Token> := [];
    var line := [Number(7.0), Number(8.0)] + empty;
    var last := [Command('L')] + line;
    var close := [Command('Z')] + last;
    var six := [Number(6.0)] + close;
    var vertical := [Command('V')] + six;
    var five := [Number(5.0)] + vertical;
    var horizontal := [Command('H')] + five;
    var implicit := [Number(3.0), Number(4.0)] + horizontal;
    ParseNothing(Some('L'), false);
    hide Parse;
    ParsePair(7.0, 8.0, empty, 'L', true);
    ParseStep(Command('L'), line, None, false);
    ParseStep(Command('Z'), last, Some('V'), false);
    ParseStep(Number(6.0), close, Some('V'), true);
    ParseStep(Command('V'), six, Some('H'), false);
    ParseStep(Number(5.0), vertical, Some('H'), true);
    ParseStep(Command('H'), five, Some('L'), false);
    ParsePair(3.0, 4.0, horizontal, 'L', false);
    ParsePair(1.0, 2.0, implicit, 'M', true);
    ParseStep(Command('M'), [Number(1.0), Number(2.0)] + implicit, None, false);
    var s, none: seq<Segment> := EVERY_COMMAND, [];
    assert [s[0]] + ([s[1]] + ([s[2]] + ([s[3]] + ([s[4]] + ([s[5]] + none))))) == s;
  }

  lemma DrawStep(segments: seq<Segment>, s: Segment)
    ensures DrawAll(segments + [s]) == Draw(DrawAll(segments), s)
  {
    assert (segments + [s])[..|segments|] == segments;
  }

  lemma DrawsEveryCommand()
    ensures Vertices(EVERY_COMMAND) == [Point(1.0, 2.0), Point(3.0, 4.0), Point(5.0, 4.0), Point(5.0, 6.0),
                                        Point(1.0, 2.0), Point(7.0, 8.0)]
  {
    var s := EVERY_COMMAND;
    DrawStep([], s[0]);
    DrawStep([] + [s[0]], s[1]);
    DrawStep([] + [s[0]] + [s[1]], s[2]);
    DrawStep([] + [s[0]] + [s[1]] + [s[2]], s[3]);
    DrawStep([] + [s[0]] + [s[1]] + [s[2]] + [s[3]], s[4]);
    DrawStep([] + [s[0]] + [s[1]] + [s[2]] + [s[3]] + [s[4]], s[5]);
    assert s == [] + [s[0]] + [s[1]] + [s[2]] + [s[3]] + [s[4]] + [s[5]];
    hide DrawAll;
    assert DrawAll([]).vertices == [] by { DrawNothing(); }
  }

  lemma DrawNothing()
    ensures DrawAll([]) == Pen(Point(0.0, 0.0), Point(0.0, 0.0), [])
  {
  }

  ghost predicate IsLeast(m: real, xs: seq<real>) {
    m in xs && forall i :: 0 <= i < |xs| ==> m <= xs[i]
  }

  ghost predicate IsGreatest(m: real, xs: seq<real>) {
    m in xs && forall i :: 0 <= i < |xs| ==> xs[i] <= m
  }

  function Xs(points: seq<Point>): seq<real> {
    seq(|points|, i requires 0 <= i < |points| => points[i].x)
  }

  function Ys(points: seq<Point>): seq<real> {
    seq(|points|, i requires 0 <= i < |points| => points[i].y)
  }

  // The tightest box around a set of points.
  ghost predicate IsBoundingBox(b: Box, points: seq<Point>) {
    && IsLeast(b.xMin, Xs(points)) && IsGreatest(b.xMax, Xs(points))
    && IsLeast(b.yMin, Ys(points)) && IsGreatest(b.yMax, Ys(points))
  }

  // --- The interpreter ----------------------------------------------------------------

  method Least(xs: seq<real>) returns (m: real)
    requires xs != []
    ensures IsLeast(m, xs)
  {
    m := xs[0];
    for i := 1 to |xs|
      invariant m in xs && forall j :: 0 <= j < i ==> m <= xs[j]
    {
      if xs[i] < m { m := xs[i]; }
    }
  }

  method Greatest(xs: seq<real>) returns (m: real)
    requires xs != []
    ensures IsGreatest(m, xs)
  {
    m := xs[0];
    for i := 1 to |xs|
      invariant m in xs && forall j :: 0 <= j < i ==> xs[j] <= m
    {
      if xs[i] > m { m := xs[i]; }
    }
  }

  // The interpreter's points and the drawn vertices may differ, but never in the
  // abscissae or in the ordinates they use.
  ghost predicate SameExtent(a: seq<Point>, b: seq<Point>) {
    && (forall x :: x in Xs(a) <==> x in Xs(b))
    && (forall y :: y in Ys(a) <==> y in Ys(b))
  }

  ghost predicate OnGrid(p: Point, points: seq<Point>) {
    p.x in Xs(points) && p.y in Ys(points)
  }

  lemma XsAppend(points: seq<Point>, p: Point)
    ensures Xs(points + [p]) == Xs(points) + [p.x]
    ensures Ys(points + [p]) == Ys(points) + [p.y]
  {
  }

  lemma GridGrows(p: Point, points: seq<Point>, q: Point)
    requires OnGrid(p, points) || p == q
    ensures OnGrid(p, points + [q])
  {
    XsAppend(points, q);
    assert (Xs(points) + [q.x])[|points|] == q.x && (Ys(points) + [q.y])[|points|] == q.y;
  }

  // What ties the interpreter's list and cursor to the pen after the same segments.
  ghost predicate Tracks(points: seq<Point>, cursor: Point, done: seq<Segment>) {
    var pen := DrawAll(done);
    && SameExtent(points, pen.vertices)
    && (points == [] ==> done == [])
    && (points != [] ==> OnGrid(cursor, points) && OnGrid(pen.current, pen.vertices) && OnGrid(pen.start, pen.vertices))
  }

  lemma DrawSnoc(done: seq<Segment>, s: Segment)
    ensures DrawAll(done + [s]) == Draw(DrawAll(done), s)
  {
    assert (done + [s])[..|done|] == done;
  }

  function Moved(cursor: Point, s: Segment): Point
    requires !s.Close?
  {
    match s
    case MoveTo(p) => p
    case LineTo(p) => p
    case Horizontal(x) => Point(x, cursor.y)
    case Vertical(y) => Point(cursor.x, y)
  }

  // One coordinate-producing segment keeps the two extents equal: a retained ordinate
  // or abscissa is one that was used before, whichever earlier vertex it is taken from.
  lemma SegmentTracks(points: seq<Point>, cursor: Point, done: seq<Segment>, s: Segment)
    requires Tracks(points, cursor, done)
    requires !s.Close? && (s.MoveTo? || points != [])
    ensures Tracks(points + [Moved(cursor, s)], Moved(cursor, s), done + [s])
  {
    var pen, p := DrawAll(done), Moved(cursor, s);
    var next := Draw(pen, s);
    DrawSnoc(done, s);
    XsAppend(points, p);
    XsAppend(pen.vertices, next.current);
    GridGrows(p, points, p);
    GridGrows(next.current, pen.vertices, next.current);
    GridGrows(next.start, pen.vertices, next.current);
  }

  lemma CloseTracks(points: seq<Point>, cursor: Point, done: seq<Segment>)
    requires Tracks(points, cursor, done) && points != []
    ensures Tracks(points, cursor, done + [Close])
  {
    var pen := DrawAll(done);
    DrawSnoc(done, Close);
    XsAppend(pen.vertices, pen.start);
    GridGrows(pen.start, pen.vertices, pen.start);
  }

  // Equal extents have the same tightest box.
  lemma TracksSameBox(b: Box, points: seq<Point>, cursor: Point, done: seq<Segment>)
    requires Tracks(points, cursor, done) && IsBoundingBox(b, points)
    ensures IsBoundingBox(b, Vertices(done))
  {
    hide Xs, Ys, IsLeast, IsGreatest, DrawAll, OnGrid;
    SameExtremes(Xs(points), Xs(Vertices(done)));
    SameExtremes(Ys(points), Ys(Vertices(done)));
  }

  lemma SameExtremes(a: seq<real>, b: seq<real>)
    requires forall v :: v in a <==> v in b
    ensures forall m :: IsLeast(m, a) <==> IsLeast(m, b)
    ensures forall m :: IsGreatest(m, a) <==> IsGreatest(m, b)
  {
    forall i | 0 <= i < |a| ensures a[i] in b { var v := a[i]; assert v in a; }
    forall i | 0 <= i < |b| ensures b[i] in a { var v := b[i]; assert v in b; }
  }

  method Unsupported(tokens: seq<Token>) returns (bad: bool)
    ensures bad <==> tokens == [] || tokens[0] != Command('M')
                     || exists i :: 0 <= i < |tokens| && tokens[i].Command? && tokens[i].letter !in ABSOLUTE
  {
    if tokens == [] || tokens[0] != Command('M') {
      return true;
    }
    for i := 0 to |tokens|
      invariant forall j :: 0 <= j < i && tokens[j].Command? ==> tokens[j].letter in ABSOLUTE
    {
      if tokens[i].Command? && tokens[i].letter in RELATIVE {
        return true;
      }
    }
    return false;
  }

  method BoxOf(points: seq<Point>) returns (b: Box)
    requires points != []
    ensures IsBoundingBox(b, points)
  {
    var xMin := Least(Xs(points));
    var yMin := Least(Ys(points));
    var xMax := Greatest(Xs(points));
    var yMax := Greatest(Ys(points));
    b := Box(xMin, yMin, xMax, yMax);
  }

  // The segment that a command in force makes of the operands at `index`.
  function Operand(tokens: seq<Token>, index: nat, command: char): Segment
    requires index + Arity(command) <= |tokens|
    requires forall i :: index <= i < index + Arity(command) ==> tokens[i].Number?
  {
    if command == 'M' then MoveTo(Point(tokens[index].value, tokens[index + 1].value))
    else if command == 'L' then LineTo(Point(tokens[index].value, tokens[index + 1].value))
    else if command == 'H' then Horizontal(tokens[index].value)
    else Vertical(tokens[index].value)
  }

  lemma ParseOperand(tokens: seq<Token>, index: nat, command: char, pending: bool)
    requires index < |tokens| && tokens[index].Number? && TakesOperands(command)
    ensures Parse(tokens[index..], Some(command), pending) ==
            if index + Arity(command) > |tokens| || (Arity(command) == 2 && tokens[index + 1].Command?) then None
            else Prepend(Operand(tokens, index, command),
                         Parse(tokens[index + Arity(command)..], Some(if command == 'M' then 'L' else command), false))
  {
    var rest := tokens[index..];
    assert rest[1..] == tokens[index + 1..];
    if |rest| >= 2 {
      assert rest[2..] == tokens[index + 2..] && rest[1] == tokens[index + 1];
    }
  }

  lemma ParseNothing(command: Option<char>, pending: bool)
    ensures Parse([], command, pending) == if pending then None else Some([])
  {
  }

  lemma ParseCommand(tokens: seq<Token>, index: nat, command: Option<char>, pending: bool)
    requires index < |tokens|
    ensures tokens[index].Command? && pending ==> Parse(tokens[index..], command, pending).None?
    ensures tokens[index].Command? && !pending && tokens[index].letter == 'Z' ==>
              Parse(tokens[index..], command, pending) == Prepend(Close, Parse(tokens[index + 1..], None, false))
    ensures tokens[index].Command? && !pending && tokens[index].letter != 'Z' ==>
              Parse(tokens[index..], command, pending) == Parse(tokens[index + 1..], Some(tokens[index].letter), true)
    ensures tokens[index].Number? && command.None? ==> Parse(tokens[index..], command, pending).None?
  {
    assert tokens[index..][1..] == tokens[index + 1..];
  }

  // The cursor after the operands at `index`; None when they are incomplete.
  method TakeOperands(tokens: seq<Token>, index: nat, command: char, cursor: Point) returns (r: Option<Point>)
    requires index < |tokens| && tokens[index].Number?
    ensures r.None? <==> index + Arity(command) > |tokens| || (Arity(command) == 2 && tokens[index + 1].Command?)
    ensures r.Some? ==> r.value == Moved(cursor, Operand(tokens, index, command))
  {
    var arity := Arity(command);
    if index + arity > |tokens| || exists i :: index <= i < index + arity && tokens[i].Command? {
      return None;
    }
    if command == 'M' || command == 'L' {
      return Some(Point(tokens[index].value, tokens[index + 1].value));
    } else if command == 'H' {
      return Some(Point(tokens[index].value, cursor.y));
    } else {
      return Some(Point(cursor.x, tokens[index].value));
    }
  }

  // The segments read so far and those still to be read make up the whole path, and the
  // coordinates collected have the extent of what the former draw.
  ghost predicate Parsing(tokens: seq<Token>, index: nat, command: Option<char>, pending: bool,
                          coordinates: seq<Point>, cursor: Point, done: seq<Segment>) {
    && index <= |tokens|
    && Parse(tokens, None, false) == Concat(done, Parse(tokens[index..], command, pending))
    && (command.Some? ==> TakesOperands(command.value))
    && (coordinates == [] ==> index == 0 || (command == Some('M') && pending))
    && Tracks(coordinates, cursor, done)
  }

  lemma ParsingStarts(tokens: seq<Token>)
    ensures Parsing(tokens, 0, None, false, [], Point(0.0, 0.0), [])
  {
    assert tokens[0..] == tokens;
    ConcatNone(Parse(tokens, None, false));
  }

  // A command letter: an error while one is pending, a closed subpath, or a new command.
  lemma CommandStep(tokens: seq<Token>, index: nat, command: Option<char>, pending: bool,
                    coordinates: seq<Point>, cursor: Point, done: seq<Segment>)
    requires Parsing(tokens, index, command, pending, coordinates, cursor, done)
    requires index < |tokens| && tokens[index].Command? && tokens[index].letter in ABSOLUTE
    requires coordinates == [] && index == 0 ==> tokens[0] == Command('M')
    ensures pending ==> Parse(tokens, None, false).None?
    ensures !pending && tokens[index].letter == 'Z' ==>
              Parsing(tokens, index + 1, None, false, coordinates, cursor, done + [Close])
    ensures !pending && tokens[index].letter != 'Z' ==>
              Parsing(tokens, index + 1, Some(tokens[index].letter), true, coordinates, cursor, done)
  {
    hide Parse, Tracks;
    ParseCommand(tokens, index, command, pending);
    if !pending && tokens[index].letter == 'Z' {
      ConcatStep(done, Close, Parse(tokens[index + 1..], None, false));
      CloseTracks(coordinates, cursor, done);
    }
  }

  // The operands of one segment: the point it moves to, if they are there.
  method TakeSegment(tokens: seq<Token>, index: nat, command: Option<char>, pending: bool, cursor: Point,
                     ghost coordinates: seq<Point>, ghost done: seq<Segment>)
    returns (moved: Option<Point>, ghost s: Segment)
    requires Parsing(tokens, index, command, pending, coordinates, cursor, done)
    requires index < |tokens| && tokens[index].Number? && (index == 0 ==> command.None?)
    ensures moved.None? ==> Parse(tokens, None, false).None?
    ensures moved.Some? ==>
              command.Some? && index + Arity(command.value) <= |tokens|
              && Parsing(tokens, index + Arity(command.value), if command == Some('M') then Some('L') else command,
                         false, coordinates + [moved.value], moved.value, done + [s])
  {
    hide Tracks, Parse;
    ParseCommand(tokens, index, command, pending);
    if command.None? {
      return None, Close;
    }
    ParseOperand(tokens, index, command.value, pending);
    moved := TakeOperands(tokens, index, command.value, cursor);
    s := Close;
    if moved.Some? {
      s := Operand(tokens, index, command.value);
      SegmentTracks(coordinates, cursor, done, s);
      ConcatStep(done, s, Parse(tokens[index + Arity(command.value)..],
                                Some(if command.value == 'M' then 'L' else command.value), false));
    }
  }

  lemma ParsingEnds(tokens: seq<Token>, command: Option<char>, pending: bool, coordinates: seq<Point>, cursor: Point,
                    done: seq<Segment>)
    requires Parsing(tokens, |tokens|, command, pending, coordinates, cursor, done) && tokens != []
    ensures Parse(tokens, None, false) == (if pending then None else Some(done))
    ensures coordinates == [] ==> pending
    ensures Tracks(coordinates, cursor, done)
  {
    ParseNothing(command, pending);
    assert tokens[|tokens|..] == [] && done + [] == done;
  }

  /** Fails exactly on unsupported paths; otherwise returns the tightest box of the drawn vertices. */
  method Bounds(tokens: seq<Token>) returns (r: Option<Box>)
    ensures r.None? <==> ParsePath(tokens).None?
    ensures r.Some? ==> IsBoundingBox(r.value, Vertices(ParsePath(tokens).value))
    ensures r.Some? <==> && tokens != [] && tokens[0] == Command('M')
                         && (forall t <- tokens :: t.Command? ==> t.letter in ['M', 'L', 'H', 'V', 'Z'])
                         && Parse(tokens, None, false).Some?
  {
    hide Tracks, Parse, Parsing, Vertices, IsBoundingBox;
    var bad := Unsupported(tokens);
    if bad {
      return None;
    }
    var coordinates: seq<Point> := [];
    var cursor := Point(0.0, 0.0);
    var command: Option<char> := None;
    var pending := false;
    var index := 0;
    ghost var done: seq<Segment> := [];
    ParsingStarts(tokens);
    while index < |tokens|
      invariant 0 <= index <= |tokens| && (index == 0 ==> command.None?)
      invariant Parsing(tokens, index, command, pending, coordinates, cursor, done)
      decreases |tokens| - index
    {
      var token := tokens[index];
      if token.Command? {
        CommandStep(tokens, index, command, pending, coordinates, cursor, done);
        if pending {
          return None;
        }
        if token.letter == 'Z' {
          command, pending := None, false;
          done := done + [Close];
        } else {
          command, pending := Some(token.letter), true;
        }
        index := index + 1;
        continue;
      }
      ghost var s;
      var moved;
      moved, s := TakeSegment(tokens, index, command, pending, cursor, coordinates, done);
      if moved.None? {
        return None;
      }
      cursor := moved.value;
      coordinates := coordinates + [cursor];
      done := done + [s];
      index := index + Arity(command.value);
      if command.value == 'M' {
        command := Some('L');
      }
      pending := false;
    }
    ParsingEnds(tokens, command, pending, coordinates, cursor, done);
    if coordinates == [] || pending {
      return None;
    }
    var box := BoxOf(coordinates);
    TracksSameBox(box, coordinates, cursor, done);
    return Some(box);
  }
}

/**
 * The scene-view gizmo of a trackable: its outline rectangle and the tiny
 * stroke font in which the marker's name is written beneath it. Each glyph
 * is a path over the letters U, D, L, R (move the pen one grid unit up,
 * down, left or right), '(' (put the pen down here) and ')' (draw a line
 * from where the pen went down to where it is now). Drawing a line becomes
 * emitting a Segment; the gizmo colour is left out.
 */
module TrackableGizmo {
  import opened Basics

  /** One Gizmos.DrawLine call. */
  datatype Segment = Segment(from: Vector3, to: Vector3)

  // ---------------------------------------------------------------- outline

  /**
   * DrawRectangle: four lines around `centre`, `height` along `up` and
   * `width` along `right`, starting from the corner centre - u/2 - r/2.
   */
  function Rectangle(centre: Vector3, up: Vector3, right: Vector3, width: real, height: real): (segs: seq<Segment>)
    ensures |segs| == 4
    ensures forall i :: 0 <= i < 3 ==> segs[i].to == segs[i + 1].from
    ensures segs[3].to == segs[0].from
    ensures segs[0].to == Add(segs[0].from, Scale(up, height))
    ensures segs[1].to == Add(segs[1].from, Scale(right, width))
    ensures segs[2].to == Sub(segs[2].from, Scale(up, height))
    ensures segs[3].to == Sub(segs[3].from, Scale(right, width))
    ensures Add(segs[0].from, Scale(Add(Scale(up, height), Scale(right, width)), 0.5)) == centre
  {
    var u := Scale(up, height);
    var r := Scale(right, width);
    var p := Sub(Sub(centre, Scale(u, 0.5)), Scale(r, 0.5));
    [Segment(p, Add(p, u)), Segment(Add(p, u), Add(Add(p, u), r)), Segment(Add(Add(p, u), r), Add(p, r)),
     Segment(Add(p, r), p)]
  }

  // ------------------------------------------------------------- the font

  /**
   * The glyph table `letters`: the path for each character from ' ' to '~'
   * except the lower-case letters; None where the dictionary has no key.
   */
  function Letters(c: char): Option<string>
  {
    match c
    case ' ' => Some("")
    case '!' => Some("RR(U)U(UU)")
    case '"' => Some("UUUUR(D)URR(D)")
    case '#' => Some("R(UUUU)RR(DDDD)UR(LLLL)UU(RRRR)")
    case '$' => Some("RR(UUUU)DR(LL)(D)(RR)(D)(LL)")
    case '%' => Some("RUUUU(D)DDD(RRUUUU)DDD(D)")
    case '&' => Some("RRRRUU(DDLL)(L)(UL)(RRRUU)(UL)(DL)(DDDRRR)")
    case '\'' => Some("RRUUU(U)")
    case '(' => Some("RRR(UL)(UU)(UR)")
    case ')' => Some("R(UR)(UU)(UL)")
    case '*' => Some("RR(UUUU)DL(DDRR)UU(DDLL)UL(RRRR)")
    case '+' => Some("RUU(RR)LU(DD)")
    case ',' => Some("R(UR)")
    case '-' => Some("UR(RR)")
    case '.' => Some("RR(U)")
    case '/' => Some("R(UUUURR)")
    case '0' => Some("(UUUU)(RRRR)(DDDD)(LLLL)")
    case '1' => Some("RR(UUUU)")
    case '2' => Some("UUU(UR)(RR)(DR)(DDDLLLL)(RRRR)")
    case '3' => Some("U(DR)(RR)(UR)(ULL)(URR)(UL)(LL)(DL)")
    case '4' => Some("RRRRU(LLLL)(UUURRR)(DDDD)")
    case '5' => Some("(RRRR)(UU)(LLLL)(UU)(RRRR)")
    case '6' => Some("UUUURRR(LL)(DDL)(DD)(RRRR)(UU)(LLLL)")
    case '7' => Some("UUUU(RRRR)(DDDDLL)")
    case '8' => Some("(UUUU)(RRRR)(DDDD)(LLLL)UU(RRRR)")
    case '9' => Some("R(RR)(UUR)(LLLL)(UU)(RRRR)(DD)")
    case ':' => Some("RR(U)UU(U)")
    case ';' => Some("R(UR)UU(U)")
    case '<' => Some("RRR(UULL)(RRUU)")
    case '=' => Some("UR(RR)UU(LL)")
    case '>' => Some("R(UURR)(LLUU)")
    case '?' => Some("RR(U)U(R)(UR)(UL)(L)(DL)")
    case '@' => Some("RRR(LL)(UL)(UU)(UR)(RR)(DR)(DD)(LL)(U)(R)(D)")
    case 'A' => Some("(UUU)(UR)(RR)(DR)(DDD)UU(LLLL)")
    case 'B' => Some("(UUUU)(RRR)(DR)(DD)(DL)(LLL)UU(RRRR)")
    case 'C' => Some("RRRRU(DL)(LL)(UL)(UU)(UR)(RR)(DR)")
    case 'D' => Some("(UUUU)(RRR)(DR)(DD)(DL)(LLL)")
    case 'E' => Some("(UUUU)(RRRR)DDLL(LL)DD(RRRR)")
    case 'F' => Some("(UUUU)(RRRR)DDLL(LL)")
    case 'G' => Some("UURR(RR)(DD)(LLL)(UL)(UU)(UR)(RR)(DR)")
    case 'H' => Some("(UUUU)DD(RRRR)UU(DDDD)")
    case 'I' => Some("(RRRR)LL(UUUU)LL(RRRR)")
    case 'J' => Some("U(D)(RR)(UUUU)LL(RRRR)")
    case 'K' => Some("(UUUU)RRRR(DDLLLL)(DDRRRR)")
    case 'L' => Some("UUUU(DDDD)(RRRR)")
    case 'M' => Some("(UUUU)(DDRR)(UURR)(DDDD)")
    case 'N' => Some("(UUUU)(DDDDRRRR)(UUUU)")
    case 'O' => Some("U(UU)(UR)(RR)(DR)(DD)(DL)(LL)(UL)")
    case 'P' => Some("(UUUU)(RRR)(DR)(D)(DL)(LLL)")
    case 'Q' => Some("U(UU)(UR)(RR)(DR)(DD)(DL)(LL)(UL)RRR(DR)")
    case 'R' => Some("(UUUU)(RRR)(DR)(D)(DL)(LLL)RRR(DR)")
    case 'S' => Some("U(DR)(RR)(UR)(UL)(LL)(UL)(UR)(RR)(DR)")
    case 'T' => Some("RR(UUUU)LL(RRRR)")
    case 'U' => Some("UUUU(DDDD)(RRR)(UR)(UUU)")
    case 'V' => Some("UUUU(DDDDRR)(UUUURR)")
    case 'W' => Some("UUUU(DDDDR)(UUR)(DDR)(UUUUR)")
    case 'X' => Some("(UUUURRRR)LLLL(DDDDRRRR)")
    case 'Y' => Some("UUUU(DDRR)(UURR)DDLL(DD)")
    case 'Z' => Some("UUUU(RRRR)(DDDDLLLL)(RRRR)")
    case '[' => Some("RRR(L)(UUUU)(R)")
    case '\\' => Some("RRR(UUUULL)")
    case ']' => Some("R(R)(UUUU)(L)")
    case '^' => Some("UUR(UUR)(DDR)")
    case '_' => Some("(RRRR)")
    case '`' => Some("UUUURR(DR)")
    case '{' => Some("RRR(L)(U)(LU)(RU)(U)(R)")
    case '|' => Some("RR(UUUU)")
    case '}' => Some("R(R)(U)(RU)(LU)(U)(L)")
    case '~' => Some("UU(UR)(DDRR)(UR)")
    case _ => None
  }

  /** Is `c` a printable ASCII character other than a lower-case letter? */
  predicate Drawable(c: char)
  {
    ' ' <= c <= '~' && !('a' <= c <= 'z')
  }

  /** Exactly the printable characters other than the lower-case letters have a glyph. */
  lemma LettersDomain(c: char)
    ensures Letters(c).Some? <==> Drawable(c)
  {
    if ' ' <= c <= '@' {
      GlyphsBelowLetters(c);
    } else if 'A' <= c <= '`' {
      GlyphsOfUpperCase(c);
    } else if '{' <= c <= '~' {
      GlyphsAfterLetters(c);
    } else {
      NoGlyphOutside(c);
    }
  }

  lemma GlyphsBelowLetters(c: char)
    requires ' ' <= c <= '@'
    ensures Letters(c).Some?
  {
  }

  lemma GlyphsOfUpperCase(c: char)
    requires 'A' <= c <= '`'
    ensures Letters(c).Some?
  {
  }

  lemma GlyphsAfterLetters(c: char)
    requires '{' <= c <= '~'
    ensures Letters(c).Some?
  {
  }

  lemma NoGlyphOutside(c: char)
    requires !Drawable(c)
    ensures Letters(c).None?
  {
  }

  // ------------------------------------------------ the path language, on the grid

  /** A pen position in grid units: `right` steps along right, `up` steps along forward. */
  datatype GridPoint = GridPoint(right: int, up: int)

  /** The interpreter's state: the pen-down point, the current point and the lines drawn so far. */
  datatype Pen = Pen(down: GridPoint, current: GridPoint, strokes: seq<(GridPoint, GridPoint)>)

  /** The effect of one path character; any other character is ignored. */
  function PenStep(p: Pen, c: char): Pen
  {
    match c
    case '(' => p.(down := p.current)
    case ')' => p.(strokes := p.strokes + [(p.down, p.current)])
    case 'U' => p.(current := GridPoint(p.current.right, p.current.up + 1))
    case 'D' => p.(current := GridPoint(p.current.right, p.current.up - 1))
    case 'R' => p.(current := GridPoint(p.current.right + 1, p.current.up))
    case 'L' => p.(current := GridPoint(p.current.right - 1, p.current.up))
    case _ => p
  }

  /** The pen after running `path` from the origin with nothing drawn. */
  function Trace(path: string): Pen
  {
    if path == [] then Pen(GridPoint(0, 0), GridPoint(0, 0), [])
    else PenStep(Trace(path[..|path| - 1]), path[|path| - 1])
  }

  /** A glyph draws exactly one line per ')' in its path. */
  lemma {:induction false} TraceStrokeCount(path: string)
    ensures |Trace(path).strokes| == multiset(path)[')']
  {
    if path != [] {
      var n := |path| - 1;
      assert path == path[..n] + [path[n]];
      TraceStrokeCount(path[..n]);
    }
  }

  /** Where the pen ends, in grid units: (#R - #L, #U - #D). */
  lemma {:induction false} TraceDisplacement(path: string)
    ensures Trace(path).current
         == GridPoint(multiset(path)['R'] as int - multiset(path)['L'] as int,
                      multiset(path)['U'] as int - multiset(path)['D'] as int)
  {
    if path != [] {
      var n := |path| - 1;
      assert path == path[..n] + [path[n]];
      TraceDisplacement(path[..n]);
    }
  }

  /** Every line ends at a point the pen passed: its end is where the pen was when ')' was read. */
  lemma {:induction false} TraceStrokesEndAtPen(path: string, k: nat)
    requires k < |Trace(path).strokes|
    ensures exists n :: 0 <= n < |path| && path[n] == ')' && Trace(path[..n]).current == Trace(path).strokes[k].1
  {
    var m := |path| - 1;
    var prefix := path[..m];
    assert path[..m] == prefix;
    if k < |Trace(prefix).strokes| {
      TraceStrokesEndAtPen(prefix, k);
      var n :| 0 <= n < |prefix| && prefix[n] == ')' && Trace(prefix[..n]).current == Trace(prefix).strokes[k].1;
      assert prefix[..n] == path[..n];
    } else {
      assert path[m] == ')';
    }
  }

  /** The world point of a grid point, for pen steps f (along forward) and r (along right). */
  function At(origin: Vector3, f: Vector3, r: Vector3, g: GridPoint): Vector3
  {
    Add(Add(origin, Scale(r, g.right as real)), Scale(f, g.up as real))
  }

  /** The grid lines placed in the world. */
  function ToWorld(strokes: seq<(GridPoint, GridPoint)>, origin: Vector3, f: Vector3, r: Vector3): (segs: seq<Segment>)
    ensures |segs| == |strokes|
    ensures forall i :: 0 <= i < |strokes| ==>
      segs[i] == Segment(At(origin, f, r, strokes[i].0), At(origin, f, r, strokes[i].1))
  {
    seq(|strokes|, i requires 0 <= i < |strokes| => Segment(At(origin, f, r, strokes[i].0), At(origin, f, r, strokes[i].1)))
  }

  /** The lines a path draws from `origin` with pen steps forward*size and right*size. */
  function PathLines(path: string, size: real, origin: Vector3, forward: Vector3, right: Vector3): seq<Segment>
  {
    ToWorld(Trace(path).strokes, origin, Scale(forward, size), Scale(right, size))
  }

  /**
   * The lines of the glyph for `letter` in the glyph table `letters` (the
   * gizmo's is Letters), or None for a character the table lacks
   * (KeyNotFoundException).
   */
  function Glyph(letters: char -> Option<string>, letter: char, size: real, origin: Vector3, forward: Vector3,
                 right: Vector3): Option<seq<Segment>>
  {
    match letters(letter)
    case None => None
    case Some(path) => Some(PathLines(path, size, origin, forward, right))
  }

  /** The space has the empty path, so it draws nothing. */
  lemma SpaceDrawsNothing(size: real, origin: Vector3, forward: Vector3, right: Vector3)
    ensures Letters(' ') == Some("")
    ensures Glyph(Letters, ' ', size, origin, forward, right) == Some([])
  {
  }

  /** One pen step in the world is one grid step on the grid. */
  lemma AtMoves(origin: Vector3, f: Vector3, r: Vector3, g: GridPoint)
    ensures At(origin, f, r, GridPoint(g.right, g.up + 1)) == Add(At(origin, f, r, g), f)
    ensures At(origin, f, r, GridPoint(g.right, g.up - 1)) == Sub(At(origin, f, r, g), f)
    ensures At(origin, f, r, GridPoint(g.right + 1, g.up)) == Add(At(origin, f, r, g), r)
    ensures At(origin, f, r, GridPoint(g.right - 1, g.up)) == Sub(At(origin, f, r, g), r)
  {
    var u, v := g.up as real, g.right as real;
    assert f.x * (u + 1.0) == f.x * u + f.x && f.y * (u + 1.0) == f.y * u + f.y && f.z * (u + 1.0) == f.z * u + f.z;
    assert f.x * (u - 1.0) == f.x * u - f.x && f.y * (u - 1.0) == f.y * u - f.y && f.z * (u - 1.0) == f.z * u - f.z;
    assert r.x * (v + 1.0) == r.x * v + r.x && r.y * (v + 1.0) == r.y * v + r.y && r.z * (v + 1.0) == r.z * v + r.z;
    assert r.x * (v - 1.0) == r.x * v - r.x && r.y * (v - 1.0) == r.y * v - r.y && r.z * (v - 1.0) == r.z * v - r.z;
  }

  /** Reading one more character is one more pen step. */
  lemma TraceSnoc(path: string, i: nat)
    requires i < |path|
    ensures Trace(path[..i + 1]) == PenStep(Trace(path[..i]), path[i])
  {
    assert path[..i + 1][..i] == path[..i];
  }

  /** One more grid line is one more world line at the end. */
  lemma ToWorldSnoc(strokes: seq<(GridPoint, GridPoint)>, st: (GridPoint, GridPoint), origin: Vector3, f: Vector3,
                    r: Vector3)
    ensures ToWorld(strokes + [st], origin, f, r)
         == ToWorld(strokes, origin, f, r) + [Segment(At(origin, f, r, st.0), At(origin, f, r, st.1))]
  {
  }

  /** The loop of DrawLetter over one path: `current` moves, `down` is set at '(', a line is drawn at ')'. */
  method RunPath(path: string, size: real, origin: Vector3, forward: Vector3, right: Vector3)
    returns (segments: seq<Segment>)
    ensures segments == PathLines(path, size, origin, forward, right)
    ensures |segments| == multiset(path)[')']
  {
    var f := Scale(forward, size);
    var rt := Scale(right, size);
    var down := origin;
    var current := origin;
    segments := [];
    for i := 0 to |path|
      invariant down == At(origin, f, rt, Trace(path[..i]).down)
      invariant current == At(origin, f, rt, Trace(path[..i]).current)
      invariant segments == ToWorld(Trace(path[..i]).strokes, origin, f, rt)
    {
      var pen := Trace(path[..i]);
      TraceSnoc(path, i);
      AtMoves(origin, f, rt, pen.current);
      var c := path[i];
      if c == '(' {
        down := current;
      } else if c == ')' {
        ToWorldSnoc(pen.strokes, (pen.down, pen.current), origin, f, rt);
        segments := segments + [Segment(down, current)];
      } else if c == 'U' {
        current := Add(current, f);
      } else if c == 'D' {
        current := Sub(current, f);
      } else if c == 'R' {
        current := Add(current, rt);
      } else if c == 'L' {
        current := Sub(current, rt);
      }
    }
    assert path[..|path|] == path;
    TraceStrokeCount(path);
  }

  /** DrawLetter: looks the path up, failing for a missing character, and runs it. */
  method DrawLetter(letters: char -> Option<string>, letter: char, size: real, origin: Vector3, forward: Vector3,
                    right: Vector3)
    returns (r: Option<seq<Segment>>)
    ensures r == Glyph(letters, letter, size, origin, forward, right)
    ensures r.Some? <==> letters(letter).Some?
    ensures r.Some? ==> |r.value| == multiset(letters(letter).value)[')']
  {
    var entry := letters(letter);
    if entry.None? {
      return None;
    }
    var segments := RunPath(entry.value, size, origin, forward, right);
    r := Some(segments);
  }

  // ----------------------------------------------------------------- words

  /** ToUpper on the ASCII letters; every other character is kept. */
  function ToUpper(word: string): (u: string)
    ensures |u| == |word|
    ensures forall i :: 0 <= i < |word| ==>
      u[i] == (if 'a' <= word[i] <= 'z' then (word[i] as int - 32) as char else word[i])
  {
    seq(|word|, i requires 0 <= i < |word| => if 'a' <= word[i] <= 'z' then (word[i] as int - 32) as char else word[i])
  }

  /** The pen origin of the k-th character: six grid units of `right` per character. */
  function CharOrigin(origin: Vector3, right: Vector3, size: real, k: nat): Vector3
  {
    Add(origin, Scale(Scale(Scale(right, size), 6.0), k as real))
  }

  /** The glyphs of `word` in order, character k drawn from CharOrigin(.., k); None when one is missing. */
  function Word(letters: char -> Option<string>, word: string, size: real, origin: Vector3, forward: Vector3,
                right: Vector3): Option<seq<Segment>>
  {
    if word == [] then Some([])
    else
      var n := |word| - 1;
      match Word(letters, word[..n], size, origin, forward, right)
      case None => None
      case Some(segs) =>
        match Glyph(letters, word[n], size, CharOrigin(origin, right, size, n), forward, right)
        case None => None
        case Some(g) => Some(segs + g)
  }

  /** A word can be drawn exactly when each of its characters has a glyph. */
  lemma {:induction false} WordDefined(letters: char -> Option<string>, word: string, size: real, origin: Vector3,
                                       forward: Vector3, right: Vector3)
    ensures Word(letters, word, size, origin, forward, right).Some?
        <==> forall i :: 0 <= i < |word| ==> letters(word[i]).Some?
  {
    if word != [] {
      var n := |word| - 1;
      WordDefined(letters, word[..n], size, origin, forward, right);
      assert forall i :: 0 <= i < n ==> word[..n][i] == word[i];
    }
  }

  /** Upper-casing makes a lower-case letter drawable. */
  lemma UpperOfLowerDrawable(word: string, i: nat)
    requires i < |word| && 'a' <= word[i] <= 'z'
    ensures Drawable(ToUpper(word)[i])
  {
  }

  /** The origin advances by six grid units per character. */
  lemma CharOriginStep(origin: Vector3, right: Vector3, size: real, k: nat)
    ensures CharOrigin(origin, right, size, k + 1) == Add(CharOrigin(origin, right, size, k), Scale(Scale(right, size), 6.0))
  {
    var s := Scale(Scale(right, size), 6.0);
    var kr := k as real;
    assert s.x * (kr + 1.0) == s.x * kr + s.x && s.y * (kr + 1.0) == s.y * kr + s.y && s.z * (kr + 1.0) == s.z * kr + s.z;
  }

  /** DrawWord: each character of the upper-cased word, advancing the origin by right*size*6. */
  method DrawWord(letters: char -> Option<string>, word: string, size: real, origin: Vector3, forward: Vector3,
                  right: Vector3)
    returns (r: Option<seq<Segment>>)
    ensures r == Word(letters, ToUpper(word), size, origin, forward, right)
  {
    var upper := ToUpper(word);
    var o := origin;
    var segments: seq<Segment> := [];
    for i := 0 to |upper|
      invariant o == CharOrigin(origin, right, size, i)
      invariant Word(letters, upper[..i], size, origin, forward, right) == Some(segments)
    {
      assert upper[..i + 1][..i] == upper[..i];
      var glyph := DrawLetter(letters, upper[i], size, o, forward, right);
      if glyph.None? {
        WordDefined(letters, upper, size, origin, forward, right);
        return None;
      }
      segments := segments + glyph.value;
      CharOriginStep(origin, right, size, i);
      o := Add(o, Scale(Scale(right, size), 6.0));
    }
    assert upper[..|upper|] == upper;
    r := Some(segments);
  }

  /** With the gizmo's table, any word of printable ASCII characters is drawn in full, lower case included. */
  lemma PrintableWordDrawn(word: string, size: real, origin: Vector3, forward: Vector3, right: Vector3)
    requires forall i :: 0 <= i < |word| ==> ' ' <= word[i] <= '~'
    ensures Word(Letters, ToUpper(word), size, origin, forward, right).Some?
  {
    var upper := ToUpper(word);
    forall i | 0 <= i < |upper|
      ensures Letters(upper[i]).Some?
    {
      LettersDomain(upper[i]);
    }
    WordDefined(Letters, upper, size, origin, forward, right);
  }
}

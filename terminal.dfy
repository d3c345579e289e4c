/**
  The scrolling text terminal drawn on the 320x240 display.

  Only the cursor arithmetic is modelled. Drawing a character is recorded
  as a Glyph operation at the cursor, and the animated screen clear that
  precedes a wrap back to the top as a Clear operation, in a ghost log.
  The font is 6x12 pixels with no extra spacing between characters.
 */
module Terminal {
  import opened Types

  const CharWidth := 6
  const CharHeight := 12
  const CharSpacing := 0
  const ScreenWidth := 320
  const ScreenHeight := 240

  datatype Point = Point(x: int, y: int)

  datatype DrawOp = Glyph(at: Point, c: char) | Clear

  /** Where the cursor ends up and what was drawn on the way. */
  datatype Written = Written(cursor: Point, ops: seq<DrawOp>)

  /**
    The cursor invariant: never left of the screen, never below its last line,
    and at most one character past its right edge.
   */
  predicate OnScreen(p: Point)
  {
    0 <= p.x < ScreenWidth + CharWidth + CharSpacing && 0 <= p.y < ScreenHeight
  }

  predicate Drawable(p: Point)
  {
    0 <= p.x < ScreenWidth && 0 <= p.y < ScreenHeight
  }

  predicate GlyphsDrawable(ops: seq<DrawOp>)
  {
    forall i :: 0 <= i < |ops| && ops[i].Glyph? ==> Drawable(ops[i].at)
  }

  /** The characters drawn by `ops`, in order. */
  function Glyphs(ops: seq<DrawOp>): string
  {
    if ops == [] then []
    else Glyphs(ops[..|ops| - 1]) + (if ops[|ops| - 1].Glyph? then [ops[|ops| - 1].c] else [])
  }

  /** The characters of `s` other than newlines, in order. */
  function Printable(s: string): string
  {
    if s == [] then []
    else Printable(s[..|s| - 1]) + (if s[|s| - 1] == '\n' then [] else [s[|s| - 1]])
  }

  /** The effect of writing one character with the cursor at `cursor`. */
  function Step(cursor: Point, c: char): (w: Written)
    ensures OnScreen(cursor) ==> OnScreen(w.cursor) && GlyphsDrawable(w.ops)
    ensures c == '\n' ==> w.ops == [] || w.ops == [Clear]
    ensures c == '\n' ==> w.cursor.x == 0
    ensures c != '\n' ==> |w.ops| > 0 && var g := w.ops[|w.ops| - 1];
              g.Glyph? && g.c == c && w.cursor == Point(g.at.x + CharWidth + CharSpacing, g.at.y)
    ensures (Clear in w.ops) <==> (cursor.y >= ScreenHeight
                                   || ((cursor.x >= ScreenWidth || c == '\n') && cursor.y + CharHeight >= ScreenHeight))
    ensures Clear in w.ops && c != '\n' ==> w.ops == [Clear, Glyph(Point(0, 0), c)]
    ensures cursor.x < ScreenWidth && 0 <= cursor.y < ScreenHeight && c != '\n' ==>
              w == Written(Point(cursor.x + CharWidth + CharSpacing, cursor.y), [Glyph(cursor, c)])
    ensures c == '\n' && cursor.y + CharHeight < ScreenHeight ==> w == Written(Point(0, cursor.y + CharHeight), [])
    ensures c != '\n' && cursor.x >= ScreenWidth && 0 <= cursor.y && cursor.y + CharHeight < ScreenHeight ==>
              w == Written(Point(CharWidth + CharSpacing, cursor.y + CharHeight), [Glyph(Point(0, cursor.y + CharHeight), c)])
    ensures Clear in w.ops ==> w.cursor == (if c == '\n' then Point(0, 0) else Point(CharWidth + CharSpacing, 0))
  {
    var wrapped := if cursor.x >= ScreenWidth || c == '\n' then Point(0, cursor.y + CharHeight) else cursor;
    var clears := if wrapped.y >= ScreenHeight then [Clear] else [];
    var at := if wrapped.y >= ScreenHeight then Point(0, 0) else wrapped;
    if c == '\n' then Written(at, clears)
    else Written(Point(at.x + CharWidth + CharSpacing, at.y), clears + [Glyph(at, c)])
  }

  /** The effect of writing the characters of `s` one after another. */
  function Run(cursor: Point, s: string): (w: Written)
  {
    if s == [] then Written(cursor, [])
    else
      var before := Run(cursor, s[..|s| - 1]);
      var last := Step(before.cursor, s[|s| - 1]);
      Written(last.cursor, before.ops + last.ops)
  }

  /**
    Writing character `i` of `s` after its first `i` characters extends the
    run by one step, and a log holding `drawn` before the run by that step's
    operations.
   */
  lemma RunExtends(cursor: Point, s: string, i: nat, drawn: seq<DrawOp>)
    requires i < |s|
    ensures var before := Run(cursor, s[..i]);
      var last := Step(before.cursor, s[i]);
      && Run(cursor, s[..i + 1]).cursor == last.cursor
      && drawn + Run(cursor, s[..i + 1]).ops == (drawn + before.ops) + last.ops
  {
    assert s[..i + 1][..i] == s[..i];
  }

  lemma GlyphsDrawableAppend(a: seq<DrawOp>, b: seq<DrawOp>)
    requires GlyphsDrawable(a) && GlyphsDrawable(b)
    ensures GlyphsDrawable(a + b)
  {
    forall i | 0 <= i < |a + b| && (a + b)[i].Glyph?
      ensures Drawable((a + b)[i].at)
    {
      if i >= |a| {
        assert (a + b)[i] == b[i - |a|];
      }
    }
  }

  lemma {:induction false} GlyphsAppend(a: seq<DrawOp>, b: seq<DrawOp>)
    ensures Glyphs(a + b) == Glyphs(a) + Glyphs(b)
    decreases |b|
  {
    if b == [] {
      assert a + b == a;
    } else {
      var b' := b[..|b| - 1];
      assert (a + b)[..|a + b| - 1] == a + b';
      GlyphsAppend(a, b');
    }
  }

  /** One character draws itself, unless it is a newline, which draws nothing. */
  lemma GlyphsOfStep(cursor: Point, c: char)
    ensures Glyphs(Step(cursor, c).ops) == if c == '\n' then [] else [c]
  {
    var ops := Step(cursor, c).ops;
    if c == '\n' {
      if ops == [Clear] {
        assert ops[..0] == [];
      }
    } else {
      var clears := if |ops| == 2 then [Clear] else [];
      var glyph := [ops[|ops| - 1]];
      assert ops == clears + glyph;
      GlyphsAppend(clears, glyph);
      assert Glyphs(clears) == [] by {
        if clears == [Clear] {
          assert clears[..0] == [];
        }
      }
      assert glyph[..0] == [];
    }
  }

  /**
    Writing any string from an on-screen cursor keeps the cursor on screen
    and draws every character at a position inside the 320x240 display.
   */
  lemma {:induction false} RunStaysOnScreen(cursor: Point, s: string)
    requires OnScreen(cursor)
    ensures OnScreen(Run(cursor, s).cursor) && GlyphsDrawable(Run(cursor, s).ops)
    decreases |s|
  {
    if s != [] {
      var before := Run(cursor, s[..|s| - 1]);
      RunStaysOnScreen(cursor, s[..|s| - 1]);
      GlyphsDrawableAppend(before.ops, Step(before.cursor, s[|s| - 1]).ops);
    }
  }

  /** Writing a string draws exactly its non-newline characters, in order. */
  lemma {:induction false} RunDrawsPrintable(cursor: Point, s: string)
    ensures Glyphs(Run(cursor, s).ops) == Printable(s)
    decreases |s|
  {
    if s != [] {
      var before := Run(cursor, s[..|s| - 1]);
      var last := Step(before.cursor, s[|s| - 1]);
      RunDrawsPrintable(cursor, s[..|s| - 1]);
      GlyphsAppend(before.ops, last.ops);
      GlyphsOfStep(before.cursor, s[|s| - 1]);
    }
  }

  /** The characters of a byte buffer, each byte read as the code point of the same value. */
  function BytesAsChars(buf: seq<u8>): (s: string)
    ensures |s| == |buf|
    ensures forall i :: 0 <= i < |buf| ==> s[i] as int == buf[i] as int
  {
    seq(|buf|, i requires 0 <= i < |buf| => (buf[i] as int) as char)
  }

  class Terminal {
    var cursor: Point
    ghost var screen: seq<DrawOp>

    ghost predicate Valid()
      reads this
    {
      OnScreen(cursor) && GlyphsDrawable(screen)
    }

    /** The cursor starts on the first text line, at (0, 8); nothing is drawn yet. */
    constructor ()
      ensures Valid()
      ensures cursor == Point(0, 8) && screen == []
    {
      cursor := Point(0, 8);
      screen := [];
    }

    method WriteCharacter(c: char)
      requires Valid()
      modifies this
      ensures Valid()
      ensures cursor == Step(old(cursor), c).cursor
      ensures screen == old(screen) + Step(old(cursor), c).ops
    {
      ghost var start := cursor;
      if cursor.x >= ScreenWidth || c == '\n' {
        cursor := Point(0, cursor.y + CharHeight);
      }
      if cursor.y >= ScreenHeight {
        screen := screen + [Clear];
        cursor := Point(0, 0);
      }
      if c != '\n' {
        screen := screen + [Glyph(cursor, c)];
        cursor := cursor.(x := cursor.x + CharWidth + CharSpacing);
      }
      assert screen == old(screen) + Step(start, c).ops;
      GlyphsDrawableAppend(old(screen), Step(start, c).ops);
    }

    method WriteStr(s: string)
      requires Valid()
      modifies this
      ensures Valid()
      ensures cursor == Run(old(cursor), s).cursor
      ensures screen == old(screen) + Run(old(cursor), s).ops
    {
      assert s[..|s|] == s;
      ghost var start, drawn := cursor, screen;
      var i := 0;
      while i < |s|
        invariant 0 <= i <= |s|
        invariant Valid()
        invariant cursor == Run(start, s[..i]).cursor && screen == drawn + Run(start, s[..i]).ops
      {
        RunExtends(start, s, i, drawn);
        WriteCharacter(s[i]);
        i := i + 1;
      }
    }

    /** Writes the first `count` bytes of a 32-byte segment, or all 32 if `count` is larger. */
    method Write(buf: seq<u8>, count: nat)
      requires Valid()
      requires |buf| == 32
      modifies this
      ensures Valid()
      ensures var shown := BytesAsChars(buf)[..if count < |buf| then count else |buf|];
        cursor == Run(old(cursor), shown).cursor && screen == old(screen) + Run(old(cursor), shown).ops
    {
      var text := BytesAsChars(buf);
      ghost var start, drawn := cursor, screen;
      var i := 0;
      while i < |buf|
        invariant 0 <= i <= |buf| && i <= count
        invariant Valid()
        invariant cursor == Run(start, text[..i]).cursor && screen == drawn + Run(start, text[..i]).ops
      {
        if i >= count {
          break;
        }
        RunExtends(start, text, i, drawn);
        WriteCharacter(text[i]);
        i := i + 1;
      }
    }
  }
}

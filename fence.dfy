/**
 * The fence-cleaning step applied to the generation service's reply
 * (GenerateFlowchart.js line 92): the global regular-expression replacement
 * of /^```plantuml\s*|\s*```/ by the empty string, followed by trim().
 *
 * Semantics of the replacement, as JavaScript's regex engine runs it:
 *  - the first alternative is anchored by ^ without the multiline flag, so it
 *    can match only at index 0: the text "```plantuml" and the whitespace after it;
 *  - the second alternative, tried at each position p left to right, matches
 *    exactly when the longest whitespace run starting at p is followed by "```"
 *    (backtracking to a shorter run cannot help, a backtick is not whitespace);
 *    the match is removed and the scan resumes after it, otherwise the
 *    character at p is kept and the scan moves on by one.
 */
module Fence {

  /** ECMAScript's WhiteSpace and LineTerminator characters: the set `\s`
      matches and String.prototype.trim removes. */
  predicate IsSpace(c: char)
    ensures IsSpace(c) ==> c != '`'
    ensures IsSpace(c) ==> !('0' <= c <= '9') && !('A' <= c <= 'Z') && !('a' <= c <= 'z')
  {
    c == '\t' || c == '\n' || c == '\U{000B}' || c == '\U{000C}' || c == '\r' || c == ' '
    || c == '\U{00A0}' || c == '\U{1680}' || ('\U{2000}' <= c <= '\U{200A}')
    || c == '\U{2028}' || c == '\U{2029}' || c == '\U{202F}' || c == '\U{205F}'
    || c == '\U{3000}' || c == '\U{FEFF}'
  }

  /** A fence marker. */
  const Tick: string := "```"

  /** The opening fence with its language tag, matched only at index 0. */
  const OpenTag: string := Tick + Tag

  /** The language tag of the opening fence. */
  const Tag: string := "plantuml"

  /** A fence marker starts at index i of s. */
  predicate TickAt(s: string, i: int)
    requires 0 <= i && i + 3 <= |s|
  {
    s[i] == '`' && s[i + 1] == '`' && s[i + 2] == '`'
  }

  /** A fence marker starts at index i of s, within bounds. */
  predicate TickFrom(s: string, i: nat) {
    i + 3 <= |s| && TickAt(s, i)
  }

  /** s contains "```" somewhere. */
  predicate HasTick(s: string) {
    exists i :: 0 <= i && i + 3 <= |s| && TickAt(s, i)
  }

  /** Whether the first character is whitespace, with false for the empty string. */
  predicate StartsWithSpace(s: string) {
    s != [] && IsSpace(s[0])
  }

  /** Whether the last character is whitespace, with false for the empty string. */
  predicate EndsWithSpace(s: string) {
    s != [] && IsSpace(s[|s| - 1])
  }

  /** The length of the longest run of whitespace at the start of s: what a
      greedy \s* consumes there. */
  function SpaceRun(s: string): (k: nat)
    ensures k <= |s|
    ensures forall i :: 0 <= i < k ==> IsSpace(s[i])
    ensures k < |s| ==> !IsSpace(s[k])
  {
    if s != [] && IsSpace(s[0]) then 1 + SpaceRun(s[1..]) else 0
  }

  /** The second alternative, \s*```, replaced globally by the empty string,
      scanning s from its first character. */
  function StripTicks(s: string): (r: string)
    ensures |r| <= |s|
    decreases |s|
  {
    if s == [] then []
    else
      var k := SpaceRun(s);
      if TickFrom(s, k) then StripTicks(s[k + 3..])
      else [s[0]] + StripTicks(s[1..])
  }

  /** The whole replacement: at index 0 the first alternative is tried first;
      after it, only the second alternative can match. */
  function Strip(s: string): (r: string)
    ensures |r| <= |s|
  {
    if OpenTag <= s then
      var rest := s[|OpenTag|..];
      StripTicks(rest[SpaceRun(rest)..])
    else
      StripTicks(s)
  }

  /** s without its trailing whitespace. */
  function TrimEnd(s: string): (r: string)
    ensures |r| <= |s| && r == s[..|r|]
    ensures forall i :: |r| <= i < |s| ==> IsSpace(s[i])
    ensures !EndsWithSpace(r)
    decreases |s|
  {
    if EndsWithSpace(s) then TrimEnd(s[..|s| - 1]) else s
  }

  /** String.prototype.trim: s without its leading and trailing whitespace. */
  function Trim(s: string): (r: string)
    ensures |r| <= |s|
    ensures !StartsWithSpace(r) && !EndsWithSpace(r)
  {
    TrimEnd(s[SpaceRun(s)..])
  }

  /** The cleaned diagram text stored as the document. */
  function Clean(s: string): (r: string)
    ensures |r| <= |s|
    ensures !StartsWithSpace(r) && !EndsWithSpace(r)
  {
    Trim(Strip(s))
  }

  // ---------------------------------------------------------------------------
  // Trim leaves text that has no surrounding whitespace alone, and only that.

  lemma TrimEndIdentity(s: string)
    ensures TrimEnd(s) == s <==> !EndsWithSpace(s)
  {
  }

  lemma TrimIdentity(s: string)
    ensures Trim(s) == s <==> !StartsWithSpace(s) && !EndsWithSpace(s)
  {
    if !StartsWithSpace(s) {
      assert SpaceRun(s) == 0;
      assert s[0..] == s;
      TrimEndIdentity(s);
    }
  }

  /** trim() takes a contiguous slice of s and drops only whitespace on
      either side of it. */
  lemma TrimIsSlice(s: string)
    ensures var r := Trim(s);
      exists a {:trigger s[a..]} :: 0 <= a && a + |r| <= |s| && r == s[a..][..|r|]
        && (forall i :: 0 <= i < a ==> IsSpace(s[i]))
        && (forall i :: a + |r| <= i < |s| ==> IsSpace(s[i]))
  {
    var r := Trim(s);
    var a := SpaceRun(s);
    var t := s[a..];
    assert r == TrimEnd(t) == t[..|r|];
    forall i | a + |r| <= i < |s|
      ensures IsSpace(s[i])
    {
      assert s[i] == t[i - a];
    }
  }

  lemma TrimIdempotent(s: string)
    ensures Trim(Trim(s)) == Trim(s)
  {
    TrimIdentity(Trim(s));
  }

  // ---------------------------------------------------------------------------
  // Text without any "```" is only trimmed.

  lemma {:induction false} NoTickStripTicks(s: string)
    requires !HasTick(s)
    ensures StripTicks(s) == s
    decreases |s|
  {
    if s != [] {
      var k := SpaceRun(s);
      if TickFrom(s, k) {
        assert false;
      }
      forall i | 0 <= i && i + 3 <= |s[1..]|
        ensures !TickAt(s[1..], i)
      {
        if TickAt(s[1..], i) {
          assert TickAt(s, i + 1);
          assert false;
        }
      }
      NoTickStripTicks(s[1..]);
      assert [s[0]] + s[1..] == s;
    }
  }

  /** Without any fence marker, cleaning is exactly trim(). */
  lemma NoTickClean(s: string)
    requires !HasTick(s)
    ensures Clean(s) == Trim(s)
  {
    if OpenTag <= s {
      assert TickAt(s, 0);
    }
    NoTickStripTicks(s);
  }

  /** The converse: an unfenced, untrimmed-free text comes back unchanged. */
  lemma NoTickCleanIdentity(s: string)
    requires !HasTick(s) && !StartsWithSpace(s) && !EndsWithSpace(s)
    ensures Clean(s) == s
  {
    NoTickClean(s);
    TrimIdentity(s);
  }

  // ---------------------------------------------------------------------------
  // Cleaning removes only whitespace, backticks and the leading "plantuml" tag.

  /** The characters of s that are neither whitespace nor backticks, in order. */
  function Solid(s: string): (r: string)
    decreases |s|
  {
    if s == [] then []
    else (if IsSpace(s[0]) || s[0] == '`' then [] else [s[0]]) + Solid(s[1..])
  }

  lemma {:induction false} SolidAppend(a: string, b: string)
    ensures Solid(a + b) == Solid(a) + Solid(b)
    decreases |a|
  {
    if a == [] {
      assert a + b == b;
    } else {
      assert (a + b)[0] == a[0];
      assert (a + b)[1..] == a[1..] + b;
      SolidAppend(a[1..], b);
    }
  }

  /** Whitespace and backticks have no solid characters. */
  lemma {:induction false} SolidOfFiller(s: string)
    requires forall i :: 0 <= i < |s| ==> IsSpace(s[i]) || s[i] == '`'
    ensures Solid(s) == []
    decreases |s|
  {
    if s != [] {
      SolidOfFiller(s[1..]);
    }
  }

  lemma {:induction false} StripTicksKeepsSolid(s: string)
    ensures Solid(StripTicks(s)) == Solid(s)
    decreases |s|
  {
    if s != [] {
      var k := SpaceRun(s);
      if TickFrom(s, k) {
        assert s == s[..k + 3] + s[k + 3..];
        SolidAppend(s[..k + 3], s[k + 3..]);
        SolidOfFiller(s[..k + 3]);
        StripTicksKeepsSolid(s[k + 3..]);
      } else {
        assert s == [s[0]] + s[1..];
        SolidAppend([s[0]], s[1..]);
        SolidAppend([s[0]], StripTicks(s[1..]));
        StripTicksKeepsSolid(s[1..]);
      }
    }
  }

  /** Dropping a prefix of whitespace loses no solid character. */
  lemma DropFillerKeepsSolid(s: string, k: nat)
    requires k <= |s|
    requires forall i :: 0 <= i < k ==> IsSpace(s[i])
    ensures Solid(s[k..]) == Solid(s)
  {
    assert s == s[..k] + s[k..];
    SolidAppend(s[..k], s[k..]);
    SolidOfFiller(s[..k]);
  }

  lemma TrimKeepsSolid(s: string)
    ensures Solid(Trim(s)) == Solid(s)
  {
    var t := s[SpaceRun(s)..];
    DropFillerKeepsSolid(s, SpaceRun(s));
    var r := TrimEnd(t);
    assert t == r + t[|r|..];
    SolidAppend(r, t[|r|..]);
    SolidOfFiller(t[|r|..]);
  }

  /** Text made of neither whitespace nor backticks is all solid. */
  lemma {:induction false} SolidOfPlain(s: string)
    requires forall i :: 0 <= i < |s| ==> !IsSpace(s[i]) && s[i] != '`'
    ensures Solid(s) == s
    decreases |s|
  {
    if s != [] {
      SolidOfPlain(s[1..]);
      assert [s[0]] + s[1..] == s;
    }
  }

  /** A fence marker has no solid characters. */
  lemma SolidOfTick()
    ensures Solid(Tick) == []
  {
    SolidOfFiller(Tick);
  }

  /** The tag is all solid. */
  lemma SolidOfTag()
    ensures Solid(Tag) == Tag
  {
    forall i | 0 <= i < |Tag|
      ensures !IsSpace(Tag[i]) && Tag[i] != '`'
    {
      assert 'a' <= Tag[i] <= 'z';
    }
    SolidOfPlain(Tag);
  }

  /** The solid characters of the opening fence are its tag. */
  lemma SolidOfOpenTag()
    ensures Solid(OpenTag) == Tag
  {
    SolidAppend(Tick, Tag);
    SolidOfTick();
    SolidOfTag();
  }

  /** The replacement removes whitespace, backticks and the leading tag only. */
  lemma StripKeepsSolid(s: string)
    ensures Solid(s) == (if OpenTag <= s then "plantuml" else "") + Solid(Strip(s))
  {
    if OpenTag <= s {
      var rest := s[|OpenTag|..];
      StripTicksKeepsSolid(rest[SpaceRun(rest)..]);
      DropFillerKeepsSolid(rest, SpaceRun(rest));
      assert s == OpenTag + rest;
      SolidAppend(OpenTag, rest);
      SolidOfOpenTag();
      assert Tag == "plantuml";
    } else {
      StripTicksKeepsSolid(s);
    }
  }

  /** Every character other than whitespace and backticks survives cleaning,
      in order, except the tag of a leading "```plantuml". */
  lemma CleanKeepsSolid(s: string)
    ensures Solid(s) == (if OpenTag <= s then "plantuml" else "") + Solid(Clean(s))
  {
    StripKeepsSolid(s);
    TrimKeepsSolid(Strip(s));
  }

  // ---------------------------------------------------------------------------
  // Fenced replies.

  /** Text free of backticks that does not end in whitespace passes through the
      scan untouched, whatever follows it. */
  lemma {:induction false} StripTicksKeepsPlainPrefix(x: string, y: string)
    requires '`' !in x
    requires !EndsWithSpace(x)
    ensures StripTicks(x + y) == x + StripTicks(y)
    decreases |x|
  {
    if x == [] {
      assert x + y == y;
    } else {
      var s := x + y;
      var k := SpaceRun(s);
      assert s[|x| - 1] == x[|x| - 1];
      assert k < |x|;
      assert s[k] == x[k];
      assert !TickFrom(s, k);
      assert StripTicks(s) == [s[0]] + StripTicks(s[1..]);
      assert s[1..] == x[1..] + y;
      StripTicksKeepsPlainPrefix(x[1..], y);
      calc {
        StripTicks(s);
        [x[0]] + (x[1..] + StripTicks(y));
        ([x[0]] + x[1..]) + StripTicks(y);
        { assert [x[0]] + x[1..] == x; }
        x + StripTicks(y);
      }
    }
  }

  /** A closing fence preceded by a line break disappears. */
  lemma StripClosingFence()
    ensures StripTicks("\n```") == []
  {
    var t := "\n```";
    assert SpaceRun(t[1..]) == 0;
    assert SpaceRun(t) == 1;
    assert t[1..] == Tick;
    assert t[4..] == [];
  }

  /** Plain text between a closing line break and fence survives the scan. */
  lemma StripPlainThenFence(body: string)
    requires '`' !in body && !EndsWithSpace(body)
    ensures StripTicks(body + "\n```") == body
  {
    StripTicksKeepsPlainPrefix(body, "\n```");
    StripClosingFence();
    assert body + [] == body;
  }

  /** After the opening fence, the scan starts past the whitespace that follows it. */
  lemma StripAfterOpenTag(s: string, rest: string)
    requires s == OpenTag + rest
    ensures Strip(s) == StripTicks(rest[SpaceRun(rest)..])
  {
    assert OpenTag <= s;
    assert s[|OpenTag|..] == rest;
  }

  /** A bare fence marker disappears. */
  lemma StripBareFence()
    ensures StripTicks(Tick) == []
  {
    assert SpaceRun(Tick) == 0;
    assert TickFrom(Tick, 0);
    assert Tick[3..] == [];
  }

  /** The reply of the usual shape, "```plantuml", a line break, the diagram,
      a line break and "```", cleans to the diagram. */
  lemma {:induction false} CleanPlantUmlFenced(body: string)
    requires '`' !in body && !StartsWithSpace(body) && !EndsWithSpace(body)
    ensures Clean(OpenTag + "\n" + body + "\n```") == body
  {
    var s := OpenTag + "\n" + body + "\n```";
    var tail := body + "\n```";
    var rest := "\n" + tail;
    assert s == OpenTag + rest;
    StripAfterOpenTag(s, rest);
    assert rest[1..] == tail;
    if body == [] {
      assert tail == "\n```";
      assert SpaceRun(tail) == 1 + SpaceRun(Tick);
      assert SpaceRun(Tick) == 0;
      assert rest[2..] == Tick;
      StripBareFence();
    } else {
      assert tail[0] == body[0];
      assert SpaceRun(tail) == 0;
      assert SpaceRun(rest) == 1;
      StripPlainThenFence(body);
      TrimIdentity(body);
    }
  }

  /** A fence tag that merely starts with "plantuml" still matches the anchored
      alternative: "plantuml" goes with the backticks and the rest of the tag
      stays, glued to the body. */
  lemma {:induction false} CleanTagGlued(body: string)
    requires '`' !in body && !StartsWithSpace(body) && !EndsWithSpace(body)
    ensures Clean(OpenTag + body + "\n```") == body
  {
    var rest := body + "\n```";
    assert OpenTag + body + "\n```" == OpenTag + rest;
    StripAfterOpenTag(OpenTag + rest, rest);
    if body == [] {
      assert rest == "\n```";
      assert SpaceRun(rest) == 1 + SpaceRun(Tick);
      assert SpaceRun(Tick) == 0;
      assert rest[1..] == Tick;
      StripBareFence();
    } else {
      assert rest[0] == body[0];
      assert SpaceRun(rest) == 0;
      StripPlainThenFence(body);
      TrimIdentity(body);
    }
  }

  /** A text that does not start with the tag, followed by a line break, does
      not make the opening fence. */
  lemma OtherTagIsNotOpenTag(body: string, tail: string)
    requires !(Tag <= body)
    requires tail != [] && tail[0] == '\n'
    ensures !(OpenTag <= Tick + body + tail)
  {
    var s := Tick + body + tail;
    assert OpenTag[3..] == Tag;
    if |s| >= 11 {
      if |body| >= 8 {
        assert s[3..11] == body[..8];
        assert s[3..11] != Tag;
      } else {
        assert s[3 + |body|] == '\n';
        assert Tag[|body|] != '\n';
        assert s[3..11] != Tag;
      }
      assert s[..11][3..] == s[3..11];
    }
  }

  /** A fence whose language tag does not start with "plantuml" loses its
      backticks; the tag stays. */
  lemma {:induction false} CleanOtherFenced(body: string)
    requires '`' !in body && !StartsWithSpace(body) && !EndsWithSpace(body)
    requires !(Tag <= body)
    ensures Clean(Tick + body + "\n```") == body
  {
    var s := Tick + body + "\n```";
    OtherTagIsNotOpenTag(body, "\n```");
    assert SpaceRun(s) == 0;
    assert TickFrom(s, 0);
    assert s[3..] == body + "\n```";
    StripPlainThenFence(body);
    TrimIdentity(body);
  }

  // ---------------------------------------------------------------------------
  // Worked examples.

  lemma CleanPlantUmlExample()
    ensures Clean("```plantuml\n@startuml\nA->B\n@enduml\n```") == "@startuml\nA->B\n@enduml"
  {
    var body := "@startuml\nA->B\n@enduml";
    assert OpenTag == "```plantuml";
    assert OpenTag + "\n" + body + "\n```" == "```plantuml\n@startuml\nA->B\n@enduml\n```";
    CleanPlantUmlFenced(body);
  }

  lemma CleanPythonExample()
    ensures Clean("```python\nA->B\n```") == "python\nA->B"
  {
    var body := "python\nA->B";
    assert Tick + body + "\n```" == "```python\nA->B\n```";
    assert body[1] != Tag[1];
    CleanOtherFenced(body);
  }

  lemma CleanGluedTagExample()
    ensures Clean("```plantumlx\nA->B\n```") == "x\nA->B"
  {
    var body := "x\nA->B";
    assert OpenTag == "```plantuml";
    assert OpenTag + body + "\n```" == "```plantumlx\nA->B\n```";
    CleanTagGlued(body);
  }
}

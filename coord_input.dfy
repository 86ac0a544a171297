/** The typed-coordinate input of the play page: the pattern
    `^\s*\(?\s*(\d+)\s*,\s*(\d+)\s*\)?\s*$`, the decimal value of its two
    digit groups, and the live feedback shown while typing. */
module CoordInput {
  import opened Common

  /** A character matched by `\s` in a JavaScript regular expression. */
  predicate IsSpace(c: char) {
    || c == ' ' || c == '\t' || c == '\n' || c == '\r' || c == '\U{000B}' || c == '\U{000C}'
    || c == '\U{00A0}' || c == '\U{1680}' || ('\U{2000}' <= c <= '\U{200A}')
    || c == '\U{2028}' || c == '\U{2029}' || c == '\U{202F}' || c == '\U{205F}'
    || c == '\U{3000}' || c == '\U{FEFF}'
  }

  /** A character matched by `\d`: an ASCII decimal digit. */
  predicate IsDigit(c: char) {
    '0' <= c <= '9'
  }

  predicate AllSpaces(s: string) {
    forall i :: 0 <= i < |s| ==> IsSpace(s[i])
  }

  predicate AllDigits(s: string) {
    forall i :: 0 <= i < |s| ==> IsDigit(s[i])
  }

  /** `s` without its leading whitespace. */
  function SkipSpaces(s: string): (r: string)
    ensures |r| <= |s|
  {
    if s != [] && IsSpace(s[0]) then SkipSpaces(s[1..]) else s
  }

  /** What `SkipSpaces` leaves is a suffix of its input. */
  lemma {:induction false} SkipSpacesSuffix(s: string)
    ensures var r := SkipSpaces(s); s == s[..|s| - |r|] + r
    decreases |s|
  {
    if s != [] && IsSpace(s[0]) {
      var r := SkipSpaces(s[1..]);
      assert SkipSpaces(s) == r;
      SkipSpacesSuffix(s[1..]);
      var k := |s| - |r|;
      assert s[1..] == s[1..][..k - 1] + r;
      assert s[..k] == [s[0]] + s[1..][..k - 1];
    } else {
      assert s[..0] == [];
    }
  }

  /** What `SkipSpaces` removes is whitespace. */
  lemma {:induction false} SkipSpacesRemovesSpaces(s: string)
    ensures var r := SkipSpaces(s); AllSpaces(s[..|s| - |r|])
    decreases |s|
  {
    if s != [] && IsSpace(s[0]) {
      var r := SkipSpaces(s[1..]);
      assert SkipSpaces(s) == r;
      SkipSpacesRemovesSpaces(s[1..]);
      var k := |s| - |r|;
      var w := s[1..][..k - 1];
      assert AllSpaces(w);
      var p := s[..k];
      forall i | 0 <= i < k ensures IsSpace(p[i]) {
        if i == 0 {
          assert p[i] == s[0];
        } else {
          assert p[i] == w[i - 1];
        }
      }
    }
  }

  /** What `SkipSpaces` leaves does not start with whitespace. */
  lemma {:induction false} SkipSpacesStops(s: string)
    ensures var r := SkipSpaces(s); r == [] || !IsSpace(r[0])
    decreases |s|
  {
    if s != [] && IsSpace(s[0]) {
      SkipSpacesStops(s[1..]);
    }
  }

  /** `SkipSpaces` removes a prefix of whitespace, and all of it. */
  lemma SkipSpacesSplits(s: string)
    ensures var r := SkipSpaces(s); s == s[..|s| - |r|] + r
    ensures var r := SkipSpaces(s); AllSpaces(s[..|s| - |r|])
    ensures var r := SkipSpaces(s); r == [] || !IsSpace(r[0])
  {
    SkipSpacesSuffix(s);
    SkipSpacesRemovesSpaces(s);
    SkipSpacesStops(s);
  }

  /** `s` split after its longest prefix of digits. */
  function SplitDigits(s: string): (r: (string, string))
    ensures r.0 + r.1 == s
    ensures AllDigits(r.0)
    ensures r.1 == [] || !IsDigit(r.1[0])
  {
    if s != [] && IsDigit(s[0]) then
      var (d, rest) := SplitDigits(s[1..]);
      assert [s[0]] + d + rest == [s[0]] + (d + rest);
      ([s[0]] + d, rest)
    else ([], s)
  }

  /** `parseInt(d, 10)` of a run of decimal digits. */
  function DecimalValue(d: string): nat
    requires AllDigits(d)
  {
    if d == [] then 0 else DecimalValue(d[..|d| - 1]) * 10 + (d[|d| - 1] as int - '0' as int)
  }

  /** `s` without its first character when that character is `c`. */
  function DropOptional(s: string, c: char): string {
    if s != [] && s[0] == c then s[1..] else s
  }

  /** The end of the pattern, `\s*\)?\s*$`. */
  predicate AcceptsTail(s: string) {
    SkipSpaces(DropOptional(SkipSpaces(s), ')')) == []
  }

  /** The second number and the end, `\s*(\d+)\s*\)?\s*$`. */
  function ParseY(s: string): Option<nat> {
    var (d, rest) := SplitDigits(SkipSpaces(s));
    if d == [] || !AcceptsTail(rest) then None else Some(DecimalValue(d))
  }

  /** Everything after the first number, `\s*,\s*(\d+)\s*\)?\s*$`. */
  function ParseCommaY(s: string): Option<nat> {
    var e := SkipSpaces(s);
    if e == [] || e[0] != ',' then None else ParseY(e[1..])
  }

  /** The result of matching the input pattern: the two numbers, or nothing. */
  function ParseCoord(s: string): (r: Option<Coord>)
    ensures r.Some? ==> 0 <= r.value.x && 0 <= r.value.y
  {
    var (d, rest) := SplitDigits(SkipSpaces(DropOptional(SkipSpaces(s), '(')));
    if d == [] then None
    else match ParseCommaY(rest)
      case None => None
      case Some(y) => Some(Coord(DecimalValue(d), y))
  }

  // ---------------------------------------------------------------------
  // The language of the pattern, written out
  // ---------------------------------------------------------------------

  /** One way of writing a text the pattern accepts: whitespace `lead`, an
      optional `(`, whitespace `gap`, the digits of x, whitespace, a comma,
      whitespace, the digits of y, whitespace, an optional `)`, whitespace
      `trail`. The two parentheses are optional independently. */
  datatype CoordText = CoordText(
    lead: string, open: bool, gap: string, xDigits: string, beforeComma: string,
    afterComma: string, yDigits: string, beforeClose: string, close: bool, trail: string)

  predicate WellFormed(t: CoordText) {
    && AllSpaces(t.lead) && AllSpaces(t.gap) && AllSpaces(t.beforeComma)
    && AllSpaces(t.afterComma) && AllSpaces(t.beforeClose) && AllSpaces(t.trail)
    && t.xDigits != [] && AllDigits(t.xDigits) && t.yDigits != [] && AllDigits(t.yDigits)
  }

  function Optional(present: bool, c: char): string {
    if present then [c] else []
  }

  function TailText(beforeClose: string, close: bool, trail: string): string {
    beforeClose + (Optional(close, ')') + trail)
  }

  function YText(t: CoordText): string {
    t.afterComma + (t.yDigits + TailText(t.beforeClose, t.close, t.trail))
  }

  function AfterXText(t: CoordText): string {
    t.beforeComma + ([','] + YText(t))
  }

  function Render(t: CoordText): string {
    t.lead + (Optional(t.open, '(') + (t.gap + (t.xDigits + AfterXText(t))))
  }

  lemma {:induction false} SkipLeadingSpaces(w: string, r: string)
    requires AllSpaces(w)
    ensures SkipSpaces(w + r) == SkipSpaces(r)
  {
    if w != [] {
      assert (w + r)[0] == w[0] && IsSpace(w[0]);
      assert (w + r)[1..] == w[1..] + r;
      SkipLeadingSpaces(w[1..], r);
    } else {
      assert w + r == r;
    }
  }

  lemma {:induction false} SplitLeadingDigits(d: string, r: string)
    requires AllDigits(d) && (r == [] || !IsDigit(r[0]))
    ensures SplitDigits(d + r) == (d, r)
  {
    if d != [] {
      assert (d + r)[1..] == d[1..] + r;
      SplitLeadingDigits(d[1..], r);
      assert [d[0]] + d[1..] == d;
    } else {
      assert d + r == r;
    }
  }

  lemma TailAccepted(beforeClose: string, close: bool, trail: string)
    requires AllSpaces(beforeClose) && AllSpaces(trail)
    ensures AcceptsTail(TailText(beforeClose, close, trail))
  {
    SkipLeadingSpaces(beforeClose, Optional(close, ')') + trail);
    SkipLeadingSpaces(trail, []);
    assert trail + [] == trail;
    if close {
      assert (Optional(close, ')') + trail)[1..] == trail;
    } else {
      assert Optional(close, ')') + trail == trail;
    }
  }

  lemma YAccepted(t: CoordText)
    requires WellFormed(t)
    ensures ParseY(YText(t)) == Some(DecimalValue(t.yDigits))
  {
    var tail := TailText(t.beforeClose, t.close, t.trail);
    SkipLeadingSpaces(t.afterComma, t.yDigits + tail);
    assert SkipSpaces(t.yDigits + tail) == t.yDigits + tail;
    if t.beforeClose != [] {
      assert tail[0] == t.beforeClose[0];
    } else if t.close {
      assert tail[0] == ')';
    } else {
      assert tail == t.trail;
    }
    SplitLeadingDigits(t.yDigits, tail);
    TailAccepted(t.beforeClose, t.close, t.trail);
  }

  lemma CommaYAccepted(t: CoordText)
    requires WellFormed(t)
    ensures ParseCommaY(AfterXText(t)) == Some(DecimalValue(t.yDigits))
  {
    SkipLeadingSpaces(t.beforeComma, [','] + YText(t));
    assert ([','] + YText(t))[1..] == YText(t);
    YAccepted(t);
  }

  /** A text that starts with a digit has no leading whitespace and no
      opening parenthesis to drop. */
  lemma DigitStart(d: string, r: string)
    requires d != [] && AllDigits(d)
    ensures SkipSpaces(d + r) == d + r && DropOptional(d + r, '(') == d + r
  {
    assert (d + r)[0] == d[0] && IsDigit(d[0]);
  }

  lemma XStart(t: CoordText)
    requires WellFormed(t)
    ensures SkipSpaces(DropOptional(SkipSpaces(Render(t)), '(')) == t.xDigits + AfterXText(t)
  {
    var xPart := t.xDigits + AfterXText(t);
    var afterOpen := t.gap + xPart;
    var withOpen := Optional(t.open, '(') + afterOpen;
    assert Render(t) == t.lead + withOpen;
    SkipLeadingSpaces(t.lead, withOpen);
    SkipLeadingSpaces(t.gap, xPart);
    DigitStart(t.xDigits, AfterXText(t));
    if t.open {
      assert withOpen == ['('] + afterOpen && withOpen[0] == '(';
      assert SkipSpaces(withOpen) == withOpen;
      assert DropOptional(withOpen, '(') == afterOpen;
    } else {
      assert withOpen == afterOpen;
    }
  }

  /** Every text the pattern describes is accepted, with the values of its
      two digit groups. */
  lemma AcceptsPattern(t: CoordText)
    requires WellFormed(t)
    ensures ParseCoord(Render(t)) == Some(Coord(DecimalValue(t.xDigits), DecimalValue(t.yDigits)))
  {
    XStart(t);
    assert AfterXText(t)[0] == ',' || t.beforeComma != [];
    SplitLeadingDigits(t.xDigits, AfterXText(t));
    CommaYAccepted(t);
  }

  lemma TailSplit(s: string) returns (beforeClose: string, close: bool, trail: string)
    requires AcceptsTail(s)
    ensures AllSpaces(beforeClose) && AllSpaces(trail)
    ensures s == TailText(beforeClose, close, trail)
  {
    var g := SkipSpaces(s);
    SkipSpacesSplits(s);
    SkipSpacesSplits(DropOptional(g, ')'));
    beforeClose := s[..|s| - |g|];
    close := g != [] && g[0] == ')';
    trail := DropOptional(g, ')');
    assert g == Optional(close, ')') + trail;
    assert trail == trail[..|trail| - 0];
  }

  lemma YSplit(s: string) returns (t: CoordText)
    requires ParseY(s).Some?
    ensures WellFormed(t) && s == YText(t) && ParseY(s) == Some(DecimalValue(t.yDigits))
  {
    var f := SkipSpaces(s);
    SkipSpacesSplits(s);
    var (d, rest) := SplitDigits(f);
    var beforeClose, close, trail := TailSplit(rest);
    t := CoordText([], false, [], "0", [], s[..|s| - |f|], d, beforeClose, close, trail);
  }

  lemma CommaYSplit(s: string) returns (t: CoordText)
    requires ParseCommaY(s).Some?
    ensures WellFormed(t) && s == AfterXText(t) && ParseCommaY(s) == Some(DecimalValue(t.yDigits))
  {
    var e := SkipSpaces(s);
    SkipSpacesSplits(s);
    var u := YSplit(e[1..]);
    t := u.(beforeComma := s[..|s| - |e|]);
    assert e == [','] + e[1..];
  }

  /** An accepted text starts with whitespace, an optional `(`, whitespace
      and the digits of x; the rest is what `ParseCommaY` accepts. */
  lemma XSplit(s: string) returns (lead: string, open: bool, gap: string, d: string, rest: string)
    requires ParseCoord(s).Some?
    ensures s == lead + (Optional(open, '(') + (gap + (d + rest)))
    ensures AllSpaces(lead) && AllSpaces(gap) && d != [] && AllDigits(d)
    ensures ParseCommaY(rest).Some? && ParseCoord(s) == Some(Coord(DecimalValue(d), ParseCommaY(rest).value))
  {
    var a := SkipSpaces(s);
    SkipSpacesSplits(s);
    lead := s[..|s| - |a|];
    assert s == lead + a;
    open := a != [] && a[0] == '(';
    var b := DropOptional(a, '(');
    assert a == Optional(open, '(') + b;
    var c := SkipSpaces(b);
    SkipSpacesSplits(b);
    gap := b[..|b| - |c|];
    assert b == gap + c;
    d, rest := SplitDigits(c).0, SplitDigits(c).1;
    assert c == d + rest;
  }

  /** Every accepted text is one the pattern describes, and the numbers are
      the values of its digit groups. */
  lemma AcceptedMatchesPattern(s: string)
    requires ParseCoord(s).Some?
    ensures exists t :: (WellFormed(t) && Render(t) == s
      && ParseCoord(s) == Some(Coord(DecimalValue(t.xDigits), DecimalValue(t.yDigits))))
  {
    var lead, open, gap, d, rest := XSplit(s);
    var u := CommaYSplit(rest);
    var t := u.(lead := lead, open := open, gap := gap, xDigits := d);
    assert AfterXText(t) == AfterXText(u);
    assert Render(t) == s;
  }

  // ---------------------------------------------------------------------
  // Feedback
  // ---------------------------------------------------------------------

  datatype Feedback = NoFeedback | GreatChoice | RangeHint(maxIndex: int) | FormatHint | SubmitFormatHint

  function FeedbackText(f: Feedback): (r: string)
    ensures r == "" <==> f == NoFeedback
  {
    match f
    case NoFeedback => ""
    case GreatChoice => "✨ Great choice! Press Enter to check."
    case RangeHint(m) => "💙 Try numbers between 0 and " + IntToString(m)
    case FormatHint => "💙 Type like: 2,3 or (2,3)"
    case SubmitFormatHint => "💙 Let's try the format: 2,3"
  }

  function NatToString(n: nat): string
    decreases n
  {
    var digit := [('0' as int + n % 10) as char];
    if n < 10 then digit else NatToString(n / 10) + digit
  }

  function IntToString(i: int): string {
    if i < 0 then "-" + NatToString(-i) else NatToString(i)
  }

  predicate InRange(c: Coord, gridSize: int) {
    0 <= c.x < gridSize && 0 <= c.y < gridSize
  }

  /** The feedback shown while typing: four outcomes, decided by whether the
      text matches the pattern and whether both numbers are on the grid. */
  function LiveFeedback(value: string, gridSize: int): (f: Feedback)
    ensures f == GreatChoice <==> ParseCoord(value).Some? && InRange(ParseCoord(value).value, gridSize)
    ensures f == RangeHint(gridSize - 1) <==> ParseCoord(value).Some? && !InRange(ParseCoord(value).value, gridSize)
    ensures f == FormatHint <==> ParseCoord(value).None? && value != []
    ensures f == NoFeedback <==> value == []
  {
    match ParseCoord(value)
    case Some(c) => if InRange(c, gridSize) then GreatChoice else RangeHint(gridSize - 1)
    case None => if |value| > 0 then FormatHint else NoFeedback
  }
}

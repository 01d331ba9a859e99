/** A character terminal: the control functions of ECMA-48 that the scan phase uses, that is
    CUU (section 8.3.22), ED (section 8.3.39) and EL (section 8.3.41), and those that colour text,
    SGR (section 8.3.117), with line feeds that return the carriage and scroll at the bottom, and
    lines as wide as they need to be. Colours are not recorded. */
module Terminal {
  import opened Decimal

  const ESC := '\U{1b}'

  datatype Mode = Ground | Escape | Control(parameter: string)

  /** `lines` holds everything ever shown, the rows scrolled off first; the screen is the
      `height` lines from `top`. */
  datatype Screen = Screen(height: nat, lines: seq<string>, top: nat, row: nat, col: nat, mode: Mode)

  /** The characters of numeric parameters and between them. */
  predicate IsParameter(c: char) {
    IsDigit(c) || c == ';'
  }

  predicate AllParameters(s: string) {
    forall i :: 0 <= i < |s| ==> IsParameter(s[i])
  }

  ghost predicate Valid(t: Screen) {
    && |t.lines| == t.top + t.height && t.top <= t.row < t.top + t.height
    && (t.mode.Control? ==> AllParameters(t.mode.parameter))
  }

  function Spaces(n: nat): string {
    seq(n, _ => ' ')
  }

  function PutAt(line: string, col: nat, c: char): string {
    if col < |line| then line[col := c] else line + Spaces(col - |line|) + [c]
  }

  function EraseFrom(line: string, col: nat): string {
    if col < |line| then line[..col] else line
  }

  function LineFeed(t: Screen): Screen
  {
    if t.row + 1 < t.top + t.height then t.(row := t.row + 1, col := 0)
    else t.(lines := t.lines + [""], top := t.top + 1, row := t.row + 1, col := 0)
  }

  /** Executes a control function by its final character. Others, SGR among them, and those given
      several parameters change no text and do not move the cursor. */
  function Execute(t: Screen, parameter: string, final: char): Screen
    requires t.row < |t.lines|
  {
    if !AllDigits(parameter) then t
    else
      var n := Value(parameter);
      match final
      case 'A' =>
        var up := if n == 0 then 1 else n;
        t.(row := if t.row < t.top + up then t.top else t.row - up)
      case 'J' =>
        if n == 0 then
          t.(lines := seq(|t.lines|, i requires 0 <= i < |t.lines| =>
            if i < t.row then t.lines[i] else if i == t.row then EraseFrom(t.lines[i], t.col) else ""))
        else t
      case 'K' =>
        if n == 0 then t.(lines := t.lines[t.row := EraseFrom(t.lines[t.row], t.col)]) else t
      case _ => t
  }

  function Receive(t: Screen, c: char): Screen
    requires t.row < |t.lines|
  {
    match t.mode
    case Ground =>
      if c == ESC then t.(mode := Escape)
      else if c == '\n' then LineFeed(t)
      else if c == '\r' then t.(col := 0)
      else t.(lines := t.lines[t.row := PutAt(t.lines[t.row], t.col, c)], col := t.col + 1)
    case Escape =>
      t.(mode := if c == '[' then Control("") else Ground)
    case Control(parameter) =>
      if IsParameter(c) then t.(mode := Control(parameter + [c]))
      else Execute(t, parameter, c).(mode := Ground)
  }

  lemma ReceiveValid(t: Screen, c: char)
    requires Valid(t)
    ensures Valid(Receive(t, c)) && Receive(t, c).height == t.height
  {
  }

  function Feed(t: Screen, s: string): (u: Screen)
    requires Valid(t)
    ensures Valid(u) && u.height == t.height
    decreases |s|
  {
    if s == "" then t else (ReceiveValid(t, s[0]); Feed(Receive(t, s[0]), s[1..]))
  }

  lemma {:induction false} FeedConcat(t: Screen, a: string, b: string)
    requires Valid(t)
    ensures Feed(t, a + b) == Feed(Feed(t, a), b)
    decreases |a|
  {
    if a == "" {
      assert a + b == b;
    } else {
      ReceiveValid(t, a[0]);
      FeedConcat(Receive(t, a[0]), a[1..], b);
      assert (a + b)[1..] == a[1..] + b;
    }
  }

  function Newlines(s: string): nat {
    if s == "" then 0 else (if s[0] == '\n' then 1 else 0) + Newlines(s[1..])
  }

  lemma {:induction false} NewlinesConcat(a: string, b: string)
    ensures Newlines(a + b) == Newlines(a) + Newlines(b)
  {
    if a == "" {
      assert a + b == b;
    } else {
      NewlinesConcat(a[1..], b);
      assert (a + b)[1..] == a[1..] + b;
    }
  }

  lemma {:induction false} NoNewlines(s: string)
    ensures Newlines(s) == 0 <==> '\n' !in s
  {
    if s != "" {
      NoNewlines(s[1..]);
      assert s == [s[0]] + s[1..];
    }
  }

  function ParameterLength(s: string): (n: nat)
    ensures n <= |s| && AllParameters(s[..n]) && (n < |s| ==> !IsParameter(s[n]))
  {
    if s == "" || !IsParameter(s[0]) then 0
    else
      assert forall i :: 0 < i <= |s[1..]| ==> i < |s| ==> s[i] == s[1..][i - 1];
      1 + ParameterLength(s[1..])
  }

  /** The length of the colour sequence that `s` starts with, or zero. */
  function ColourLength(s: string): (n: nat)
    ensures n <= |s|
  {
    if |s| < 2 || s[0] != ESC || s[1] != '[' then 0
    else
      var n := ParameterLength(s[2..]);
      if 2 + n < |s| && s[2 + n] == 'm' then n + 3 else 0
  }

  /** Text without control functions other than colours. */
  predicate Plain(s: string)
    decreases |s|
  {
    s == "" || (if s[0] != ESC then Plain(s[1..]) else ColourLength(s) > 0 && Plain(s[ColourLength(s)..]))
  }

  lemma {:induction false} NoEscapePlain(s: string)
    requires ESC !in s
    ensures Plain(s)
  {
    if s != "" {
      assert s[0] in s && forall i :: 0 <= i < |s[1..]| ==> s[1..][i] in s;
      NoEscapePlain(s[1..]);
    }
  }

  lemma {:induction false} ParameterLengthConcat(a: string, b: string)
    requires ParameterLength(a) < |a|
    ensures ParameterLength(a + b) == ParameterLength(a)
  {
    if IsParameter(a[0]) {
      assert (a + b)[1..] == a[1..] + b;
      ParameterLengthConcat(a[1..], b);
    }
  }

  lemma ColourLengthConcat(a: string, b: string)
    requires ColourLength(a) > 0
    ensures ColourLength(a + b) == ColourLength(a)
  {
    assert (a + b)[2..] == a[2..] + b;
    ParameterLengthConcat(a[2..], b);
  }

  lemma {:induction false} PlainConcat(a: string, b: string)
    requires Plain(a) && Plain(b)
    ensures Plain(a + b)
    decreases |a|
  {
    if a == "" {
      assert a + b == b;
    } else if a[0] != ESC {
      assert (a + b)[1..] == a[1..] + b;
      PlainConcat(a[1..], b);
    } else {
      var n := ColourLength(a);
      ColourLengthConcat(a, b);
      assert (a + b)[n..] == a[n..] + b;
      PlainConcat(a[n..], b);
    }
  }

  /** A line feed ends no colour sequence: without it the text before is plain too. */
  lemma {:induction false} PlainBeforeNewline(a: string)
    requires Plain(a + "\n")
    ensures Plain(a)
    decreases |a|
  {
    if a != "" {
      if a[0] != ESC {
        assert (a + "\n")[1..] == a[1..] + "\n";
        PlainBeforeNewline(a[1..]);
      } else {
        var n := ColourLength(a + "\n");
        ColourBeforeNewline(a);
        assert (a + "\n")[n..] == a[n..] + "\n";
        PlainBeforeNewline(a[n..]);
      }
    }
  }

  lemma ColourBeforeNewline(a: string)
    requires ColourLength(a + "\n") > 0
    ensures 0 < ColourLength(a) == ColourLength(a + "\n")
  {
    assert |a| >= 2;
    assert (a + "\n")[2..] == a[2..] + "\n";
    ParameterLengthLine(a[2..]);
  }

  lemma {:induction false} ParameterLengthLine(a: string)
    ensures ParameterLength(a + "\n") == ParameterLength(a)
  {
    if a != "" && IsParameter(a[0]) {
      assert (a + "\n")[1..] == a[1..] + "\n";
      ParameterLengthLine(a[1..]);
    }
  }

  /** `u` is `t` after output that never moved above the row of `t` and ended `down` rows
      below it: the screen has scrolled as far as that takes, and no further. */
  ghost predicate Below(t: Screen, u: Screen, down: nat) {
    && Valid(t) && Valid(u) && u.height == t.height && u.mode.Ground?
    && u.row == t.row + down
    && u.top == (if u.row >= t.top + t.height then u.row + 1 - t.height else t.top)
    && forall i :: 0 <= i < t.row ==> u.lines[i] == t.lines[i]
  }

  lemma BelowTrans(t: Screen, u: Screen, v: Screen, m: nat, n: nat)
    requires Below(t, u, m) && Below(u, v, n)
    ensures Below(t, v, m + n)
  {
  }

  lemma {:induction false} FeedParameters(t: Screen, s: string)
    requires Valid(t) && t.mode.Control? && AllParameters(s)
    ensures Feed(t, s) == t.(mode := Control(t.mode.parameter + s))
    decreases |s|
  {
    if s != "" {
      ReceiveValid(t, s[0]);
      FeedParameters(Receive(t, s[0]), s[1..]);
      assert t.mode.parameter + [s[0]] + s[1..] == t.mode.parameter + s;
    } else {
      assert t.mode.parameter + s == t.mode.parameter;
    }
  }

  lemma FeedIntroducer(t: Screen)
    requires Valid(t) && t.mode.Ground?
    ensures Feed(t, [ESC, '[']) == t.(mode := Control(""))
  {
    ReceiveValid(t, ESC);
    assert [ESC, '['][1..] == ['['];
    assert ['['][1..] == "";
  }

  /** A control sequence with parameters executes its control function. */
  lemma FeedControl(t: Screen, parameters: string, final: char)
    requires Valid(t) && t.mode.Ground? && AllParameters(parameters) && !IsParameter(final)
    ensures Feed(t, [ESC, '['] + parameters + [final]) == Execute(t, parameters, final)
  {
    var u := t.(mode := Control(""));
    FeedIntroducer(t);
    FeedConcat(t, [ESC, '['] + parameters, [final]);
    FeedConcat(t, [ESC, '['], parameters);
    FeedParameters(u, parameters);
    assert "" + parameters == parameters;
    FeedFinal(t, parameters, final);
  }

  lemma FeedFinal(t: Screen, parameters: string, final: char)
    requires Valid(t) && t.mode.Ground? && AllParameters(parameters) && !IsParameter(final)
    ensures Feed(t.(mode := Control(parameters)), [final]) == Execute(t, parameters, final)
  {
    assert [final][1..] == "";
    ReceiveValid(t.(mode := Control(parameters)), final);
  }

  /** A colour sequence leaves text and cursor alone. */
  lemma FeedColour(t: Screen, s: string)
    requires Valid(t) && t.mode.Ground? && ColourLength(s) > 0
    ensures Feed(t, s[..ColourLength(s)]) == t && Newlines(s[..ColourLength(s)]) == 0
  {
    var n := ColourLength(s) - 3;
    var parameters := s[2..][..n];
    assert s[..n + 3] == [ESC, '['] + parameters + ['m'];
    FeedControl(t, parameters, 'm');
    NoNewlines(s[..n + 3]);
  }

  /** Plain text moves down by its line feeds. */
  lemma {:induction false} FeedPlain(t: Screen, s: string)
    requires Valid(t) && t.mode.Ground? && Plain(s)
    ensures Below(t, Feed(t, s), Newlines(s))
    decreases |s|
  {
    if s != "" && s[0] != ESC {
      ReceiveValid(t, s[0]);
      var u := Receive(t, s[0]);
      FeedPlain(u, s[1..]);
      BelowTrans(t, u, Feed(u, s[1..]), if s[0] == '\n' then 1 else 0, Newlines(s[1..]));
    } else if s != "" {
      var n := ColourLength(s);
      FeedColour(t, s);
      assert s == s[..n] + s[n..];
      FeedConcat(t, s[..n], s[n..]);
      NewlinesConcat(s[..n], s[n..]);
      FeedPlain(t, s[n..]);
    }
  }

  // ---------- What the text looks like ----------

  /** The text without its colours. */
  function Visible(s: string): string
    requires Plain(s)
    decreases |s|
  {
    if s == "" then ""
    else if s[0] != ESC then [s[0]] + Visible(s[1..])
    else Visible(s[ColourLength(s)..])
  }

  lemma {:induction false} VisibleFacts(s: string)
    requires Plain(s)
    ensures ESC !in Visible(s) && ('\r' in Visible(s) ==> '\r' in s) && Newlines(Visible(s)) == Newlines(s)
    decreases |s|
  {
    if s != "" && s[0] != ESC {
      VisibleFacts(s[1..]);
      assert s == [s[0]] + s[1..];
    } else if s != "" {
      var n := ColourLength(s);
      VisibleFacts(s[n..]);
      ColourHasNoNewline(s);
      assert s == s[..n] + s[n..];
      NewlinesConcat(s[..n], s[n..]);
    }
  }

  lemma ColourHasNoNewline(s: string)
    requires ColourLength(s) > 0
    ensures Newlines(s[..ColourLength(s)]) == 0
  {
    var n := ColourLength(s) - 3;
    assert AllParameters(s[2..][..n]);
    assert forall i :: 2 <= i < 2 + n ==> s[i] == s[2..][..n][i - 2];
    NoNewlines(s[..n + 3]);
  }

  lemma {:induction false} VisibleOfVisible(s: string)
    requires ESC !in s
    ensures Plain(s) && Visible(s) == s
  {
    if s != "" {
      assert s[0] in s && forall i :: 0 <= i < |s[1..]| ==> s[1..][i] in s;
      VisibleOfVisible(s[1..]);
    }
  }

  lemma {:induction false} VisibleConcat(a: string, b: string)
    requires Plain(a) && Plain(b)
    ensures Plain(a + b) && Visible(a + b) == Visible(a) + Visible(b)
    decreases |a|
  {
    PlainConcat(a, b);
    if a == "" {
      assert a + b == b;
    } else if a[0] != ESC {
      assert (a + b)[1..] == a[1..] + b;
      VisibleConcat(a[1..], b);
      assert [a[0]] + (Visible(a[1..]) + Visible(b)) == [a[0]] + Visible(a[1..]) + Visible(b);
    } else {
      var n := ColourLength(a);
      ColourLengthConcat(a, b);
      assert (a + b)[n..] == a[n..] + b;
      VisibleConcat(a[n..], b);
    }
  }

  /** Colours show nothing. */
  lemma {:induction false} FeedVisible(t: Screen, s: string)
    requires Valid(t) && t.mode.Ground? && Plain(s)
    ensures Feed(t, s) == Feed(t, Visible(s))
    decreases |s|
  {
    if s != "" && s[0] != ESC {
      ReceiveValid(t, s[0]);
      FeedVisible(Receive(t, s[0]), s[1..]);
    } else if s != "" {
      var n := ColourLength(s);
      FeedColour(t, s);
      assert s == s[..n] + s[n..];
      FeedConcat(t, s[..n], s[n..]);
      FeedVisible(t, s[n..]);
    }
  }

  /** The parts of a text between its line feeds. */
  function LinesOf(s: string): (lines: seq<string>)
    ensures |lines| == Newlines(s) + 1
  {
    if s == "" then [""]
    else
      var rest := LinesOf(s[1..]);
      if s[0] == '\n' then [""] + rest else [[s[0]] + rest[0]] + rest[1..]
  }

  /** The cursor is at the end of its line, with nothing below. */
  predicate AtEnd(t: Screen) {
    && t.row < |t.lines| && t.col == |t.lines[t.row]|
    && forall i :: t.row < i < |t.lines| ==> t.lines[i] == ""
  }

  /** `u` is `t` after these lines were typed at its cursor. */
  ghost predicate Typed(t: Screen, u: Screen, lines: seq<string>)
    requires Valid(t) && lines != []
  {
    && Below(t, u, |lines| - 1) && AtEnd(u)
    && u.lines[t.row] == t.lines[t.row] + lines[0]
    && forall k :: 0 < k < |lines| ==> u.lines[t.row + k] == lines[k]
  }

  lemma TypeCharacter(t: Screen, c: char)
    requires Valid(t) && t.mode.Ground? && AtEnd(t) && c != ESC && c != '\r'
    ensures Valid(Receive(t, c)) && Typed(t, Receive(t, c), if c == '\n' then ["", ""] else [[c]])
  {
    ReceiveValid(t, c);
    assert t.lines[t.row] + Spaces(0) == t.lines[t.row];
  }

  lemma TypedNewline(t: Screen, u: Screen, v: Screen, rest: seq<string>)
    requires Valid(t) && Valid(u) && rest != [] && Typed(t, u, ["", ""]) && Typed(u, v, rest)
    ensures Typed(t, v, [""] + rest)
  {
    var lines := [""] + rest;
    BelowTrans(t, u, v, 1, |rest| - 1);
    assert u.lines[t.row + 1] == ["", ""][1] == "" && "" + rest[0] == rest[0];
    assert v.lines[t.row] == u.lines[t.row];
    forall k | 0 < k < |lines| ensures v.lines[t.row + k] == lines[k] {
      assert lines[k] == rest[k - 1] && t.row + k == u.row + (k - 1);
    }
  }

  lemma TypedCharacter(t: Screen, u: Screen, v: Screen, c: char, rest: seq<string>)
    requires Valid(t) && Valid(u) && rest != [] && Typed(t, u, [[c]]) && Typed(u, v, rest)
    ensures Typed(t, v, [[c] + rest[0]] + rest[1..])
  {
    BelowTrans(t, u, v, 0, |rest| - 1);
    assert t.lines[t.row] + [c] + rest[0] == t.lines[t.row] + ([c] + rest[0]);
  }

  /** Text without control functions other than colours and line feeds is shown as it is: its first
      line is added to the cursor's, and each other line fills the next row. */
  lemma {:induction false} FeedTypes(t: Screen, s: string)
    requires Valid(t) && t.mode.Ground? && AtEnd(t) && Plain(s) && '\r' !in s
    ensures Typed(t, Feed(t, s), LinesOf(Visible(s)))
  {
    FeedVisible(t, s);
    VisibleFacts(s);
    FeedCharacters(t, Visible(s));
  }

  lemma {:induction false} FeedCharacters(t: Screen, s: string)
    requires Valid(t) && t.mode.Ground? && AtEnd(t) && ESC !in s && '\r' !in s
    ensures Typed(t, Feed(t, s), LinesOf(s))
    decreases |s|
  {
    if s == "" {
      assert t.lines[t.row] + "" == t.lines[t.row];
    } else {
      assert s[0] in s && forall i :: 0 <= i < |s[1..]| ==> s[1..][i] in s;
      var u := Receive(t, s[0]);
      TypeCharacter(t, s[0]);
      FeedCharacters(u, s[1..]);
      if s[0] == '\n' {
        TypedNewline(t, u, Feed(u, s[1..]), LinesOf(s[1..]));
      } else {
        TypedCharacter(t, u, Feed(u, s[1..]), s[0], LinesOf(s[1..]));
      }
    }
  }

  /** The last line of `a` and the first of `b` become one. */
  function Pasted(a: seq<string>, b: seq<string>): seq<string>
    requires a != [] && b != []
  {
    a[..|a| - 1] + [a[|a| - 1] + b[0]] + b[1..]
  }

  lemma PastedRow(row: string, a: seq<string>, b: seq<string>)
    requires a != [] && b != []
    ensures Pasted([row] + a, b) == [row] + Pasted(a, b)
  {
    assert ([row] + a)[..|a|] == [row] + a[..|a| - 1];
  }

  lemma PastedCharacter(c: char, a: seq<string>, b: seq<string>)
    requires a != [] && b != []
    ensures Pasted([[c] + a[0]] + a[1..], b) == [[c] + Pasted(a, b)[0]] + Pasted(a, b)[1..]
  {
    if |a| == 1 {
      assert [c] + a[0] + b[0] == [c] + (a[0] + b[0]);
    }
  }

  /** The lines of two texts one after the other. */
  lemma {:induction false} LinesConcat(a: string, b: string)
    ensures LinesOf(a + b) == Pasted(LinesOf(a), LinesOf(b))
  {
    if a == "" {
      assert a + b == b && "" + LinesOf(b)[0] == LinesOf(b)[0];
    } else {
      assert (a + b)[1..] == a[1..] + b;
      LinesConcat(a[1..], b);
      if a[0] == '\n' {
        PastedRow("", LinesOf(a[1..]), LinesOf(b));
      } else {
        PastedCharacter(a[0], LinesOf(a[1..]), LinesOf(b));
      }
    }
  }

  /** A stream that shows what is written to it. */
  class Output {
    var screen: Screen

    constructor (screen: Screen)
      ensures this.screen == screen
    {
      this.screen := screen;
    }

    method Write(s: string)
      requires Valid(screen)
      modifies this
      ensures Valid(screen) && screen == Feed(old(screen), s)
    {
      for i := 0 to |s|
        invariant Valid(screen) && Feed(screen, s[i..]) == Feed(old(screen), s)
      {
        ReceiveValid(screen, s[i]);
        assert s[i..][1..] == s[i + 1..];
        screen := Receive(screen, s[i]);
      }
    }
  }
}

/** The QR scan phase of `login` (src/commands/login/qrScanPhase.ts): print a block, keep its
    last row up to date, erase the block. */
module QrScan {
  import opened Decimal
  import opened Options
  import opened Sequences
  import opened Terminal

  const INDENT := "  "
  const CAPTION := INDENT + "Scan with the Polkadot" + " mobile app to log in:"
  const SPINNER := "⠋⠙⠹⠸⠼⠴⠦⠧⠇⠏"

  datatype Status =
    | Waiting | Pending(stage: string) | Paired | Success(addresses: string) | Failed(message: string)

  /** A spinner tick or a report of the login, in the order they come. */
  datatype Event = Tick | Report(status: Status)

  function StatusLabel(status: Status): string {
    match status
    case Waiting => "waiting for you to scan…"
    case Pending(_) => "syncing…"
    case Paired => "paired, finalizing…"
    case Success(_) => "signed in"
    case Failed(message) => message
  }

  /** Erases a block of `lines` rows whose last row holds the cursor. */
  function EraseBlock(lines: int): string {
    if lines <= 0 then ""
    else if lines == 1 then "\r" + [ESC, '['] + "0" + "J"
    else "\r" + ([ESC, '['] + Digits(lines - 1) + "A") + ([ESC, '['] + "0" + "J")
  }

  function StripNewlines(s: string): string {
    if s != "" && s[|s| - 1] == '\n' then StripNewlines(s[..|s| - 1]) else s
  }

  /** The rows of the QR code: the parts between line feeds. */
  function QrRows(qr: string): nat {
    Newlines(StripNewlines(qr)) + 1
  }

  function BlockLines(qr: string): nat {
    QrRows(qr) + 4
  }

  function Header(qr: string): string {
    CAPTION + "\n\n" + StripNewlines(qr) + "\n\n"
  }

  function StatusLine(isTty: bool, tick: nat, shown: string): string {
    if isTty then "\r" + [ESC, '['] + "K" + (INDENT + [SPINNER[tick % |SPINNER|]] + " " + shown)
    else INDENT + shown + "\n"
  }

  /** One rendering of the status line. */
  datatype Frame = Frame(tick: nat, shown: string)

  /** A tick turns the spinner, a report changes the label. */
  function Next(frame: Frame, e: Event): Frame {
    match e
    case Tick => frame.(tick := frame.tick + 1)
    case Report(status) => frame.(shown := StatusLabel(status))
  }

  predicate Renders(animated: bool, e: Event) {
    e.Tick? ==> animated
  }

  /** The renderings that follow `frame`: one a report, and one a tick while animating. */
  function Frames(frame: Frame, animated: bool, events: seq<Event>): seq<Frame>
    decreases |events|
  {
    if events == [] then []
    else if Renders(animated, events[0]) then
      [Next(frame, events[0])] + Frames(Next(frame, events[0]), animated, events[1..])
    else Frames(frame, animated, events[1..])
  }

  function StatusLines(isTty: bool, frames: seq<Frame>): string {
    if frames == [] then ""
    else StatusLine(isTty, frames[0].tick, frames[0].shown) + StatusLines(isTty, frames[1..])
  }

  const FIRST := Frame(0, StatusLabel(Waiting))

  /** Everything the phase writes. */
  function Transcript(isTty: bool, animate: bool, qr: string, events: seq<Event>): string {
    Header(qr) + StatusLines(isTty, [FIRST] + Frames(FIRST, isTty && animate, events))
    + if isTty then EraseBlock(BlockLines(qr)) else "\n"
  }

  function TotalNewlines(frames: seq<Frame>): nat {
    if frames == [] then 0 else Newlines(frames[0].shown) + TotalNewlines(frames[1..])
  }

  // ---------- Printing the block ----------

  lemma {:induction false} StripPlain(s: string)
    requires Plain(s)
    ensures Plain(StripNewlines(s))
  {
    if s != "" && s[|s| - 1] == '\n' {
      assert s == s[..|s| - 1] + "\n";
      PlainBeforeNewline(s[..|s| - 1]);
      StripPlain(s[..|s| - 1]);
    }
  }

  lemma HeaderRows(t: Screen, qr: string)
    requires Valid(t) && t.mode.Ground? && Plain(qr)
    ensures Below(t, Feed(t, Header(qr)), BlockLines(qr) - 1)
  {
    StripPlain(qr);
    assert Newlines(CAPTION) == 0 && Plain(CAPTION) by { CaptionPlain(); }
    assert Newlines("\n\n") == 2;
    NewlinesConcat(CAPTION, "\n\n");
    NewlinesConcat(CAPTION + "\n\n", StripNewlines(qr));
    NewlinesConcat(CAPTION + "\n\n" + StripNewlines(qr), "\n\n");
    NoEscapePlain("\n\n");
    PlainConcat(CAPTION, "\n\n");
    PlainConcat(CAPTION + "\n\n", StripNewlines(qr));
    PlainConcat(CAPTION + "\n\n" + StripNewlines(qr), "\n\n");
    FeedPlain(t, Header(qr));
  }

  lemma CaptionPlain()
    ensures Newlines(CAPTION) == 0 && Plain(CAPTION)
  {
    assert '\n' !in INDENT && ESC !in INDENT;
    assert '\n' !in "Scan with the Polkadot" && ESC !in "Scan with the Polkadot";
    assert '\n' !in " mobile app to log in:" && ESC !in " mobile app to log in:";
    NoNewlines(CAPTION);
    NoEscapePlain(CAPTION);
  }

  // ---------- The status line ----------

  lemma RenderRows(t: Screen, tick: nat, shown: string)
    requires Valid(t) && t.mode.Ground? && Plain(shown)
    ensures Below(t, Feed(t, StatusLine(true, tick, shown)), Newlines(shown))
  {
    var text := INDENT + [SPINNER[tick % |SPINNER|]] + " " + shown;
    var clear := "\r" + ([ESC, '['] + "" + "K");
    FrameRows(tick, shown);
    assert StatusLine(true, tick, shown) == clear + text;
    FeedConcat(t, clear, text);
    ClearLine(t);
    var v := Feed(t, clear);
    FeedPlain(v, text);
    BelowTrans(t, v, Feed(v, text), 0, Newlines(shown));
  }

  lemma ClearLine(t: Screen)
    requires Valid(t) && t.mode.Ground?
    ensures Below(t, Feed(t, "\r" + ([ESC, '['] + "" + "K")), 0)
    ensures Feed(t, "\r" + ([ESC, '['] + "" + "K")) == t.(lines := t.lines[t.row := ""], col := 0)
  {
    FeedConcat(t, "\r", [ESC, '['] + "" + "K");
    ReturnCarriage(t);
    EraseLine(t.(col := 0));
  }

  lemma EraseLine(t: Screen)
    requires Valid(t) && t.mode.Ground? && t.col == 0
    ensures Feed(t, [ESC, '['] + "" + "K") == t.(lines := t.lines[t.row := ""])
  {
    FeedControl(t, "", 'K');
    EraseWhole(t.lines[t.row]);
  }

  lemma EraseWhole(line: string)
    ensures EraseFrom(line, 0) == ""
  {
  }

  lemma FrameRows(tick: nat, shown: string)
    requires Plain(shown)
    ensures Newlines(INDENT + [SPINNER[tick % |SPINNER|]] + " " + shown) == Newlines(shown)
    ensures Plain(INDENT + [SPINNER[tick % |SPINNER|]] + " " + shown)
  {
    var frame := INDENT + [SPINNER[tick % |SPINNER|]] + " ";
    var c := SPINNER[tick % |SPINNER|];
    assert c in SPINNER && '\n' !in SPINNER && ESC !in SPINNER;
    NoNewlines(frame);
    NewlinesConcat(frame, shown);
    NoEscapePlain(frame);
    PlainConcat(frame, shown);
  }

  lemma {:induction false} StatusLinesRows(t: Screen, frames: seq<Frame>)
    requires Valid(t) && t.mode.Ground? && forall f :: f in frames ==> Plain(f.shown)
    ensures Below(t, Feed(t, StatusLines(true, frames)), TotalNewlines(frames))
    decreases |frames|
  {
    if frames != [] {
      var first, rest := frames[0], frames[1..];
      RenderRows(t, first.tick, first.shown);
      var u := Feed(t, StatusLine(true, first.tick, first.shown));
      StatusLinesRows(u, rest);
      FeedConcat(t, StatusLine(true, first.tick, first.shown), StatusLines(true, rest));
      BelowTrans(t, u, Feed(u, StatusLines(true, rest)), Newlines(first.shown), TotalNewlines(rest));
    }
  }

  // ---------- Erasing the block ----------

  /** The cursor goes up by the block's rows less one, as far as the screen allows, and
      everything from there down becomes blank. */
  lemma EraseRows(t: Screen, lines: nat)
    requires Valid(t) && t.mode.Ground? && lines >= 2
    ensures var u := Feed(t, EraseBlock(lines));
      && u.mode.Ground? && u.col == 0 && u.top == t.top
      && u.row == (if t.row < t.top + lines - 1 then t.top else t.row + 1 - lines)
      && (forall i :: 0 <= i < u.row ==> u.lines[i] == t.lines[i])
      && (forall i :: u.row <= i < |u.lines| ==> u.lines[i] == "")
  {
    var up, below := [ESC, '['] + Digits(lines - 1) + "A", [ESC, '['] + "0" + "J";
    FeedConcat(t, "\r" + up, below);
    FeedConcat(t, "\r", up);
    ReturnCarriage(t);
    var u := t.(col := 0);
    CursorUp(u, lines - 1);
    EraseDown(Feed(u, up));
  }

  lemma ReturnCarriage(t: Screen)
    requires Valid(t) && t.mode.Ground?
    ensures Feed(t, "\r") == t.(col := 0)
  {
    assert "\r"[1..] == "";
  }

  lemma CursorUp(t: Screen, n: nat)
    requires Valid(t) && t.mode.Ground? && n > 0
    ensures Feed(t, [ESC, '['] + Digits(n) + "A") == t.(row := if t.row < t.top + n then t.top else t.row - n)
  {
    FeedControl(t, Digits(n), 'A');
    ValueOfDigits(n);
  }

  lemma EraseDown(t: Screen)
    requires Valid(t) && t.mode.Ground? && t.col == 0
    ensures var u := Feed(t, [ESC, '['] + "0" + "J");
      && u.mode.Ground? && u.col == 0 && u.top == t.top && u.row == t.row && |u.lines| == |t.lines|
      && (forall i :: 0 <= i < u.row ==> u.lines[i] == t.lines[i])
      && (forall i :: u.row <= i < |u.lines| ==> u.lines[i] == "")
  {
    FeedControl(t, "0", 'J');
    assert Value("0") == 0 by {
      assert "0"[..0] == "";
    }
  }

  /** How many rows of the block do not fit on the screen. */
  function Excess(t: Screen, qr: string): nat {
    if BlockLines(qr) <= t.height then 0 else BlockLines(qr) - t.height
  }

  /** The whole output on a terminal: the block, renderings of the status line, the erasure. */
  lemma BlockIsErased(t: Screen, qr: string, frames: seq<Frame>)
    requires Valid(t) && t.mode.Ground? && Plain(qr) && forall f :: f in frames ==> Plain(f.shown)
    ensures var u := Feed(t, Header(qr) + StatusLines(true, frames) + EraseBlock(BlockLines(qr)));
      && u.col == 0 && u.row == t.row + TotalNewlines(frames) + Excess(t, qr)
      && (forall i :: 0 <= i < t.row ==> u.lines[i] == t.lines[i])
      && (forall i :: u.row <= i < |u.lines| ==> u.lines[i] == "")
  {
    HeaderRows(t, qr);
    var v := Feed(t, Header(qr));
    StatusLinesRows(v, frames);
    var w := Feed(v, StatusLines(true, frames));
    FeedConcat(t, Header(qr), StatusLines(true, frames));
    FeedConcat(t, Header(qr) + StatusLines(true, frames), EraseBlock(BlockLines(qr)));
    BelowTrans(t, v, w, BlockLines(qr) - 1, TotalNewlines(frames));
    EraseRows(w, BlockLines(qr));
  }

  /** Only an error message can bring a line feed into the status line. */
  lemma {:induction false} FramesSingleLine(frame: Frame, animated: bool, events: seq<Event>)
    requires Newlines(frame.shown) == 0
    ensures TotalNewlines(Frames(frame, animated, events)) == 0 <==>
      forall m: string :: Report(Failed(m)) in events ==> '\n' !in m
    decreases |events|
  {
    if events != [] {
      var e, rest := events[0], events[1..];
      assert forall x :: x in events <==> x == e || x in rest;
      var next := Next(frame, e);
      NoNewlines(next.shown);
      if e.Report? {
        FixedLabels(e.status);
      }
      if !Renders(animated, e) {
        FramesSingleLine(frame, animated, rest);
      } else if Newlines(next.shown) == 0 {
        FramesSingleLine(next, animated, rest);
      }
    }
  }

  lemma {:induction false} FramesPlain(frame: Frame, animated: bool, events: seq<Event>)
    requires Plain(frame.shown)
    requires forall m: string :: Report(Failed(m)) in events ==> Plain(m)
    ensures forall f :: f in Frames(frame, animated, events) ==> Plain(f.shown)
    decreases |events|
  {
    if events != [] {
      var e, rest := events[0], events[1..];
      assert forall x :: x in events <==> x == e || x in rest;
      if e.Report? {
        FixedLabels(e.status);
      }
      FramesPlain(if Renders(animated, e) then Next(frame, e) else frame, animated, rest);
    }
  }

  /** Text of one line, without control functions other than colours. */
  predicate OneLine(shown: string) {
    Plain(shown) && '\n' !in shown && '\r' !in shown
  }

  lemma FixedLabels(status: Status)
    ensures !status.Failed? ==> OneLine(StatusLabel(status))
  {
    match status
    case Waiting => PrintableIsOneLine("waiting for you to scan…");
    case Pending(_) => PrintableIsOneLine("syncing…");
    case Paired => PrintableIsOneLine("paired, finalizing…");
    case Success(_) => PrintableIsOneLine("signed in");
    case Failed(_) =>
  }

  lemma PrintableIsOneLine(text: string)
    requires ESC !in text && '\n' !in text && '\r' !in text
    ensures OneLine(text)
  {
    NoEscapePlain(text);
  }

  /** On a terminal, for every QR text and every sequence of ticks and reports, the phase ends
      with blank rows from the cursor down and the rows above the block untouched; and the
      cursor is in the block's first row exactly when the block fits on the screen and no
      error message spans lines. Otherwise it is lower, by one row for each row that did not fit
      and one for each line feed shown, and those rows stay. */
  lemma PhaseErasesIffSingleLines(t: Screen, animate: bool, qr: string, events: seq<Event>)
    requires Valid(t) && t.mode.Ground? && Plain(qr)
    requires forall m: string :: Report(Failed(m)) in events ==> Plain(m)
    ensures var u := Feed(t, Transcript(true, animate, qr, events));
      && u.col == 0
      && u.row == t.row + TotalNewlines(Frames(FIRST, animate, events)) + Excess(t, qr)
      && (u.row == t.row <==>
            BlockLines(qr) <= t.height && forall m: string :: Report(Failed(m)) in events ==> '\n' !in m)
      && (forall i :: 0 <= i < t.row ==> u.lines[i] == t.lines[i])
      && (forall i :: u.row <= i < |u.lines| ==> u.lines[i] == "")
  {
    FixedLabels(Waiting);
    NoNewlines(FIRST.shown);
    FramesSingleLine(FIRST, animate, events);
    FramesPlain(FIRST, animate, events);
    var frames := [FIRST] + Frames(FIRST, animate, events);
    assert frames[1..] == Frames(FIRST, animate, events);
    BlockIsErased(t, qr, frames);
  }

  /** A single error report leaves behind one row of the block for each line feed in its message. */
  lemma ErrorStrandsRows(t: Screen, animate: bool, qr: string, message: string)
    requires Valid(t) && t.mode.Ground? && Plain(qr) && Plain(message)
    ensures var u := Feed(t, Transcript(true, animate, qr, [Report(Failed(message))]));
      && u.row == t.row + Newlines(message) + Excess(t, qr)
      && ('\n' in message ==> u.row > t.row)
  {
    var events := [Report(Failed(message))];
    NoNewlines(message);
    ErrorFrame(animate, message);
    PhaseErasesIffSingleLines(t, animate, qr, events);
  }

  lemma ErrorFrame(animate: bool, message: string)
    ensures TotalNewlines(Frames(FIRST, animate, [Report(Failed(message))])) == Newlines(message)
  {
    var events, frame := [Report(Failed(message))], Frame(0, message);
    assert events[1..] == [] && Next(FIRST, events[0]) == frame;
    assert Frames(FIRST, animate, events) == [frame] + Frames(frame, animate, []);
    assert [frame][1..] == [];
  }

  // ---------- What is on the screen while the phone is awaited ----------

  /** The status row of a frame, without colours. */
  function StatusText(frame: Frame): string
    requires Plain(frame.shown)
  {
    INDENT + [SPINNER[frame.tick % |SPINNER|]] + " " + Visible(frame.shown)
  }

  /** Text of one line is added to the cursor's line. */
  lemma {:induction false} FeedRow(t: Screen, s: string)
    requires Valid(t) && t.mode.Ground? && t.col == |t.lines[t.row]|
    requires ESC !in s && '\n' !in s && '\r' !in s
    ensures Feed(t, s) == t.(lines := t.lines[t.row := t.lines[t.row] + s], col := t.col + |s|)
    decreases |s|
  {
    if s == "" {
      assert t.lines[t.row] + "" == t.lines[t.row];
    } else {
      assert s[0] in s && forall i :: 0 <= i < |s[1..]| ==> s[1..][i] in s;
      ReceiveValid(t, s[0]);
      assert t.lines[t.row] + Spaces(0) == t.lines[t.row];
      FeedRow(Receive(t, s[0]), s[1..]);
      assert t.lines[t.row] + [s[0]] + s[1..] == t.lines[t.row] + s;
    }
  }

  /** After a rendering the cursor's row is the frame and nothing else, whatever it was before, and
      no other row has changed. */
  lemma RenderShows(t: Screen, frame: Frame)
    requires Valid(t) && t.mode.Ground? && OneLine(frame.shown)
    ensures Feed(t, StatusLine(true, frame.tick, frame.shown))
      == t.(lines := t.lines[t.row := StatusText(frame)], col := |StatusText(frame)|)
  {
    var start := INDENT + [SPINNER[frame.tick % |SPINNER|]] + " ";
    var clear := "\r" + ([ESC, '['] + "" + "K");
    assert StatusLine(true, frame.tick, frame.shown) == clear + (start + frame.shown);
    FeedConcat(t, clear, start + frame.shown);
    ClearLine(t);
    StartPlain(frame.tick);
    VisibleConcat(start, frame.shown);
    var v := t.(lines := t.lines[t.row := ""], col := 0);
    FeedVisible(v, start + frame.shown);
    OneLineVisible(frame.shown);
    FeedRow(v, StatusText(frame));
    assert "" + StatusText(frame) == StatusText(frame);
    assert t.lines[t.row := ""][t.row := StatusText(frame)] == t.lines[t.row := StatusText(frame)];
  }

  lemma StartPlain(tick: nat)
    ensures var start := INDENT + [SPINNER[tick % |SPINNER|]] + " ";
      Plain(start) && Visible(start) == start && ESC !in start && '\n' !in start && '\r' !in start
  {
    var start := INDENT + [SPINNER[tick % |SPINNER|]] + " ";
    assert SPINNER[tick % |SPINNER|] in SPINNER && '\n' !in SPINNER && ESC !in SPINNER && '\r' !in SPINNER;
    VisibleOfVisible(start);
  }

  lemma OneLineVisible(shown: string)
    requires OneLine(shown)
    ensures ESC !in Visible(shown) && '\n' !in Visible(shown) && '\r' !in Visible(shown)
  {
    VisibleFacts(shown);
    NoNewlines(shown);
    NoNewlines(Visible(shown));
  }

  lemma {:induction false} StatusLinesSnoc(isTty: bool, front: seq<Frame>, last: Frame)
    ensures StatusLines(isTty, front + [last]) == StatusLines(isTty, front) + StatusLine(isTty, last.tick, last.shown)
  {
    if front == [] {
      assert front + [last] == [last] && [last][1..] == [];
      assert "" + StatusLine(isTty, last.tick, last.shown) == StatusLine(isTty, last.tick, last.shown);
    } else {
      assert (front + [last])[1..] == front[1..] + [last];
      StatusLinesSnoc(isTty, front[1..], last);
      Reassociate(StatusLine(isTty, front[0].tick, front[0].shown), StatusLines(isTty, front[1..]),
                  StatusLine(isTty, last.tick, last.shown));
    }
  }

  /** After any renderings, also of messages that span lines, the row of the cursor is exactly the
      last of them, if that has one line. */
  lemma LastFrameShows(t: Screen, frames: seq<Frame>)
    requires Valid(t) && t.mode.Ground? && frames != [] && forall f :: f in frames ==> Plain(f.shown)
    requires OneLine(frames[|frames| - 1].shown)
    ensures var u, last := Feed(t, StatusLines(true, frames)), frames[|frames| - 1];
      u.lines[u.row] == StatusText(last) && u.col == |StatusText(last)|
  {
    var front, last := frames[..|frames| - 1], frames[|frames| - 1];
    assert frames == front + [last];
    StatusLinesSnoc(true, front, last);
    FeedConcat(t, StatusLines(true, front), StatusLine(true, last.tick, last.shown));
    StatusLinesRows(t, front);
    RenderShows(Feed(t, StatusLines(true, front)), last);
  }

  /** Renderings of one line each change that one row. */
  lemma {:induction false} SingleRowsShow(t: Screen, frames: seq<Frame>)
    requires Valid(t) && t.mode.Ground? && frames != [] && forall f :: f in frames ==> OneLine(f.shown)
    ensures OneLine(frames[|frames| - 1].shown)
    ensures var last := frames[|frames| - 1];
      Feed(t, StatusLines(true, frames)) == t.(lines := t.lines[t.row := StatusText(last)], col := |StatusText(last)|)
    decreases |frames|
  {
    var front, last := frames[..|frames| - 1], frames[|frames| - 1];
    assert frames == front + [last] && last in frames;
    if front != [] {
      forall f | f in front ensures OneLine(f.shown) {
        assert f in frames;
      }
      SingleRowsShow(t, front);
    }
    OneMoreRow(t, Feed(t, StatusLines(true, front)), front, last);
  }

  lemma OneMoreRow(t: Screen, v: Screen, front: seq<Frame>, last: Frame)
    requires Valid(t) && t.mode.Ground? && OneLine(last.shown) && v == Feed(t, StatusLines(true, front))
    requires v == t.(lines := t.lines[t.row := v.lines[v.row]], col := v.col)
    ensures Feed(t, StatusLines(true, front + [last]))
      == t.(lines := t.lines[t.row := StatusText(last)], col := |StatusText(last)|)
  {
    StatusLinesSnoc(true, front, last);
    FeedConcat(t, StatusLines(true, front), StatusLine(true, last.tick, last.shown));
    RenderShows(v, last);
    assert v.lines[v.row := StatusText(last)] == t.lines[t.row := StatusText(last)];
  }

  function Ticks(events: seq<Event>): nat {
    if events == [] then 0 else Ticks(events[..|events| - 1]) + if events[|events| - 1].Tick? then 1 else 0
  }

  function LastReport(events: seq<Event>): Option<Status> {
    if events == [] then None
    else if events[|events| - 1].Report? then Some(events[|events| - 1].status)
    else LastReport(events[..|events| - 1])
  }

  /** What the status line is to show: a spinner that turns with every tick while animated, and the
      label of the last report. */
  function ShownFrame(animated: bool, events: seq<Event>): Frame {
    var report := LastReport(events);
    Frame(if animated then Ticks(events) else 0, StatusLabel(if report.Some? then report.value else Waiting))
  }

  lemma {:induction false} FramesSnoc(frame: Frame, animated: bool, front: seq<Event>, e: Event)
    ensures Frames(frame, animated, front + [e]) ==
      var before := [frame] + Frames(frame, animated, front);
      Frames(frame, animated, front) + if Renders(animated, e) then [Next(before[|before| - 1], e)] else []
    decreases |front|
  {
    if front == [] {
      assert front + [e] == [e] && [e][1..] == [];
    } else {
      assert (front + [e])[1..] == front[1..] + [e];
      var next := if Renders(animated, front[0]) then Next(frame, front[0]) else frame;
      FramesSnoc(next, animated, front[1..], e);
    }
  }

  /** After any events the last frame is that one. */
  lemma {:induction false} LastFrame(animated: bool, events: seq<Event>)
    ensures var frames := [FIRST] + Frames(FIRST, animated, events);
      frames[|frames| - 1] == ShownFrame(animated, events)
  {
    if events != [] {
      var front, e := events[..|events| - 1], events[|events| - 1];
      LastFrame(animated, front);
      FramesSnoc(FIRST, animated, front, e);
      assert events == front + [e];
    }
  }

  /** After any events the status row is the spinner and label of the last frame, whatever longer
      label was there before. */
  lemma StatusRowShows(t: Screen, animate: bool, qr: string, events: seq<Event>)
    requires Valid(t) && t.mode.Ground? && Plain(qr)
    requires forall m: string :: Report(Failed(m)) in events ==> Plain(m)
    requires OneLine(ShownFrame(animate, events).shown)
    ensures var u, row := Feed(t, Header(qr) + StatusLines(true, [FIRST] + Frames(FIRST, animate, events))),
                          StatusText(ShownFrame(animate, events));
      u.lines[u.row] == row && u.col == |row|
  {
    var frames := [FIRST] + Frames(FIRST, animate, events);
    FixedLabels(Waiting);
    FramesPlain(FIRST, animate, events);
    HeaderRows(t, qr);
    FeedConcat(t, Header(qr), StatusLines(true, frames));
    LastFrame(animate, events);
    LastFrameShows(Feed(t, Header(qr)), frames);
  }

  // ---------- The rows of the block ----------

  function HeaderLines(lines: seq<string>): seq<string> {
    [CAPTION, ""] + lines + ["", ""]
  }

  lemma LinesOfHeader(body: string)
    ensures LinesOf(CAPTION + "\n\n" + body + "\n\n") == HeaderLines(LinesOf(body))
  {
    CaptionLines();
    LinesConcat(CAPTION + "\n\n", body);
    PastedUnder(CAPTION, LinesOf(body));
    LinesConcat(CAPTION + "\n\n" + body, "\n\n");
    PastedFeeds([CAPTION, ""] + LinesOf(body));
  }

  lemma PastedUnder(row: string, lines: seq<string>)
    requires lines != []
    ensures Pasted([row, "", ""], lines) == [row, ""] + lines
  {
    assert "" + lines[0] == lines[0] && [lines[0]] + lines[1..] == lines;
  }

  lemma CaptionLines()
    ensures LinesOf("\n\n") == ["", "", ""] && LinesOf(CAPTION + "\n\n") == [CAPTION, "", ""]
  {
    CaptionPlain();
    OneLineOf(CAPTION);
    assert "\n\n"[1..] == "\n" && "\n"[1..] == "" && LinesOf("") == [""] && LinesOf("\n") == ["", ""];
    LinesConcat(CAPTION, "\n\n");
    assert CAPTION + "" == CAPTION;
  }

  lemma PastedFeeds(lines: seq<string>)
    requires lines != []
    ensures Pasted(lines, ["", "", ""]) == lines + ["", ""]
  {
    var n := |lines| - 1;
    assert lines[n] + "" == lines[n] && lines[..n] + [lines[n]] == lines;
  }

  lemma {:induction false} OneLineOf(s: string)
    requires Newlines(s) == 0
    ensures LinesOf(s) == [s]
  {
    if s != "" {
      OneLineOf(s[1..]);
      assert [s[0]] + s[1..] == s;
    }
  }

  lemma HeaderShows(t: Screen, qr: string)
    requires Valid(t) && t.mode.Ground? && Plain(qr) && '\r' !in qr
    requires forall i :: t.row <= i < |t.lines| ==> t.lines[i] == ""
    requires t.col == 0
    ensures Plain(StripNewlines(qr))
    ensures Typed(t, Feed(t, Header(qr)), HeaderLines(LinesOf(Visible(StripNewlines(qr)))))
  {
    StripPlain(qr);
    StripKeeps(qr);
    VisibleHeader(StripNewlines(qr));
    LinesOfHeader(Visible(StripNewlines(qr)));
    FeedTypes(t, Header(qr));
  }

  lemma VisibleHeader(body: string)
    requires Plain(body) && '\r' !in body
    ensures var header := CAPTION + "\n\n" + body + "\n\n";
      && Plain(header) && '\r' !in header
      && Visible(header) == CAPTION + "\n\n" + Visible(body) + "\n\n"
  {
    CaptionVisible();
    VisibleOfVisible("\n\n");
    VisibleConcat(CAPTION, "\n\n");
    VisibleConcat(CAPTION + "\n\n", body);
    VisibleConcat(CAPTION + "\n\n" + body, "\n\n");
  }

  lemma CaptionVisible()
    ensures Plain(CAPTION) && Visible(CAPTION) == CAPTION && '\r' !in CAPTION
  {
    CaptionPlain();
    assert ESC !in INDENT && ESC !in "Scan with the Polkadot" && ESC !in " mobile app to log in:";
    assert '\r' !in INDENT && '\r' !in "Scan with the Polkadot" && '\r' !in " mobile app to log in:";
    VisibleOfVisible(CAPTION);
  }

  lemma {:induction false} StripKeeps(s: string)
    ensures StripNewlines(s) <= s && (StripNewlines(s) != "" ==> StripNewlines(s)[|StripNewlines(s)| - 1] != '\n')
    ensures s == StripNewlines(s) + seq(|s| - |StripNewlines(s)|, _ => '\n')
  {
    if s != "" && s[|s| - 1] == '\n' {
      var front := s[..|s| - 1];
      StripKeeps(front);
      assert s == front + "\n";
    }
  }

  /** While the phone is awaited, on a cleared screen and with one-line messages: the block is the
      caption, a blank row, the QR code's rows without trailing line feeds, a blank row, and the
      status of the events so far, with the cursor at its end. */
  lemma BlockIsShown(t: Screen, animate: bool, qr: string, events: seq<Event>)
    requires Valid(t) && t.mode.Ground? && Plain(qr) && '\r' !in qr
    requires t.col == 0 && forall i :: t.row <= i < |t.lines| ==> t.lines[i] == ""
    requires forall m: string :: Report(Failed(m)) in events ==> OneLine(m)
    ensures Plain(StripNewlines(qr)) && Plain(ShownFrame(animate, events).shown)
    ensures var u := Feed(t, Header(qr) + StatusLines(true, [FIRST] + Frames(FIRST, animate, events)));
      var status := StatusText(ShownFrame(animate, events));
      && u.row == t.row + BlockLines(qr) - 1 && u.col == |status|
      && u.lines[t.row..u.row + 1] == [CAPTION, ""] + LinesOf(Visible(StripNewlines(qr))) + ["", status]
  {
    var frames := AllFrames(animate, events);
    FramesOnBlock(t, qr, frames, ShownFrame(animate, events));
  }

  lemma AllFrames(animate: bool, events: seq<Event>) returns (frames: seq<Frame>)
    requires forall m: string :: Report(Failed(m)) in events ==> OneLine(m)
    ensures frames == [FIRST] + Frames(FIRST, animate, events)
    ensures frames[|frames| - 1] == ShownFrame(animate, events) && forall f :: f in frames ==> OneLine(f.shown)
  {
    frames := [FIRST] + Frames(FIRST, animate, events);
    FramesOneLine(FIRST, animate, events);
    LastFrame(animate, events);
  }

  lemma FramesOnBlock(t: Screen, qr: string, frames: seq<Frame>, last: Frame)
    requires Valid(t) && t.mode.Ground? && Plain(qr) && '\r' !in qr
    requires t.col == 0 && forall i :: t.row <= i < |t.lines| ==> t.lines[i] == ""
    requires frames != [] && frames[|frames| - 1] == last && forall f :: f in frames ==> OneLine(f.shown)
    ensures Plain(StripNewlines(qr)) && Plain(last.shown)
    ensures var u := Feed(t, Header(qr) + StatusLines(true, frames));
      && u.row == t.row + BlockLines(qr) - 1 && u.col == |StatusText(last)|
      && u.lines[t.row..u.row + 1] == [CAPTION, ""] + LinesOf(Visible(StripNewlines(qr))) + ["", StatusText(last)]
  {
    HeaderShows(t, qr);
    VisibleFacts(StripNewlines(qr));
    var v := Feed(t, Header(qr));
    FeedConcat(t, Header(qr), StatusLines(true, frames));
    SingleRowsShow(v, frames);
    BlockRows(t, v, LinesOf(Visible(StripNewlines(qr))), StatusText(last));
  }

  lemma BlockRows(t: Screen, v: Screen, lines: seq<string>, status: string)
    requires Valid(t) && t.lines[t.row] == "" && lines != [] && Typed(t, v, HeaderLines(lines))
    ensures v.row == t.row + |lines| + 3
    ensures v.lines[v.row := status][t.row..v.row + 1] == [CAPTION, ""] + lines + ["", status]
  {
    var all, shown := HeaderLines(lines), v.lines[v.row := status][t.row..v.row + 1];
    assert "" + all[0] == all[0];
    forall k | 0 <= k < |all| - 1 ensures shown[k] == all[k] {
      assert v.lines[t.row + k] == all[k];
    }
    assert all[..|all| - 1] == [CAPTION, ""] + lines + [""];
    assert shown == all[..|all| - 1] + [status];
    assert [CAPTION, ""] + lines + [""] + [status] == [CAPTION, ""] + lines + ["", status];
  }

  lemma {:induction false} FramesOneLine(frame: Frame, animated: bool, events: seq<Event>)
    requires OneLine(frame.shown) || frame == FIRST
    requires forall m: string :: Report(Failed(m)) in events ==> OneLine(m)
    ensures OneLine(frame.shown) && forall f :: f in Frames(frame, animated, events) ==> OneLine(f.shown)
    decreases |events|
  {
    FixedLabels(Waiting);
    if events != [] {
      var e, rest := events[0], events[1..];
      assert forall x :: x in events <==> x == e || x in rest;
      if e.Report? {
        FixedLabels(e.status);
      }
      FramesOneLine(if Renders(animated, e) then Next(frame, e) else frame, animated, rest);
    }
  }

  // ---------- Without a terminal ----------

  /** A line for each report. */
  function ReportLines(events: seq<Event>): seq<string> {
    if events == [] then []
    else (match events[0] case Report(status) => [INDENT + StatusLabel(status)] case Tick => []) + ReportLines(events[1..])
  }

  lemma {:induction false} PipedLines(frame: Frame, events: seq<Event>)
    requires forall m: string :: Report(Failed(m)) in events ==> '\n' !in m
    ensures LinesOf(StatusLines(false, Frames(frame, false, events)) + "\n") == ReportLines(events) + ["", ""]
    decreases |events|
  {
    assert "\n"[1..] == "" && LinesOf("") == [""];
    if events == [] {
      assert "" + "\n" == "\n" && [] + ["", ""] == ["", ""];
    } else {
      var e, rest := events[0], events[1..];
      assert forall x :: x in events <==> x == e || x in rest;
      match e {
        case Tick =>
          PipedLines(frame, rest);
          assert [] + ReportLines(rest) == ReportLines(rest);
        case Report(status) =>
          var next := Next(frame, e);
          PipedLines(next, rest);
          FixedLabels(status);
          var more := StatusLines(false, Frames(next, false, rest)) + "\n";
          PipedLine(StatusLabel(status), more);
          StatusLinesCons(false, next, Frames(next, false, rest));
          Reassociate(StatusLine(false, next.tick, next.shown), StatusLines(false, Frames(next, false, rest)), "\n");
          Reassociate([INDENT + StatusLabel(status)], ReportLines(rest), ["", ""]);
      }
    }
  }

  lemma PipedLine(text: string, more: string)
    requires '\n' !in text
    ensures LinesOf(StatusLine(false, 0, text) + more) == [INDENT + text] + LinesOf(more)
  {
    var row := INDENT + text;
    assert '\n' !in INDENT;
    NoNewlines(row);
    OneLineOf(row);
    assert ("\n" + more)[1..] == more;
    LinesConcat(row, "\n" + more);
    assert row + ("\n" + more) == StatusLine(false, 0, text) + more;
    assert row + "" == row;
    assert Pasted([row], [""] + LinesOf(more)) == [row] + LinesOf(more);
  }

  /** Without a terminal there is no spinner and no erasure: the caption, the QR code, a line for the
      wait and one for each report, and a blank line. */
  lemma PipedTranscript(animate: bool, qr: string, events: seq<Event>)
    requires forall m: string :: Report(Failed(m)) in events ==> '\n' !in m
    ensures LinesOf(Transcript(false, animate, qr, events)) ==
      [CAPTION, ""] + LinesOf(StripNewlines(qr)) + ["", INDENT + StatusLabel(Waiting)] + ReportLines(events) + ["", ""]
  {
    var more := StatusLines(false, Frames(FIRST, false, events)) + "\n";
    var first := StatusLine(false, FIRST.tick, FIRST.shown);
    PipedFirst(events);
    LinesOfHeader(StripNewlines(qr));
    LinesConcat(Header(qr), first + more);
    PipedText(animate, qr, events);
    PastedStatus(LinesOf(StripNewlines(qr)), [INDENT + FIRST.shown] + (ReportLines(events) + ["", ""]));
    RegroupRows([CAPTION, ""] + LinesOf(StripNewlines(qr)), INDENT + FIRST.shown, ReportLines(events));
  }

  lemma RegroupRows(rows: seq<string>, first: string, more: seq<string>)
    ensures rows + [""] + ([first] + (more + ["", ""])) == rows + ["", first] + more + ["", ""]
  {
  }

  lemma PipedFirst(events: seq<Event>)
    requires forall m: string :: Report(Failed(m)) in events ==> '\n' !in m
    ensures LinesOf(StatusLine(false, FIRST.tick, FIRST.shown) + (StatusLines(false, Frames(FIRST, false, events)) + "\n"))
      == [INDENT + FIRST.shown] + (ReportLines(events) + ["", ""])
  {
    PipedLines(FIRST, events);
    FixedLabels(Waiting);
    PipedLine(FIRST.shown, StatusLines(false, Frames(FIRST, false, events)) + "\n");
  }

  lemma PipedText(animate: bool, qr: string, events: seq<Event>)
    ensures Transcript(false, animate, qr, events) ==
      Header(qr) + (StatusLine(false, FIRST.tick, FIRST.shown) + (StatusLines(false, Frames(FIRST, false, events)) + "\n"))
  {
    var first, rest := StatusLine(false, FIRST.tick, FIRST.shown), StatusLines(false, Frames(FIRST, false, events));
    StatusLinesCons(false, FIRST, Frames(FIRST, false, events));
    Reassociate(first, rest, "\n");
    Reassociate(Header(qr), first + rest, "\n");
  }

  lemma PastedStatus(lines: seq<string>, rows: seq<string>)
    requires rows != []
    ensures Pasted(HeaderLines(lines), rows) == [CAPTION, ""] + lines + [""] + rows
  {
    var all := HeaderLines(lines);
    assert all[..|all| - 1] == [CAPTION, ""] + lines + [""];
    assert "" + rows[0] == rows[0] && [rows[0]] + rows[1..] == rows;
  }

  // ---------- The phase ----------

  /** The addresses of the last success reported. */
  function LastAddresses(events: seq<Event>): Option<string> {
    if events == [] then None
    else match events[|events| - 1]
      case Report(Success(addresses)) => Some(addresses)
      case _ => LastAddresses(events[..|events| - 1])
  }

  /** The message of the last failure reported. */
  function LastError(events: seq<Event>): Option<string> {
    if events == [] then None
    else match events[|events| - 1]
      case Report(Failed(message)) => Some(message)
      case _ => LastError(events[..|events| - 1])
  }

  /** Redraws the status line, on top of what has been `written` since the screen was `t`. */
  method RenderStatus(out: Output, isTty: bool, frame: Frame, ghost t: Screen, ghost written: string)
    requires Valid(t) && Valid(out.screen) && out.screen == Feed(t, written)
    modifies out
    ensures Valid(out.screen) && out.screen == Feed(t, written + StatusLine(isTty, frame.tick, frame.shown))
  {
    FeedConcat(t, written, StatusLine(isTty, frame.tick, frame.shown));
    out.Write(StatusLine(isTty, frame.tick, frame.shown));
  }

  /** The first event adds its rendering, if any, to what the rest will write. */
  lemma FramesStep(isTty: bool, animated: bool, frame: Frame, events: seq<Event>, written: string)
    requires events != []
    ensures var e, all := events[0], written + StatusLines(isTty, Frames(frame, animated, events));
      if Renders(animated, e) then
        var next := Next(frame, e);
        all == written + StatusLine(isTty, next.tick, next.shown)
          + StatusLines(isTty, Frames(next, animated, events[1..]))
      else all == written + StatusLines(isTty, Frames(frame, animated, events[1..]))
  {
    if Renders(animated, events[0]) {
      var frames := Frames(frame, animated, events);
      assert frames[1..] == Frames(Next(frame, events[0]), animated, events[1..]);
    }
  }

  /** `events` is what happens while the login is awaited; `thrown` is its failure, if any. */
  method RunQrScanPhase(out: Output, isTty: bool, animate: bool, qr: string, events: seq<Event>,
                        thrown: Option<string>) returns (addresses: Option<string>, error: Option<string>)
    requires Valid(out.screen)
    modifies out
    ensures Valid(out.screen) && out.screen == Feed(old(out.screen), Transcript(isTty, animate, qr, events))
    ensures addresses == LastAddresses(events)
    ensures error == if thrown.Some? then thrown else LastError(events)
  {
    ghost var t := out.screen;
    ghost var written := Header(qr);
    var frame := FIRST;
    addresses, error := None, None;
    out.Write(Header(qr));
    RenderStatus(out, isTty, frame, t, written);
    written := written + StatusLine(isTty, frame.tick, frame.shown);
    ghost var all := written + StatusLines(isTty, Frames(FIRST, isTty && animate, events));
    assert events[0..] == events;
    for i := 0 to |events|
      invariant Valid(out.screen) && out.screen == Feed(t, written)
      invariant addresses == LastAddresses(events[..i]) && error == LastError(events[..i])
      invariant written + StatusLines(isTty, Frames(frame, isTty && animate, events[i..])) == all
    {
      FramesStep(isTty, isTty && animate, frame, events[i..], written);
      LastStep(events, i);
      assert events[i..][1..] == events[i + 1..];
      match events[i] {
        case Report(Success(a)) => addresses := Some(a);
        case Report(Failed(m)) => error := Some(m);
        case _ =>
      }
      if Renders(isTty && animate, events[i]) {
        frame := Next(frame, events[i]);
        RenderStatus(out, isTty, frame, t, written);
        written := written + StatusLine(isTty, frame.tick, frame.shown);
      }
    }
    assert events[..|events|] == events;
    error := if thrown.Some? then thrown else error;
    var end := if isTty then EraseBlock(BlockLines(qr)) else "\n";
    FeedConcat(t, written, end);
    out.Write(end);
    AllWritten(isTty, animate, qr, events, written, end);
  }

  lemma LastStep(events: seq<Event>, i: nat)
    requires i < |events|
    ensures LastAddresses(events[..i + 1]) ==
      match events[i] { case Report(Success(a)) => Some(a) case _ => LastAddresses(events[..i]) }
    ensures LastError(events[..i + 1]) ==
      match events[i] { case Report(Failed(m)) => Some(m) case _ => LastError(events[..i]) }
  {
    assert events[..i + 1][..i] == events[..i];
  }

  lemma AllWritten(isTty: bool, animate: bool, qr: string, events: seq<Event>, written: string, end: string)
    requires end == if isTty then EraseBlock(BlockLines(qr)) else "\n"
    requires written == Header(qr) + StatusLine(isTty, FIRST.tick, FIRST.shown)
      + StatusLines(isTty, Frames(FIRST, isTty && animate, events))
    ensures written + end == Transcript(isTty, animate, qr, events)
  {
    var rest := Frames(FIRST, isTty && animate, events);
    StatusLinesCons(isTty, FIRST, rest);
    Reassociate(Header(qr), StatusLine(isTty, FIRST.tick, FIRST.shown), StatusLines(isTty, rest));
  }

  lemma StatusLinesCons(isTty: bool, frame: Frame, rest: seq<Frame>)
    ensures StatusLines(isTty, [frame] + rest) == StatusLine(isTty, frame.tick, frame.shown) + StatusLines(isTty, rest)
  {
    assert ([frame] + rest)[1..] == rest;
  }
}

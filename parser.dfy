/** The command parser of package lang: it reads a script one line at a time,
    keeps the last background colour, the last background rectangle, the
    figures and an update flag, and turns them into a list of operations. */
module Lang {
  import opened Util
  import opened Ops

  /** The errors parseLine reports; in Go they are fmt.Errorf strings. */
  datatype ParseError =
    | ArgumentCount(command: string, expected: nat)
    | InvalidNumber(command: string, cause: string)
    | UnknownCommand(token: string)

  predicate IsDigit(c: char)
  {
    '0' <= c <= '9'
  }

  /** The number a string of decimal digits denotes. */
  function DigitsValue(d: string): nat
    requires forall i :: 0 <= i < |d| ==> IsDigit(d[i])
  {
    if |d| == 0 then 0
    else
      assert IsDigit(d[|d| - 1]);
      DigitsValue(d[..|d| - 1]) * 10 + (d[|d| - 1] as int - 48)
  }

  /** The decimal digits of n, as the error texts write a count: no leading zero. */
  function Numeral(n: nat): (r: string)
    ensures 0 < |r| && forall i :: 0 <= i < |r| ==> IsDigit(r[i])
    ensures |r| > 1 ==> r[0] != '0'
  {
    if n < 10 then [(n + 48) as char] else Numeral(n / 10) + [(n % 10 + 48) as char]
  }

  /** Reading the digits of n back gives n. */
  lemma {:induction false} NumeralValue(n: nat)
    ensures DigitsValue(Numeral(n)) == n
  {
    if n >= 10 {
      NumeralValue(n / 10);
      var d := Numeral(n);
      assert d[..|d| - 1] == Numeral(n / 10);
    }
  }

  /** The text of an error, as the Go code formats it: the command name or
      token always appears after a fixed lead-in, and the cause of an invalid
      number ends the message. */
  function Message(e: ParseError): (r: string)
    ensures e.ArgumentCount? ==>
              |r| == |e.command| + 20 + |Numeral(e.expected)| && r[..|e.command|] == e.command
              && r[|e.command|..|e.command| + 10] == " requires "
              && r[|e.command| + 10..|r| - 10] == Numeral(e.expected) && r[|r| - 10..] == " arguments"
    ensures e.InvalidNumber? ==>
              |r| == 20 + |e.command| + |e.cause| && r[..18] == "invalid number in "
              && r[18..18 + |e.command|] == e.command && r[18 + |e.command|..20 + |e.command|] == ": "
              && r[|r| - |e.cause|..] == e.cause
    ensures e.UnknownCommand? ==>
              |r| == 17 + |e.token| && r[..17] == "unknown command: " && r[17..] == e.token
  {
    match e
    case ArgumentCount(c, n) => c + " requires " + Numeral(n) + " arguments"
    case InvalidNumber(c, cause) => "invalid number in " + c + ": " + cause
    case UnknownCommand(t) => "unknown command: " + t
  }

  /** strconv.ParseFloat: a number, or the text of the error it reports. */
  type NumberParser = string -> Result<real, string>

  /** The four slots of a Parser. */
  datatype State = State(lastBgColor: Option<Operation>, lastBgRect: Option<BgRect>,
                         figures: seq<Figure>, hasUpdate: bool)

  /** The state `initialize` sets, which is also the zero value. */
  const Initial := State(None, None, [], false)

  /** The state a `reset` line leaves. */
  const AfterReset := State(Some(Reset), None, [], false)

  /** The operations the colour slot can hold. */
  predicate IsBackground(op: Operation)
  {
    op == WhiteFill || op == GreenFill || op == Reset
  }

  predicate Wf(s: State)
  {
    s.lastBgColor.Some? ==> IsBackground(s.lastBgColor.value)
  }

  predicate InUnit(f: Figure)
  {
    0.0 <= f.x <= 1.0 && 0.0 <= f.y <= 1.0
  }

  /** clamp: the value if it lies in [lo, hi], otherwise the nearer bound. */
  function Clamp(value: real, lo: real, hi: real): (r: real)
    ensures lo <= hi ==> lo <= r <= hi
    ensures lo <= value <= hi ==> r == value
    ensures value < lo ==> r == lo
    ensures lo <= value && hi < value ==> r == hi
    ensures r == value || r == lo || r == hi
  {
    if value < lo then lo
    else if value > hi then hi
    else value
  }

  /** A figure translated by (dx, dy), each coordinate clamped into [0,1]. */
  function Shift(f: Figure, dx: real, dy: real): Figure
  {
    Figure(Clamp(f.x + dx, 0.0, 1.0), Clamp(f.y + dy, 0.0, 1.0))
  }

  /** The figures after a `move`: every figure is translated and lies in
      the unit square afterwards; each coordinate is translated exactly when
      it stays in [0, 1], and otherwise lands on the bound it crossed. */
  function MoveAll(figs: seq<Figure>, dx: real, dy: real): (r: seq<Figure>)
    ensures |r| == |figs|
    ensures forall i :: 0 <= i < |r| ==> InUnit(r[i])
    ensures forall i :: 0 <= i < |r| ==>
              && (0.0 <= figs[i].x + dx <= 1.0 ==> r[i].x == figs[i].x + dx)
              && (figs[i].x + dx < 0.0 ==> r[i].x == 0.0)
              && (1.0 < figs[i].x + dx ==> r[i].x == 1.0)
    ensures forall i :: 0 <= i < |r| ==>
              && (0.0 <= figs[i].y + dy <= 1.0 ==> r[i].y == figs[i].y + dy)
              && (figs[i].y + dy < 0.0 ==> r[i].y == 0.0)
              && (1.0 < figs[i].y + dy ==> r[i].y == 1.0)
  {
    seq(|figs|, i requires 0 <= i < |figs| => Shift(figs[i], dx, dy))
  }

  /** The error of a number parse, nil when it succeeded. */
  function ErrorOf(r: Result<real, string>): (e: Option<string>)
    ensures e.None? <==> r.Ok?
  {
    if r.Err? then Some(r.error) else None
  }

  /** firstNonNil: the first error of the list, nil when there is none. */
  function FirstFailure(errs: seq<Option<string>>): (r: Option<string>)
    ensures r.None? <==> forall i :: 0 <= i < |errs| ==> errs[i].None?
    ensures r.Some? ==> exists i :: 0 <= i < |errs| && errs[i] == r
                                    && forall j :: 0 <= j < i ==> errs[j].None?
  {
    if errs == [] then None
    else if errs[0].Some? then errs[0]
    else
      var r := FirstFailure(errs[1..]);
      assert r.Some? ==> exists i :: 0 <= i < |errs[1..]| && errs[1..][i] == r
                                     && forall j :: 0 <= j < i ==> errs[1..][j].None?;
      assert forall i :: 0 <= i < |errs[1..]| ==> errs[1..][i] == errs[i + 1];
      r
  }

  /** firstNonNil as the Go code runs it: a loop that stops at the first
      error. */
  method FirstNonNil(errs: seq<Option<string>>) returns (err: Option<string>)
    ensures err == FirstFailure(errs)
  {
    var i := 0;
    while i < |errs|
      invariant 0 <= i <= |errs|
      invariant forall j :: 0 <= j < i ==> errs[j].None?
      invariant FirstFailure(errs) == FirstFailure(errs[i..])
    {
      if errs[i].Some? {
        return errs[i];
      }
      assert errs[i..][1..] == errs[i + 1..];
      i := i + 1;
    }
    return None;
  }

  /** parseLine on the state `s`: the new state, or the error. A line
      without tokens changes nothing. */
  function Step(s: State, line: seq<string>, num: NumberParser): Result<State, ParseError>
  {
    if |line| == 0 then Ok(s)
    else if line[0] == "white" then Ok(s.(lastBgColor := Some(WhiteFill)))
    else if line[0] == "green" then Ok(s.(lastBgColor := Some(GreenFill)))
    else if line[0] == "bgrect" then
      if |line| != 5 then Err(ArgumentCount("bgrect", 4))
      else
        var x1, y1, x2, y2 := num(line[1]), num(line[2]), num(line[3]), num(line[4]);
        var errs := [ErrorOf(x1), ErrorOf(y1), ErrorOf(x2), ErrorOf(y2)];
        var e := FirstFailure(errs);
        assert e.None? ==> errs[0].None? && errs[1].None? && errs[2].None? && errs[3].None?;
        if e.Some? then Err(InvalidNumber("bgrect", e.value))
        else Ok(s.(lastBgRect := Some(BgRect(x1.value, y1.value, x2.value, y2.value))))
    else if line[0] == "figure" then
      if |line| != 3 then Err(ArgumentCount("figure", 2))
      else
        var x, y := num(line[1]), num(line[2]);
        var errs := [ErrorOf(x), ErrorOf(y)];
        var e := FirstFailure(errs);
        assert e.None? ==> errs[0].None? && errs[1].None?;
        if e.Some? then Err(InvalidNumber("figure", e.value))
        else Ok(s.(figures := s.figures + [Figure(x.value, y.value)]))
    else if line[0] == "move" then
      if |line| != 3 then Err(ArgumentCount("move", 2))
      else
        var dx, dy := num(line[1]), num(line[2]);
        var errs := [ErrorOf(dx), ErrorOf(dy)];
        var e := FirstFailure(errs);
        assert e.None? ==> errs[0].None? && errs[1].None?;
        if e.Some? then Err(InvalidNumber("move", e.value))
        else Ok(s.(figures := MoveAll(s.figures, dx.value, dy.value)))
    else if line[0] == "reset" then Ok(AfterReset)
    else if line[0] == "update" then Ok(s.(hasUpdate := true))
    else Err(UnknownCommand(line[0]))
  }

  /** The loop of Parse over the lines: the state after the lines before the
      first failing one, and that line's error if there is one. */
  function Accumulate(s: State, lines: seq<seq<string>>, num: NumberParser): (State, Option<ParseError>)
    decreases |lines|
  {
    if lines == [] then (s, None)
    else
      match Step(s, lines[0], num)
      case Err(e) => (s, Some(e))
      case Ok(s') => Accumulate(s', lines[1..], num)
  }

  /** The four parts of finalize's output. */
  function RectPart(s: State): seq<Operation>
  {
    if s.lastBgRect.Some? then [BgRectOp(s.lastBgRect.value)] else []
  }

  function ColorPart(s: State): seq<Operation>
  {
    if s.lastBgColor.Some? then [s.lastBgColor.value] else []
  }

  function UpdatePart(s: State): seq<Operation>
  {
    if s.hasUpdate then [UpdateOp] else []
  }

  /** The operations finalize emits for a state. */
  function Emit(s: State): seq<Operation>
  {
    RectPart(s) + ColorPart(s) + FigureOps(s.figures) + UpdatePart(s)
  }

  function FigureOps(figs: seq<Figure>): (ops: seq<Operation>)
    ensures |ops| == |figs|
    ensures forall i :: 0 <= i < |figs| ==> ops[i] == FigureOp(figs[i])
  {
    seq(|figs|, i requires 0 <= i < |figs| => FigureOp(figs[i]))
  }

  /** What Parse returns when started in state `s`. */
  function ParseResult(s: State, lines: seq<seq<string>>, num: NumberParser): Result<seq<Operation>, ParseError>
  {
    var (s', e) := Accumulate(s, lines, num);
    if e.Some? then Err(e.value) else Ok(Emit(s'))
  }

  /** The parser; its fields are the four slots. */
  class Parser {
    var lastBgColor: Option<Operation>
    var lastBgRect: Option<BgRect>
    var figures: seq<Figure>
    var hasUpdate: bool

    function Snapshot(): State
      reads this
    {
      State(lastBgColor, lastBgRect, figures, hasUpdate)
    }

    /** The zero value `Parser{}`. */
    constructor ()
      ensures Snapshot() == Initial
    {
      lastBgColor, lastBgRect, figures, hasUpdate := None, None, [], false;
    }

    method Initialize()
      modifies this
      ensures Snapshot() == Initial
    {
      lastBgColor := None;
      lastBgRect := None;
      figures := [];
      hasUpdate := false;
    }

    /** Parse: feeds every line to ParseLine, stopping at the first error,
        and finalizes. The state is not re-initialised first, so what earlier
        calls accumulated is emitted again. */
    method Parse(lines: seq<seq<string>>, num: NumberParser) returns (result: Result<seq<Operation>, ParseError>)
      modifies this
      ensures result == ParseResult(old(Snapshot()), lines, num)
      ensures var (s, e) := Accumulate(old(Snapshot()), lines, num);
              Snapshot() == if e.Some? then s else s.(hasUpdate := false)
    {
      ghost var s0 := Snapshot();
      var i := 0;
      while i < |lines|
        invariant 0 <= i <= |lines|
        invariant Accumulate(s0, lines[..i], num) == (Snapshot(), None)
      {
        ghost var before := Snapshot();
        var err := ParseLine(lines[i], num);
        AccumulateAppend(s0, lines[..i], lines[i..], num);
        assert lines[..i] + lines[i..] == lines;
        if err.Some? {
          return Err(err.value);
        }
        AccumulateAppend(s0, lines[..i], [lines[i]], num);
        assert lines[..i + 1] == lines[..i] + [lines[i]];
        i := i + 1;
      }
      assert lines[..i] == lines;
      var ops := Finalize();
      result := Ok(ops);
    }

    /** parseLine: applies one tokenised line to the slots; on an error the
        slots are left as they were. */
    method ParseLine(line: seq<string>, num: NumberParser) returns (err: Option<ParseError>)
      modifies this
      ensures Step(old(Snapshot()), line, num).Ok? ==>
                err == None && Snapshot() == Step(old(Snapshot()), line, num).value
      ensures Step(old(Snapshot()), line, num).Err? ==>
                err == Some(Step(old(Snapshot()), line, num).error) && Snapshot() == old(Snapshot())
    {
      err := None;
      if |line| == 0 {
        return;
      }
      if line[0] == "white" {
        lastBgColor := Some(WhiteFill);
      } else if line[0] == "green" {
        lastBgColor := Some(GreenFill);
      } else if line[0] == "bgrect" {
        if |line| != 5 {
          return Some(ArgumentCount("bgrect", 4));
        }
        var x1, y1, x2, y2 := num(line[1]), num(line[2]), num(line[3]), num(line[4]);
        var errs := [ErrorOf(x1), ErrorOf(y1), ErrorOf(x2), ErrorOf(y2)];
        var e := FirstNonNil(errs);
        if e.Some? {
          return Some(InvalidNumber("bgrect", e.value));
        }
        assert errs[0].None? && errs[1].None? && errs[2].None? && errs[3].None?;
        lastBgRect := Some(BgRect(x1.value, y1.value, x2.value, y2.value));
      } else if line[0] == "figure" {
        if |line| != 3 {
          return Some(ArgumentCount("figure", 2));
        }
        var x, y := num(line[1]), num(line[2]);
        var errs := [ErrorOf(x), ErrorOf(y)];
        var e := FirstNonNil(errs);
        if e.Some? {
          return Some(InvalidNumber("figure", e.value));
        }
        assert errs[0].None? && errs[1].None?;
        figures := figures + [Figure(x.value, y.value)];
      } else if line[0] == "move" {
        if |line| != 3 {
          return Some(ArgumentCount("move", 2));
        }
        var dx, dy := num(line[1]), num(line[2]);
        var errs := [ErrorOf(dx), ErrorOf(dy)];
        var e := FirstNonNil(errs);
        if e.Some? {
          return Some(InvalidNumber("move", e.value));
        }
        assert errs[0].None? && errs[1].None?;
        var i := 0;
        while i < |figures|
          invariant 0 <= i <= |figures| == |old(figures)|
          invariant forall j :: 0 <= j < i ==> figures[j] == Shift(old(figures)[j], dx.value, dy.value)
          invariant forall j :: i <= j < |figures| ==> figures[j] == old(figures)[j]
          invariant lastBgColor == old(lastBgColor) && lastBgRect == old(lastBgRect)
          invariant hasUpdate == old(hasUpdate)
        {
          figures := figures[i := figures[i].(x := Clamp(figures[i].x + dx.value, 0.0, 1.0))];
          figures := figures[i := figures[i].(y := Clamp(figures[i].y + dy.value, 0.0, 1.0))];
          i := i + 1;
        }
        assert figures == MoveAll(old(figures), dx.value, dy.value);
      } else if line[0] == "reset" {
        Initialize();
        lastBgColor := Some(Reset);
      } else if line[0] == "update" {
        hasUpdate := true;
      } else {
        return Some(UnknownCommand(line[0]));
      }
    }

    /** finalize: emits rectangle, colour, figures and update, in that order,
        and clears only the update flag. */
    method Finalize() returns (result: seq<Operation>)
      modifies this`hasUpdate
      ensures result == Emit(old(Snapshot()))
      ensures Snapshot() == old(Snapshot()).(hasUpdate := false)
    {
      result := [];
      if lastBgRect.Some? {
        result := result + [BgRectOp(lastBgRect.value)];
      }
      if lastBgColor.Some? {
        result := result + [lastBgColor.value];
      }
      ghost var head := result;
      for i := 0 to |figures|
        invariant result == head + FigureOps(figures[..i])
      {
        assert FigureOps(figures[..i + 1]) == FigureOps(figures[..i]) + [FigureOp(figures[i])];
        result := result + [FigureOp(figures[i])];
      }
      assert figures[..|figures|] == figures;
      if hasUpdate {
        result := result + [UpdateOp];
        hasUpdate := false;
      }
    }
  }

  /** Running a + b runs a, and then b only if a raised no error. */
  lemma {:induction false} AccumulateAppend(s: State, a: seq<seq<string>>, b: seq<seq<string>>, num: NumberParser)
    ensures Accumulate(s, a + b, num)
            == (var (s1, e1) := Accumulate(s, a, num); if e1.Some? then (s1, e1) else Accumulate(s1, b, num))
    decreases |a|
  {
    if a == [] {
      assert a + b == b;
    } else {
      assert (a + b)[0] == a[0];
      assert (a + b)[1..] == a[1..] + b;
      match Step(s, a[0], num)
      case Err(e) =>
      case Ok(s') => AccumulateAppend(s', a[1..], b, num);
    }
  }

  /** Parse started in any state that keeps the colour slot well-formed
      leaves it well-formed: the slot only ever holds WhiteFill, GreenFill or
      Reset. */
  lemma {:induction false} AccumulateKeepsWf(s: State, lines: seq<seq<string>>, num: NumberParser)
    requires Wf(s)
    ensures Wf(Accumulate(s, lines, num).0)
    decreases |lines|
  {
    if lines != [] {
      match Step(s, lines[0], num)
      case Err(_) =>
      case Ok(s') => AccumulateKeepsWf(s', lines[1..], num);
    }
  }

  /** The lines that have at least one token. */
  function NonBlank(lines: seq<seq<string>>): seq<seq<string>>
  {
    if lines == [] then []
    else (if lines[0] == [] then [] else [lines[0]]) + NonBlank(lines[1..])
  }

  /** Empty and whitespace-only lines neither change the state nor fail. */
  lemma {:induction false} BlankLinesIgnored(s: State, lines: seq<seq<string>>, num: NumberParser)
    ensures Accumulate(s, lines, num) == Accumulate(s, NonBlank(lines), num)
    decreases |lines|
  {
    if lines != [] {
      if lines[0] == [] {
        assert NonBlank(lines) == NonBlank(lines[1..]);
        BlankLinesIgnored(s, lines[1..], num);
      } else {
        var rest := NonBlank(lines[1..]);
        assert NonBlank(lines) == [lines[0]] + rest;
        assert ([lines[0]] + rest)[0] == lines[0] && ([lines[0]] + rest)[1..] == rest;
        match Step(s, lines[0], num)
        case Err(_) =>
        case Ok(s') => BlankLinesIgnored(s', lines[1..], num);
      }
    }
  }

  /** The colour slot after a line, as a function of the previous slot and
      the line's first token alone. */
  function BackgroundAfter(slot: Option<Operation>, line: seq<string>): Option<Operation>
  {
    if |line| == 0 then slot
    else if line[0] == "white" then Some(WhiteFill)
    else if line[0] == "green" then Some(GreenFill)
    else if line[0] == "reset" then Some(Reset)
    else slot
  }

  /** The colour slot after all the lines: the last white, green or reset
      command decides it. */
  function LastBackground(slot: Option<Operation>, lines: seq<seq<string>>): Option<Operation>
    decreases |lines|
  {
    if lines == [] then slot else LastBackground(BackgroundAfter(slot, lines[0]), lines[1..])
  }

  /** Last write wins for the colour: after a parse without errors the slot
      holds what the last white, green or reset line put there, whatever
      else the lines did. */
  lemma {:induction false} BackgroundLastWins(s: State, lines: seq<seq<string>>, num: NumberParser)
    requires Accumulate(s, lines, num).1 == None
    ensures Accumulate(s, lines, num).0.lastBgColor == LastBackground(s.lastBgColor, lines)
    decreases |lines|
  {
    if lines != [] {
      match Step(s, lines[0], num)
      case Err(_) =>
      case Ok(s') =>
        assert s'.lastBgColor == BackgroundAfter(s.lastBgColor, lines[0]);
        BackgroundLastWins(s', lines[1..], num);
    }
  }

  /** Which slot each successful command writes: a colour command only the
      colour slot, bgrect only the rectangle slot, figure appends the figure
      as given (without clamping), move translates every figure into the
      unit square and is a no-op without figures, update only sets the flag;
      reset replaces everything by AfterReset. */
  lemma StepSlots(s: State, line: seq<string>, num: NumberParser)
    requires Step(s, line, num).Ok?
    ensures var s' := Step(s, line, num).value;
      && (|line| == 0 ==> s' == s)
      && (|line| > 0 && (line[0] == "white" || line[0] == "green") ==>
            s'.lastBgRect == s.lastBgRect && s'.figures == s.figures && s'.hasUpdate == s.hasUpdate
            && s'.lastBgColor == Some(if line[0] == "white" then WhiteFill else GreenFill))
      && (|line| > 0 && line[0] == "bgrect" ==>
            s'.lastBgColor == s.lastBgColor && s'.figures == s.figures && s'.hasUpdate == s.hasUpdate
            && num(line[1]).Ok? && num(line[2]).Ok? && num(line[3]).Ok? && num(line[4]).Ok?
            && s'.lastBgRect == Some(BgRect(num(line[1]).value, num(line[2]).value,
                                            num(line[3]).value, num(line[4]).value)))
      && (|line| > 0 && line[0] == "figure" ==>
            s'.lastBgColor == s.lastBgColor && s'.lastBgRect == s.lastBgRect && s'.hasUpdate == s.hasUpdate
            && num(line[1]).Ok? && num(line[2]).Ok?
            && s'.figures == s.figures + [Figure(num(line[1]).value, num(line[2]).value)])
      && (|line| > 0 && line[0] == "move" ==>
            s'.lastBgColor == s.lastBgColor && s'.lastBgRect == s.lastBgRect && s'.hasUpdate == s.hasUpdate
            && num(line[1]).Ok? && num(line[2]).Ok?
            && s'.figures == MoveAll(s.figures, num(line[1]).value, num(line[2]).value)
            && |s'.figures| == |s.figures|
            && (forall i :: 0 <= i < |s'.figures| ==> InUnit(s'.figures[i]))
            && (s.figures == [] ==> s' == s))
      && (|line| > 0 && line[0] == "update" ==> s' == s.(hasUpdate := true))
      && (|line| > 0 && line[0] == "reset" ==> s' == AfterReset)
  {
    if |line| > 0 && line[0] in {"bgrect", "figure", "move"} {
      CommandErrors(s, line, num);
      NumberErrors(s, line, num);
    }
  }

  const Keywords := {"white", "green", "bgrect", "figure", "move", "reset", "update"}

  /** The number of arguments a command takes; the commands without
      arguments ignore any extra tokens. */
  function Arity(command: string): nat
  {
    if command == "bgrect" then 4 else if command == "figure" || command == "move" then 2 else 0
  }

  /** When a line fails for its first token or its length: an unknown
      command fails with UnknownCommand, a command without arguments never
      fails (extra tokens are ignored), a command with arguments fails with
      ArgumentCount exactly when the number of tokens after it is not its
      arity. */
  lemma CommandErrors(s: State, line: seq<string>, num: NumberParser)
    requires |line| > 0
    ensures line[0] !in Keywords <==> Step(s, line, num) == Err(UnknownCommand(line[0]))
    ensures line[0] in Keywords && Arity(line[0]) == 0 ==> Step(s, line, num).Ok?
    ensures line[0] in Keywords && Arity(line[0]) > 0 ==>
              (|line| != Arity(line[0]) + 1 <==> Step(s, line, num) == Err(ArgumentCount(line[0], Arity(line[0]))))
  {
  }

  /** With the right number of tokens, a bgrect, figure or move line fails
      exactly when one of its arguments is not a number, and then reports
      the error of the first such argument. */
  lemma NumberErrors(s: State, line: seq<string>, num: NumberParser)
    requires |line| > 0 && line[0] in {"bgrect", "figure", "move"} && |line| == Arity(line[0]) + 1
    ensures Step(s, line, num).Ok? <==> forall i :: 1 <= i < |line| ==> num(line[i]).Ok?
    ensures Step(s, line, num).Err? ==>
              exists i :: 1 <= i < |line| && num(line[i]).Err?
                          && (forall j :: 1 <= j < i ==> num(line[j]).Ok?)
                          && Step(s, line, num) == Err(InvalidNumber(line[0], num(line[i]).error))
  {
    var errs := if line[0] == "bgrect"
                then [ErrorOf(num(line[1])), ErrorOf(num(line[2])), ErrorOf(num(line[3])), ErrorOf(num(line[4]))]
                else [ErrorOf(num(line[1])), ErrorOf(num(line[2]))];
    assert |errs| == |line| - 1;
    assert forall i :: 1 <= i < |line| ==> errs[i - 1] == ErrorOf(num(line[i]));
    var e := FirstFailure(errs);
    assert Step(s, line, num).Err? <==> e.Some?;
    if e.Some? {
      var k :| 0 <= k < |errs| && errs[k] == e && forall j :: 0 <= j < k ==> errs[j].None?;
      assert Step(s, line, num) == Err(InvalidNumber(line[0], e.value));
      assert num(line[k + 1]).Err? && num(line[k + 1]).error == e.value;
      forall j | 1 <= j < k + 1
        ensures num(line[j]).Ok?
      {
        assert errs[j - 1].None?;
      }
    } else {
      forall i | 1 <= i < |line|
        ensures num(line[i]).Ok?
      {
        assert errs[i - 1].None?;
      }
    }
  }

  /** A reset forgets everything before it: parsing lines that run into a
      reset without error gives what parsing the lines after the reset gives
      from AfterReset. */
  lemma ResetForgetsEarlier(s: State, before: seq<seq<string>>, r: seq<string>, after: seq<seq<string>>, num: NumberParser)
    requires Accumulate(s, before, num).1 == None
    requires |r| > 0 && r[0] == "reset"
    ensures Accumulate(s, before + [r] + after, num) == Accumulate(AfterReset, after, num)
    ensures ParseResult(s, before + [r] + after, num) == ParseResult(AfterReset, after, num)
  {
    assert before + [r] + after == before + ([r] + after);
    AccumulateAppend(s, before, [r] + after, num);
    assert ([r] + after)[0] == r && ([r] + after)[1..] == after;
  }

  /** The position class of an operation in finalize's output. */
  function Rank(op: Operation): nat
  {
    if op.BgRectOp? then 0 else if op.FigureOp? then 2 else if op == UpdateOp then 3 else 1
  }

  /** The rank of the output position i is given by the part it falls in. */
  lemma EmitRanks(s: State, i: int)
    requires Wf(s) && 0 <= i < |Emit(s)|
    ensures var a, b, c := |RectPart(s)|, |ColorPart(s)|, |s.figures|;
            Rank(Emit(s)[i]) == if i < a then 0 else if i < a + b then 1 else if i < a + b + c then 2 else 3
  {
    var a, b, c, d := RectPart(s), ColorPart(s), FigureOps(s.figures), UpdatePart(s);
    assert Emit(s) == a + b + c + d;
    if i < |a| {
      assert Emit(s)[i] == a[i];
    } else if i < |a| + |b| {
      assert Emit(s)[i] == b[i - |a|];
    } else if i < |a| + |b| + |c| {
      assert Emit(s)[i] == c[i - |a| - |b|];
    } else {
      assert Emit(s)[i] == d[i - |a| - |b| - |c|];
    }
  }

  /** finalize's output order: the rectangle, then the colour, then the
      figures, then UpdateOp; only figures can repeat, so each of the others
      appears at most once. */
  lemma EmitOrder(s: State)
    requires Wf(s)
    ensures forall i, j :: 0 <= i < j < |Emit(s)| ==> Rank(Emit(s)[i]) <= Rank(Emit(s)[j])
    ensures forall i, j :: 0 <= i < j < |Emit(s)| && Rank(Emit(s)[i]) == Rank(Emit(s)[j]) ==> Emit(s)[i].FigureOp?
  {
    forall i, j | 0 <= i < j < |Emit(s)|
      ensures Rank(Emit(s)[i]) <= Rank(Emit(s)[j])
      ensures Rank(Emit(s)[i]) == Rank(Emit(s)[j]) ==> Emit(s)[i].FigureOp?
    {
      EmitRanks(s, i);
      EmitRanks(s, j);
    }
  }

  /** Where finalize puts the rectangle, the figures and the update: the
      rectangle first if one was set, the figures in the order they were
      added, and UpdateOp last when the flag is set. */
  lemma EmitLayout(s: State)
    ensures s.lastBgRect.Some? ==> Emit(s)[0] == BgRectOp(s.lastBgRect.value)
    ensures s.hasUpdate ==> Emit(s)[|Emit(s)| - 1] == UpdateOp
    ensures var u := |UpdatePart(s)|;
            |Emit(s)| >= |s.figures| + u && Emit(s)[|Emit(s)| - u - |s.figures| .. |Emit(s)| - u] == FigureOps(s.figures)
  {
    var a, b, c, d := RectPart(s), ColorPart(s), FigureOps(s.figures), UpdatePart(s);
    var r := Emit(s);
    assert r == a + b + c + d;
    assert r[|r| - |d| - |c| .. |r| - |d|] == c;
  }

  /** finalize emits a background colour exactly when one was set. */
  lemma EmitColour(s: State)
    requires Wf(s)
    ensures s.lastBgColor.Some? <==> exists i :: 0 <= i < |Emit(s)| && Rank(Emit(s)[i]) == 1
    ensures s.lastBgColor.Some? ==> s.lastBgColor.value in Emit(s)
  {
    var r := Emit(s);
    if s.lastBgColor.Some? {
      var a := RectPart(s);
      assert r == a + ColorPart(s) + FigureOps(s.figures) + UpdatePart(s);
      assert r[|a|] == s.lastBgColor.value;
      EmitRanks(s, |a|);
    } else {
      forall i | 0 <= i < |r|
        ensures Rank(r[i]) != 1
      {
        EmitRanks(s, i);
      }
    }
  }

  /** finalize emits UpdateOp exactly when an update line was seen. */
  lemma EmitUpdate(s: State)
    requires Wf(s)
    ensures UpdateOp in Emit(s) <==> s.hasUpdate
  {
    var r := Emit(s);
    if UpdateOp in r {
      var i :| 0 <= i < |r| && r[i] == UpdateOp;
      EmitRanks(s, i);
    }
    if s.hasUpdate {
      EmitLayout(s);
    }
  }

  /** Applying the figures finalize emits never makes the frame ready. */
  lemma FigureOpsNotReady(figs: seq<Figure>)
    ensures !Ready(OperationList(FigureOps(figs)))
  {
    ListReadyAny(FigureOps(figs));
  }

  /** Applying what finalize emits makes the frame ready exactly when an
      update line was seen. */
  lemma EmittedListReady(s: State)
    requires Wf(s)
    ensures Ready(OperationList(Emit(s))) <==> s.hasUpdate
  {
    var a, b, c, d := RectPart(s), ColorPart(s), FigureOps(s.figures), UpdatePart(s);
    assert !ListReady(a) by { SingletonList(a, Rect(0, 0, 0, 0)); }
    assert !ListReady(b) by { SingletonList(b, Rect(0, 0, 0, 0)); }
    assert !ListReady(c) by { FigureOpsNotReady(s.figures); }
    assert ListReady(d) <==> s.hasUpdate by { SingletonList(d, Rect(0, 0, 0, 0)); }
    ReadyAppend(a, b);
    ReadyAppend(a + b, c);
    ReadyAppend(a + b + c, d);
  }

  /** Applying what finalize emits draws the rectangle, then the colour,
      then every figure, and nothing for the update. */
  lemma EmittedListDraws(s: State, bounds: Rect)
    ensures Fills(OperationList(Emit(s)), bounds)
            == (if s.lastBgRect.Some? then [FillCall(BgRectPixels(s.lastBgRect.value, bounds), Black)] else [])
               + (if s.lastBgColor.Some? then Fills(s.lastBgColor.value, bounds) else [])
               + ListFills(FigureOps(s.figures), bounds)
  {
    var a, b, c, d := RectPart(s), ColorPart(s), FigureOps(s.figures), UpdatePart(s);
    assert Emit(s) == a + b + c + d;
    SingletonList(a, bounds);
    SingletonList(b, bounds);
    SingletonList(d, bounds);
    calc {
      ListFills(a + b + c + d, bounds);
      { ListAppend(a + b + c, d, bounds); }
      ListFills(a + b + c, bounds) + ListFills(d, bounds);
      { ListAppend(a + b, c, bounds); }
      ListFills(a + b, bounds) + ListFills(c, bounds) + ListFills(d, bounds);
      { ListAppend(a, b, bounds); }
      ListFills(a, bounds) + ListFills(b, bounds) + ListFills(c, bounds) + ListFills(d, bounds);
    }
    assert ListFills(d, bounds) == [] by {
      if d != [] { assert Fills(d[0], bounds) == []; }
    }
    assert ListFills(a, bounds) == if s.lastBgRect.Some? then [FillCall(BgRectPixels(s.lastBgRect.value, bounds), Black)] else [];
    assert ListFills(b, bounds) == if s.lastBgColor.Some? then Fills(s.lastBgColor.value, bounds) else [];
  }

  /** A list of at most one operation does what that operation does. */
  lemma SingletonList(ops: seq<Operation>, bounds: Rect)
    requires |ops| <= 1
    ensures ListFills(ops, bounds) == if ops == [] then [] else Fills(ops[0], bounds)
    ensures Ready(OperationList(ops)) <==> ops != [] && Ready(ops[0])
  {
    if ops != [] {
      assert ops[..0] == [];
    }
  }
}

/** The table of parser test cases, stated over the model: each script,
    parsed by a fresh Parser, gives the expected operations or error. */
module LangScenarios {
  import opened Util
  import opened Ops
  import opened Lang

  /** A number parser that reads the literals the test scripts use. */
  predicate ReadsTestNumbers(num: NumberParser)
  {
    && num("0") == Ok(0.0) && num("1") == Ok(1.0)
    && num("0.1") == Ok(0.1) && num("0.2") == Ok(0.2) && num("0.3") == Ok(0.3)
    && num("0.4") == Ok(0.4) && num("0.5") == Ok(0.5) && num("0.6") == Ok(0.6)
    && num("abc").Err?
  }

  /** The command keywords of equal length differ in their first letter. */
  lemma KeywordsDiffer()
    ensures "green" != "white" && "reset" != "white" && "reset" != "green"
    ensures "figure" != "bgrect" && "update" != "bgrect" && "update" != "figure"
  {
    assert "green"[0] != "white"[0] && "reset"[0] != "white"[0] && "reset"[0] != "green"[0];
    assert "figure"[0] != "bgrect"[0] && "update"[0] != "bgrect"[0] && "update"[0] != "figure"[0];
  }

  /** An empty script and the scripts made of one colour line. */
  lemma ColourCommands(num: NumberParser)
    requires ReadsTestNumbers(num)
    ensures ParseResult(Initial, [], num) == Ok([])
    ensures ParseResult(Initial, [["white"]], num) == Ok([WhiteFill])
    ensures ParseResult(Initial, [["green"]], num) == Ok([GreenFill])
  {
    KeywordsDiffer();
    assert Emit(Initial) == [];
    var white, green := Initial.(lastBgColor := Some(WhiteFill)), Initial.(lastBgColor := Some(GreenFill));
    assert Accumulate(Initial, [["white"]], num) == (white, None);
    assert Emit(white) == [WhiteFill];
    assert Accumulate(Initial, [["green"]], num) == (green, None);
    assert Emit(green) == [GreenFill];
  }

  /** The scripts made of one bgrect or one figure line. */
  lemma ShapeCommands(num: NumberParser)
    requires ReadsTestNumbers(num)
    ensures ParseResult(Initial, [["bgrect", "0.1", "0.2", "0.3", "0.4"]], num)
            == Ok([BgRectOp(BgRect(0.1, 0.2, 0.3, 0.4))])
    ensures ParseResult(Initial, [["figure", "0.5", "0.6"]], num) == Ok([FigureOp(Figure(0.5, 0.6))])
  {
    KeywordsDiffer();
    var rect := Initial.(lastBgRect := Some(BgRect(0.1, 0.2, 0.3, 0.4)));
    assert Step(Initial, ["bgrect", "0.1", "0.2", "0.3", "0.4"], num) == Ok(rect);
    assert Accumulate(Initial, [["bgrect", "0.1", "0.2", "0.3", "0.4"]], num) == (rect, None);
    assert Emit(rect) == [BgRectOp(BgRect(0.1, 0.2, 0.3, 0.4))];
    var fig := Initial.(figures := [Figure(0.5, 0.6)]);
    assert Initial.figures + [Figure(0.5, 0.6)] == [Figure(0.5, 0.6)];
    assert Step(Initial, ["figure", "0.5", "0.6"], num) == Ok(fig);
    assert Accumulate(Initial, [["figure", "0.5", "0.6"]], num) == (fig, None);
    assert Emit(fig) == [FigureOp(Figure(0.5, 0.6))];
  }

  /** The scripts made of one reset or one update line. */
  lemma ControlCommands(num: NumberParser)
    requires ReadsTestNumbers(num)
    ensures ParseResult(Initial, [["reset"]], num) == Ok([Reset])
    ensures ParseResult(Initial, [["update"]], num) == Ok([UpdateOp])
  {
    KeywordsDiffer();
    assert Accumulate(Initial, [["reset"]], num) == (AfterReset, None);
    assert Emit(AfterReset) == [Reset];
    var upd := Initial.(hasUpdate := true);
    assert Accumulate(Initial, [["update"]], num) == (upd, None);
    assert Emit(upd) == [UpdateOp];
  }

  /** A bgrect with too few arguments and a figure with unreadable ones. */
  lemma ArgumentErrorScripts(num: NumberParser)
    requires ReadsTestNumbers(num)
    ensures ParseResult(Initial, [["bgrect", "0.1", "0.2"]], num) == Err(ArgumentCount("bgrect", 4))
    ensures ParseResult(Initial, [["figure", "abc", "def"]], num) == Err(InvalidNumber("figure", num("abc").error))
  {
    KeywordsDiffer();
    assert Step(Initial, ["bgrect", "0.1", "0.2"], num) == Err(ArgumentCount("bgrect", 4));
    var errs := [ErrorOf(num("abc")), ErrorOf(num("def"))];
    assert FirstFailure(errs) == Some(num("abc").error);
    assert Step(Initial, ["figure", "abc", "def"], num) == Err(InvalidNumber("figure", num("abc").error));
  }

  /** A line whose first word is no command. */
  lemma UnknownCommandScript(num: NumberParser)
    ensures ParseResult(Initial, [["invalidcommand"]], num) == Err(UnknownCommand("invalidcommand"))
  {
    assert Step(Initial, ["invalidcommand"], num) == Err(UnknownCommand("invalidcommand"));
  }

  /** The text of the argument count error the test table checks. */
  lemma ArgumentCountMessage()
    ensures Message(ArgumentCount("bgrect", 4)) == "bgrect requires 4 arguments"
  {
    assert Numeral(4) == "4";
    assert "bgrect" + " requires " == "bgrect requires ";
    assert "bgrect requires " + "4" == "bgrect requires 4";
  }

  /** The argument count error of figure. */
  lemma FigureCountMessage()
    ensures Message(ArgumentCount("figure", 2)) == "figure requires 2 arguments"
  {
    assert Numeral(2) == "2";
    assert "figure" + " requires " == "figure requires ";
    assert "figure requires " + "2" == "figure requires 2";
  }

  /** The argument count error of move. */
  lemma MoveCountMessage()
    ensures Message(ArgumentCount("move", 2)) == "move requires 2 arguments"
  {
    assert Numeral(2) == "2";
    assert "move" + " requires " == "move requires ";
    assert "move requires " + "2" == "move requires 2";
  }

  /** The text of the unknown command error the test table checks. */
  lemma UnknownCommandMessage()
    ensures Message(UnknownCommand("invalidcommand")) == "unknown command: invalidcommand"
  {
  }

  /** The text of the invalid number error the test table checks: the
      script's error reads "invalid number in figure", then the cause. */
  lemma InvalidNumberMessage(num: NumberParser)
    requires ReadsTestNumbers(num)
    ensures var m := Message(ParseResult(Initial, [["figure", "abc", "def"]], num).error);
            |m| >= 24 && m[..24] == "invalid number in figure"
  {
    ArgumentErrorScripts(num);
    var m := Message(InvalidNumber("figure", num("abc").error));
    assert m[..18] == "invalid number in " && m[18..24] == "figure";
    assert m[..24] == m[..18] + m[18..24];
  }

  /** A figure at (0.5, 0.5), a move by (0.1, 0.1) and an update, from any
      state with no figures and no update yet. */
  lemma FigureMoveUpdate(s: State, num: NumberParser)
    requires ReadsTestNumbers(num) && s.figures == [] && !s.hasUpdate
    ensures Accumulate(s, [["figure", "0.5", "0.5"], ["move", "0.1", "0.1"], ["update"]], num)
            == (s.(figures := [Figure(0.6, 0.6)], hasUpdate := true), None)
  {
    KeywordsDiffer();
    var s1 := s.(figures := [Figure(0.5, 0.5)]);
    assert s.figures + [Figure(0.5, 0.5)] == [Figure(0.5, 0.5)];
    assert Step(s, ["figure", "0.5", "0.5"], num) == Ok(s1);
    var s2 := s.(figures := [Figure(0.6, 0.6)]);
    assert MoveAll(s1.figures, 0.1, 0.1) == [Figure(0.6, 0.6)];
    assert Step(s1, ["move", "0.1", "0.1"], num) == Ok(s2);
    var s3 := s2.(hasUpdate := true);
    assert Step(s2, ["update"], num) == Ok(s3);
    assert Accumulate(s2, [["update"]], num) == (s3, None);
    assert Accumulate(s1, [["move", "0.1", "0.1"], ["update"]], num) == (s3, None);
  }

  lemma MoveScript(num: NumberParser)
    requires ReadsTestNumbers(num)
    ensures ParseResult(Initial, [["figure", "0.5", "0.5"], ["move", "0.1", "0.1"], ["update"]], num)
            == Ok([FigureOp(Figure(0.6, 0.6)), UpdateOp])
  {
    FigureMoveUpdate(Initial, num);
    assert Emit(Initial.(figures := [Figure(0.6, 0.6)], hasUpdate := true)) == [FigureOp(Figure(0.6, 0.6)), UpdateOp];
  }

  /** A bgrect line and a green line, before any script. */
  lemma BgRectThenGreen(num: NumberParser, tail: seq<seq<string>>)
    requires ReadsTestNumbers(num)
    ensures Accumulate(Initial, [["bgrect", "0", "0", "1", "1"], ["green"]] + tail, num)
            == Accumulate(Initial.(lastBgRect := Some(BgRect(0.0, 0.0, 1.0, 1.0)), lastBgColor := Some(GreenFill)), tail, num)
  {
    KeywordsDiffer();
    var script := [["bgrect", "0", "0", "1", "1"], ["green"]] + tail;
    var s1 := Initial.(lastBgRect := Some(BgRect(0.0, 0.0, 1.0, 1.0)));
    assert Step(Initial, ["bgrect", "0", "0", "1", "1"], num) == Ok(s1);
    assert Step(s1, ["green"], num) == Ok(s1.(lastBgColor := Some(GreenFill)));
    assert script[1..] == [["green"]] + tail && script[1..][1..] == tail;
  }

  lemma OrderScript(num: NumberParser)
    requires ReadsTestNumbers(num)
    ensures ParseResult(Initial, [["bgrect", "0", "0", "1", "1"], ["green"], ["figure", "0.5", "0.5"],
                                  ["move", "0.1", "0.1"], ["update"]], num)
            == Ok([BgRectOp(BgRect(0.0, 0.0, 1.0, 1.0)), GreenFill, FigureOp(Figure(0.6, 0.6)), UpdateOp])
  {
    var tail := [["figure", "0.5", "0.5"], ["move", "0.1", "0.1"], ["update"]];
    var s2 := Initial.(lastBgRect := Some(BgRect(0.0, 0.0, 1.0, 1.0)), lastBgColor := Some(GreenFill));
    BgRectThenGreen(num, tail);
    FigureMoveUpdate(s2, num);
    assert [["bgrect", "0", "0", "1", "1"], ["green"]] + tail
           == [["bgrect", "0", "0", "1", "1"], ["green"], ["figure", "0.5", "0.5"], ["move", "0.1", "0.1"], ["update"]];
    var s5 := s2.(figures := [Figure(0.6, 0.6)], hasUpdate := true);
    assert Emit(s5) == [BgRectOp(BgRect(0.0, 0.0, 1.0, 1.0)), GreenFill, FigureOp(Figure(0.6, 0.6)), UpdateOp];
  }

  lemma ResetScript(num: NumberParser)
    requires ReadsTestNumbers(num)
    ensures ParseResult(Initial, [["white"], ["figure", "0.1", "0.1"], ["reset"], ["figure", "0.5", "0.5"],
                                  ["update"]], num)
            == Ok([Reset, FigureOp(Figure(0.5, 0.5)), UpdateOp])
  {
    KeywordsDiffer();
    var before := [["white"], ["figure", "0.1", "0.1"]];
    var after := [["figure", "0.5", "0.5"], ["update"]];
    var s1 := Initial.(lastBgColor := Some(WhiteFill));
    assert Step(s1, ["figure", "0.1", "0.1"], num).Ok?;
    assert Accumulate(Initial, before, num).1 == None;
    ResetForgetsEarlier(Initial, before, ["reset"], after, num);
    assert before + [["reset"]] + after
           == [["white"], ["figure", "0.1", "0.1"], ["reset"], ["figure", "0.5", "0.5"], ["update"]];
    var s2 := AfterReset.(figures := [Figure(0.5, 0.5)]);
    assert AfterReset.figures + [Figure(0.5, 0.5)] == [Figure(0.5, 0.5)];
    assert Step(AfterReset, ["figure", "0.5", "0.5"], num) == Ok(s2);
    var s3 := s2.(hasUpdate := true);
    assert Step(s2, ["update"], num) == Ok(s3);
    assert Accumulate(s2, [["update"]], num) == (s3, None);
    assert Accumulate(AfterReset, after, num) == (s3, None);
    assert Emit(s3) == [Reset, FigureOp(Figure(0.5, 0.5)), UpdateOp];
  }

  lemma OverrideScript(num: NumberParser)
    requires ReadsTestNumbers(num)
    ensures ParseResult(Initial, [["white"], ["bgrect", "0", "0", "1", "1"], ["green"], ["update"]], num)
            == Ok([BgRectOp(BgRect(0.0, 0.0, 1.0, 1.0)), GreenFill, UpdateOp])
  {
    KeywordsDiffer();
    var s1 := Initial.(lastBgColor := Some(WhiteFill));
    var s2 := s1.(lastBgRect := Some(BgRect(0.0, 0.0, 1.0, 1.0)));
    assert Step(s1, ["bgrect", "0", "0", "1", "1"], num) == Ok(s2);
    var s3 := s2.(lastBgColor := Some(GreenFill));
    assert Step(s2, ["green"], num) == Ok(s3);
    var s4 := s3.(hasUpdate := true);
    assert Step(s3, ["update"], num) == Ok(s4);
    assert Accumulate(s3, [["update"]], num) == (s4, None);
    assert Accumulate(s2, [["green"], ["update"]], num) == (s4, None);
    assert Accumulate(s1, [["bgrect", "0", "0", "1", "1"], ["green"], ["update"]], num) == (s4, None);
    assert Emit(s4) == [BgRectOp(BgRect(0.0, 0.0, 1.0, 1.0)), GreenFill, UpdateOp];
  }
}

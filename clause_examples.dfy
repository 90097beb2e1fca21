/** Clause detection on concrete contract lines. */
module ClauseExamples {
  import opened Wrappers
  import opened JsStrings
  import opened ClauseDetection
  import opened ClauseProperties
  import opened ClauseHeadings

  /** `第三条 付款方式`: an article heading, level 1. */
  lemma ArticleHeading()
    ensures ClauseOfLine("第三条 付款方式", 7) == Some(Clause(1, "三", "付款方式", 7))
  {
    assert "第三条 付款方式" == "第" + "三" + "条" + " " + "付款方式";
    ArticleHeadingClause("三", " ", "付款方式", 7);
  }

  /** `(一)总则`: a Chinese-numeral heading in half-width parentheses. */
  lemma ChineseParenHeading()
    ensures ClauseOfLine("(一)总则", 1) == Some(Clause(1, "一", "总则", 1))
  {
    assert "(一)总则" == "(" + "一" + ")" + "" + "总则";
    ChineseParenHeadingClause("一", "", "总则", 1);
  }

  /** `（1）付款` and `(1）付款`: the parentheses are accepted in either width, independently. */
  lemma ArabicParenHeadings()
    ensures ClauseOfLine("（1）付款", 2) == Some(Clause(1, "1", "付款", 2))
    ensures ClauseOfLine("(1）付款", 2) == Some(Clause(1, "1", "付款", 2))
  {
    assert "（1）付款" == ['（'] + "1" + ['）'] + "" + "付款";
    ArabicParenHeadingClause('（', "1", '）', "", "付款", 2);
    assert "(1）付款" == ['('] + "1" + ['）'] + "" + "付款";
    ArabicParenHeadingClause('(', "1", '）', "", "付款", 2);
  }

  /** `（一）总则`: Chinese numerals in full-width parentheses are not a heading. */
  lemma FullWidthChineseParenIgnored()
    ensures ClauseOfLine("（一）总则", 3).None?
  {
    assert "（一）总则" == "（" + "一）总则";
    FullWidthParenNeedsDigits("一）总则", 3);
  }

  /** `1.2.3、内容`: a dotted heading of level 3. */
  lemma DottedHeading()
    ensures ClauseOfLine("1.2.3、内容", 4) == Some(Clause(3, "1.2.3", "内容", 4))
  {
    ThreeSegments();
    DottedLineParts();
    WellFormedDottedClause("1.2.3", "", '、', "", "内容", 4);
  }

  lemma DottedLineParts()
    ensures "1.2.3、内容" == "1.2.3" + "" + ['、'] + "" + "内容"
  { }

  lemma ThreeSegments()
    ensures IsDottedNumber("1.2.3") && |Split("1.2.3", ".")| == 3
  {
    DigitsAreDotted("3");
    assert "2.3" == "2" + "." + "3";
    DottedCons("2", "3");
    assert "1.2.3" == "1" + "." + "2.3";
    DottedCons("1", "2.3");
  }

  /** `1.1 标题` reads as number `1` with content `1 标题`. */
  lemma BareDotHeading()
    ensures ClauseOfLine("1.1 标题", 5) == Some(Clause(1, "1", "1 标题", 5))
  {
    BareDotMatch();
    TrimOfTrimmed("1.1 标题");
    FirstPatternWins("1.1 标题", 5, 0);
  }

  lemma BareDotMatch()
    ensures MatchDotted("1.1 标题") == Some(NumberMatch("1", "1 标题"))
  {
    assert "1.1 标题" == "1" + "." + "1" + [' '] + "标题";
    DigitsAreDotted("1");
    BareDotRetreats("1", "1", ' ', "标题");
    assert "1" + [' '] + "标题" == "1 标题";
  }

  /** A line of spaces and tabs yields nothing. */
  lemma BlankHeading()
    ensures ClauseOfLine(" \t ", 6).None?
  {
    BlankLineNoClause(" \t ", 6);
  }
}

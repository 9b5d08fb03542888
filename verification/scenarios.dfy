/** Sample prompts and the character-level facts about them that
    classification needs: which keywords they contain after lower-casing,
    and which characters they avoid. */
module Prompts {
  import opened Text

  // The three-piece prompts are split only as a proof aid: each prompt is
  // the concatenation of its pieces, and the verifier checks which
  // characters it avoids piece by piece instead of on one long literal.
  const Ec2CostPrompt: string := "How can I optimize my EC2 costs?"
  const HighCostPrompt: string := "my ec2 cost is high"
  const BucketPrompt: string := "How do I " + "configure an " + "S3 bucket policy?"
  const TimeoutPrompt: string := "My lambda " + "function " + "times out"
  const MonthlyCostPrompt: string := "How can I " + "reduce my " + "monthly costs?"
  const BillPrompt: string := "What's my " + "AWS bill " + "this month?"
  const Ec2Help: string := "EC2 help"

  /** The three pieces of a prompt all avoid `cs`, so the prompt does. */
  lemma PiecesAvoid(a: string, b: string, c: string, cs: string)
    requires Avoids(a, cs) && Avoids(b, cs) && Avoids(c, cs)
    ensures Avoids(a + b + c, cs)
  {
    AvoidsConcat(a, b, cs);
    AvoidsConcat(a + b, c, cs);
  }

  lemma Ec2CostPromptFacts()
    ensures Contains("ec2", Lower(Ec2CostPrompt)) && Contains("cost", Lower(Ec2CostPrompt))
  {
    LowerContains("ec2", Ec2CostPrompt, 22);
    LowerContains("cost", Ec2CostPrompt, 26);
  }

  lemma HighCostPromptFacts()
    ensures Contains("ec2", Lower(HighCostPrompt)) && Contains("cost", Lower(HighCostPrompt))
  {
    LowerContains("ec2", HighCostPrompt, 3);
    LowerContains("cost", HighCostPrompt, 7);
  }

  lemma BucketPromptFacts()
    ensures Contains("s3", Lower(BucketPrompt)) && Avoids(Lower(BucketPrompt), "2")
  {
    LowerContains("s3", BucketPrompt, 22);
    PiecesAvoid("How do I ", "configure an ", "S3 bucket policy?", "2");
    LowerAvoids(BucketPrompt, "2", "2");
  }

  lemma TimeoutPromptFacts()
    ensures Contains("lambda", Lower(TimeoutPrompt)) && Avoids(Lower(TimeoutPrompt), "23")
  {
    LowerContains("lambda", TimeoutPrompt, 3);
    PiecesAvoid("My lambda ", "function ", "times out", "23");
    LowerAvoids(TimeoutPrompt, "23", "23");
  }

  lemma MonthlyCostPromptFacts()
    ensures Contains("cost", Lower(MonthlyCostPrompt)) && Avoids(Lower(MonthlyCostPrompt), "23b")
  {
    LowerContains("cost", MonthlyCostPrompt, 28);
    PiecesAvoid("How can I ", "reduce my ", "monthly costs?", "23bB");
    LowerAvoids(MonthlyCostPrompt, "23b", "23bB");
  }

  lemma BillPromptFacts()
    ensures Avoids(Lower(BillPrompt), "23dcg")
  {
    PiecesAvoid("What's my ", "AWS bill ", "this month?", "23dDcCgG");
    LowerAvoids(BillPrompt, "23dcg", "23dDcCgG");
  }

  lemma Ec2HelpFacts()
    ensures Contains("ec2", Lower(Ec2Help))
  {
    LowerContains("ec2", Ec2Help, 0);
  }
}

/** Worked examples: concrete prompts and console sessions, and what the
    assistant answers to them. The character-level facts come from
    `Prompts`; the general lemmas of `Agent` and `Chat` give the answer. */
module Scenarios {
  import opened Text
  import opened Agent
  import opened Chat
  import opened Prompts


  /** A question naming EC2 and costs is an EC2 question: "ec2" is tried
      before "cost". */
  lemma Ec2CostQuestion()
    ensures ProcessRequest(Ec2CostPrompt) == Ec2Template
  {
    Ec2CostPromptFacts();
    Ec2Wins(Ec2CostPrompt);
  }

  /** The same precedence in lower case: "my ec2 cost is high" gets the EC2
      template, not the cost one. */
  lemma HighCostQuestion()
    ensures ProcessRequest(HighCostPrompt) == Ec2Template
    ensures ProcessRequest(HighCostPrompt) != CostTemplate
  {
    HighCostPromptFacts();
    Ec2Wins(HighCostPrompt);
    TemplateInjective(Ec2, Cost);
  }

  /** A bucket-policy question is an S3 question. */
  lemma BucketQuestion()
    ensures ProcessRequest(BucketPrompt) == S3Template
  {
    BucketPromptFacts();
    var t := Lower(BucketPrompt);
    AvoidedCharExcludes("ec2", t, "2", '2');
    assert FirstHit(KeywordMap, t, 1);
    FirstHitDecides(BucketPrompt, 1);
  }

  /** A timeout question mentioning Lambda is a Lambda question. */
  lemma TimeoutQuestion()
    ensures ProcessRequest(TimeoutPrompt) == LambdaTemplate
  {
    TimeoutPromptFacts();
    var t := Lower(TimeoutPrompt);
    AvoidedCharExcludes("ec2", t, "23", '2');
    AvoidedCharExcludes("s3", t, "23", '3');
    assert FirstHit(KeywordMap, t, 2);
    FirstHitDecides(TimeoutPrompt, 2);
  }

  /** A question about costs that names no service is a cost question. */
  lemma MonthlyCostQuestion()
    ensures ProcessRequest(MonthlyCostPrompt) == CostTemplate
  {
    MonthlyCostPromptFacts();
    var t := Lower(MonthlyCostPrompt);
    AvoidedCharExcludes("ec2", t, "23b", '2');
    AvoidedCharExcludes("s3", t, "23b", '3');
    AvoidedCharExcludes("lambda", t, "23b", 'b');
    CostKeywordsGiveCost(MonthlyCostPrompt);
  }

  /** "bill" is not a keyword, only "billing" is: a question about the
      bill gets the general template. */
  lemma BillQuestionIsGeneral()
    ensures ProcessRequest(BillPrompt) == GeneralTemplate
  {
    BillPromptFacts();
    AvoidingInputIsGeneral(BillPrompt, "23dcg", "23dcgcg");
    ProcessRequestIsTemplate(BillPrompt);
  }

  const PaddedExitLine: string := "  exit  "
  const Shouted: string := "QUIT"
  const Capitalised: string := "Bye"
  const QuitNow: string := "quit now"
  const QuestionMark: string := "q?"

  /** An exit word surrounded by spaces still ends the conversation. */
  lemma PaddedExit()
    ensures Decide(PaddedExitLine) == Exit
  {
    StripPadded("  ", "exit", "  ");
    assert "  " + "exit" + "  " == PaddedExitLine;
    assert Lower("exit") == "exit";
  }

  /** Exit words are recognised in upper and mixed case. */
  lemma ShoutedExit()
    ensures Decide(Shouted) == Exit
    ensures Decide(Capitalised) == Exit
  {
    assert Decide(Shouted) == Exit by {
      StripKeepsTrimmed(Shouted);
      assert Lower(Shouted) == "quit";
    }
    assert Decide(Capitalised) == Exit by {
      StripKeepsTrimmed(Capitalised);
      assert Lower(Capitalised) == "bye";
    }
  }

  /** Only the whole line counts: an exit word followed by more text, or
      "q" with punctuation, is forwarded to the agent. */
  lemma ExitNeedsWholeLine()
    ensures Decide(QuitNow) == Forward(QuitNow)
    ensures Decide(QuestionMark) == Forward(QuestionMark)
  {
    assert Decide(QuitNow) == Forward(QuitNow) by {
      StripKeepsTrimmed(QuitNow);
      assert |Lower(QuitNow)| == 8;
    }
    assert Decide(QuestionMark) == Forward(QuestionMark) by {
      StripKeepsTrimmed(QuestionMark);
      assert Lower(QuestionMark)[1] == '?';
    }
  }

  /** A blank line, then a question, then an exit word: one answer, the
      conversation stops at the exit word, and whatever follows is never
      read. */
  lemma SkipAnswerExit(blank: string, question: string, bye: string, tail: seq<Option<string>>)
    requires AllSpace(blank)
    requires Decide(question) == Forward(question)
    requires Decide(bye) == Exit
    ensures Converse([Some(blank), Some(question), Some(bye)] + tail)
      == Session([ProcessRequest(question)], ExitWord)
  {
    var lines := [Some(blank), Some(question), Some(bye)] + tail;
    var afterBlank, afterQuestion := lines[1..], lines[2..];
    assert afterQuestion[0] == Some(bye);
    assert Converse(afterQuestion) == Session([], ExitWord);
    assert afterBlank[0] == Some(question) && afterBlank[1..] == afterQuestion;
    assert Converse(afterBlank) == Session([ProcessRequest(question)], ExitWord);
    assert lines == [Some(blank)] + afterBlank;
    BlankLineSkipped(blank, afterBlank);
  }

  /** Four lines are three lines followed by one more. */
  lemma FourLines<T>(a: T, b: T, c: T, d: T)
    ensures [a, b, c] + [d] == [a, b, c, d]
  {
  }

  lemma Ec2HelpForwarded()
    ensures Decide(Ec2Help) == Forward(Ec2Help)
  {
    StripKeepsTrimmed(Ec2Help);
    assert |Lower(Ec2Help)| == 8;
  }

  /** "EC2 help" gets the EC2 template. */
  lemma Ec2HelpAnswered()
    ensures ProcessRequest(Ec2Help) == Ec2Template
  {
    Ec2HelpFacts();
    Ec2Wins(Ec2Help);
  }

  const SampleLines: seq<Option<string>> := [Some("  "), Some(Ec2Help), Some(Capitalised), Some("s3")]

  /** A short console session: a blank line is skipped, an EC2 question is
      answered, "Bye" ends the conversation, and the "s3" line after it is
      never read. */
  lemma SampleSession()
    ensures Converse(SampleLines) == Session([Ec2Template], ExitWord)
  {
    Ec2HelpForwarded();
    Ec2HelpAnswered();
    ShoutedExit();
    SkipAnswerExit("  ", Ec2Help, Capitalised, [Some("s3")]);
    FourLines(Some("  "), Some(Ec2Help), Some(Capitalised), Some("s3"));
  }
}

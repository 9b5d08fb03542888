/** The interactive chat loop (chat.py): every line read is stripped, an
    exit word ends the conversation, a blank line is skipped, and anything
    else is answered by the agent. Console output is not modelled; the loop
    is a function from the lines read to the responses it would print. */
module Chat {
  import opened Text
  import opened Agent

  /** One read from the console: `Some(line)`, or `None` when reading
      raised end-of-file or a keyboard interrupt. */
  datatype Option<T> = None | Some(value: T)

  /** The words that end the conversation, compared against the whole
      stripped, lower-cased line. */
  const ExitTokens: seq<string> := ["exit", "quit", "bye", "q"]

  /** What the loop does with one line. */
  datatype Action = Exit | Skip | Forward(text: string)

  /** What stopped the conversation: an exit word, or input running out
      (end-of-file or an interrupt). Both print a goodbye; they differ only
      in what stopped the loop. */
  datatype Ending = ExitWord | EndOfInput

  /** The responses printed, in order, and how the loop ended. */
  datatype Session = Session(responses: seq<string>, ending: Ending)

  /** The loop body for one line: strip it, then test for an exit word,
      then for emptiness, and otherwise forward the stripped text. */
  function Decide(line: string): (a: Action)
    ensures a.Exit? <==> Lower(Strip(line)) in ExitTokens
    ensures a.Skip? <==> AllSpace(line)
    ensures a.Forward? ==> a.text == Strip(line) && a.text != [] && Trimmed(a.text)
  {
    var text := Strip(line);
    if Lower(text) in ExitTokens then
      assert text != [] by { ExitTokensNotEmpty(); }
      Exit
    else if text == [] then Skip
    else Forward(text)
  }

  /** No exit word is empty, so a blank line is never an exit. */
  lemma ExitTokensNotEmpty()
    ensures [] !in ExitTokens
  {
  }

  /** Lines that make the loop stop: end of input or an exit word. */
  predicate Stops(line: Option<string>) {
    line.None? || Decide(line.value).Exit?
  }

  /** The index of the first line that stops the loop, or `|lines|` if none
      does. */
  function StopIndex(lines: seq<Option<string>>): (k: nat)
    ensures k <= |lines|
    ensures forall i :: 0 <= i < k ==> !Stops(lines[i])
    ensures k < |lines| ==> Stops(lines[k])
  {
    if lines == [] || Stops(lines[0]) then 0 else 1 + StopIndex(lines[1..])
  }

  /** The text a line hands to the agent: its stripped form when the line
      is forwarded, nothing otherwise. */
  function Picked(line: Option<string>): seq<string> {
    match line
    case Some(l) => (match Decide(l) case Forward(t) => [t] case _ => [])
    case None => []
  }

  /** The texts forwarded to the agent from `lines`, in order, reading
      every line (stops are not applied here). */
  function ForwardedTexts(lines: seq<Option<string>>): (texts: seq<string>)
    ensures |texts| <= |lines|
    ensures forall t :: t in texts ==> t != [] && Trimmed(t) && Lower(t) !in ExitTokens
  {
    if lines == [] then [] else Picked(lines[0]) + ForwardedTexts(lines[1..])
  }

  /** `responses` are the agent's answers to `texts`, one each, in order. */
  predicate AnswersTo(responses: seq<string>, texts: seq<string>) {
    |responses| == |texts| && forall i :: 0 <= i < |texts| ==> responses[i] == ProcessRequest(texts[i])
  }

  /** The conversation as a fold over the lines read. */
  function Converse(lines: seq<Option<string>>): (s: Session)
    ensures |s.responses| <= |lines|
    ensures forall r :: r in s.responses ==> r != []
  {
    if lines == [] then Session([], EndOfInput)
    else match lines[0]
      case None => Session([], EndOfInput)
      case Some(line) =>
        match Decide(line)
        case Exit => Session([], ExitWord)
        case Skip => Converse(lines[1..])
        case Forward(text) =>
          var rest := Converse(lines[1..]);
          Session([ProcessRequest(text)] + rest.responses, rest.ending)
  }

  /** Forwarded texts of a concatenation are the concatenation of the
      forwarded texts. */
  lemma {:induction false} ForwardedTextsAppend(a: seq<Option<string>>, b: seq<Option<string>>)
    ensures ForwardedTexts(a + b) == ForwardedTexts(a) + ForwardedTexts(b)
  {
    if a == [] {
      assert a + b == b;
    } else {
      assert (a + b)[1..] == a[1..] + b;
      ForwardedTextsAppend(a[1..], b);
    }
  }

  /** Answering one more text in front keeps the responses in step. */
  lemma AnswersToCons(t: string, responses: seq<string>, texts: seq<string>)
    requires AnswersTo(responses, texts)
    ensures AnswersTo([ProcessRequest(t)] + responses, [t] + texts)
  {
  }

  /** Forwarded texts of a line in front of more lines. */
  lemma ForwardedTextsCons(line: Option<string>, rest: seq<Option<string>>)
    ensures ForwardedTexts([line] + rest) == Picked(line) + ForwardedTexts(rest)
  {
    assert ([line] + rest)[1..] == rest;
  }

  /** The conversation answers exactly the lines forwarded before the first
      stop, in order. */
  lemma {:induction false} ConverseAnswersForwarded(lines: seq<Option<string>>)
    ensures AnswersTo(Converse(lines).responses, ForwardedTexts(lines[..StopIndex(lines)]))
  {
    if lines != [] && !Stops(lines[0]) {
      var rest := lines[1..];
      var k := StopIndex(lines);
      assert k == 1 + StopIndex(rest);
      ConverseAnswersForwarded(rest);
      assert lines[..k] == [lines[0]] + rest[..k - 1];
      ForwardedTextsCons(lines[0], rest[..k - 1]);
      var before := ForwardedTexts(rest[..k - 1]);
      match Decide(lines[0].value) {
        case Skip =>
          assert Picked(lines[0]) == [];
          assert [] + before == before;
        case Forward(t) =>
          assert Picked(lines[0]) == [t];
          AnswersToCons(t, Converse(rest).responses, before);
      }
    }
  }

  /** The conversation is recorded as stopped by an exit word exactly when
      the first stopping line is a line read, not the end of input. */
  lemma {:induction false} ConverseEnding(lines: seq<Option<string>>)
    ensures Converse(lines).ending == ExitWord <==>
      StopIndex(lines) < |lines| && lines[StopIndex(lines)].Some?
  {
    if lines != [] && !Stops(lines[0]) {
      ConverseEnding(lines[1..]);
    }
  }

  /** The number of responses equals the number of forwarded lines before
      the first stop. */
  lemma ResponseCount(lines: seq<Option<string>>)
    ensures |Converse(lines).responses| == |ForwardedTexts(lines[..StopIndex(lines)])|
  {
    ConverseAnswersForwarded(lines);
  }

  /** Nothing after the first stop is ever read: appending more lines does
      not change the conversation. */
  lemma {:induction false} NothingAfterStop(lines: seq<Option<string>>, more: seq<Option<string>>)
    requires StopIndex(lines) < |lines|
    ensures Converse(lines + more) == Converse(lines)
  {
    assert (lines + more)[0] == lines[0];
    if !Stops(lines[0]) {
      assert (lines + more)[1..] == lines[1..] + more;
      NothingAfterStop(lines[1..], more);
    }
  }

  /** A blank line is skipped: the conversation goes on as if it had not
      been typed. */
  lemma BlankLineSkipped(line: string, rest: seq<Option<string>>)
    requires AllSpace(line)
    ensures Converse([Some(line)] + rest) == Converse(rest)
  {
    assert ([Some(line)] + rest)[1..] == rest;
  }

  /** A line that is neither blank nor an exit word is answered, in its
      stripped form, before everything that follows. */
  lemma ForwardedLineAnswered(line: string, rest: seq<Option<string>>)
    requires !AllSpace(line) && Lower(Strip(line)) !in ExitTokens
    ensures Converse([Some(line)] + rest).responses ==
      [ProcessRequest(Strip(line))] + Converse(rest).responses
  {
    assert ([Some(line)] + rest)[1..] == rest;
  }

  /** Surrounding whitespace never changes what the loop does with a line. */
  lemma DecideIgnoresPadding(p: string, line: string, q: string)
    requires AllSpace(p) && AllSpace(q)
    ensures Decide(p + line + q) == Decide(line)
  {
    StripIgnoresPadding(p, line, q);
  }

  /** Two lines that differ only in letter case are treated alike: both
      exit, both are skipped, or both are forwarded and get the same
      answer. */
  lemma DecideIgnoresCase(a: string, b: string)
    requires Lower(a) == Lower(b)
    ensures Decide(a).Exit? <==> Decide(b).Exit?
    ensures Decide(a).Skip? <==> Decide(b).Skip?
    ensures Decide(a).Forward? ==>
      Decide(b).Forward? && ProcessRequest(Decide(a).text) == ProcessRequest(Decide(b).text)
  {
    LowerStripCommute(a);
    LowerStripCommute(b);
    LowerKeepsBlank(a);
    LowerKeepsBlank(b);
    CaseInsensitive(Strip(a), Strip(b));
  }

  /** Answering one more text behind keeps the responses in step. */
  lemma AnswersToSnoc(responses: seq<string>, texts: seq<string>, t: string)
    requires AnswersTo(responses, texts)
    ensures AnswersTo(responses + [ProcessRequest(t)], texts + [t])
  {
  }

  /** Reading one more line adds what that line forwards. */
  lemma ForwardedTextsSnoc(lines: seq<Option<string>>, i: nat)
    requires i < |lines|
    ensures ForwardedTexts(lines[..i + 1]) == ForwardedTexts(lines[..i]) + Picked(lines[i])
  {
    assert lines[..i + 1] == lines[..i] + [lines[i]];
    ForwardedTextsAppend(lines[..i], [lines[i]]);
    ForwardedTextsCons(lines[i], []);
    assert [lines[i]] + [] == [lines[i]];
  }

  /** The loop of chat.py, reading the lines in turn until one stops it. */
  method RunChat(lines: seq<Option<string>>) returns (responses: seq<string>, ending: Ending)
    ensures AnswersTo(responses, ForwardedTexts(lines[..StopIndex(lines)]))
    ensures ending == ExitWord <==> StopIndex(lines) < |lines| && lines[StopIndex(lines)].Some?
  {
    responses := [];
    var i := 0;
    while true
      invariant 0 <= i <= StopIndex(lines) <= |lines|
      invariant AnswersTo(responses, ForwardedTexts(lines[..i]))
      decreases |lines| - i
    {
      if i == |lines| {
        ending := EndOfInput;
        break;
      }
      var line := lines[i];
      if Stops(line) {
        assert i == StopIndex(lines);
        ending := if line.None? then EndOfInput else ExitWord;
        break;
      }
      ForwardedTextsSnoc(lines, i);
      match Decide(line.value) {
        case Skip =>
          assert Picked(line) == [];
          assert ForwardedTexts(lines[..i]) + [] == ForwardedTexts(lines[..i]);
        case Forward(text) =>
          assert Picked(line) == [text];
          AnswersToSnoc(responses, ForwardedTexts(lines[..i]), text);
          responses := responses + [ProcessRequest(text)];
      }
      i := i + 1;
    }
  }
}

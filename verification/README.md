# AWS Daily Helper Assistant: the keyword dispatcher and the chat loop

This project models, in Dafny, the decision logic of the AWS Daily Helper
Assistant. There are two parts.

- **The agent** (`my-agent.py`). It holds five fixed advisory templates, keyed
  `ec2`, `s3`, `lambda`, `cost` and `general`. It also holds an ordered keyword
  table: `ec2`, `s3`, `lambda`, `cost`, `billing`, `price`, `budget`. Its request
  handler works in three steps:
  - blank input gets the `general` template;
  - any other input is lower-cased, and the first keyword that occurs in it as a
    substring picks the service type (`general` when none occurs);
  - the template is then looked up with `dict.get`, with the `general` template
    as the default.

  The deployment entry point reads `prompt` from the payload. It falls back to
  the greeting "Hello! How can I help you today?" and wraps the answer as
  `{"result": ...}`.
- **The chat loop** (`chat.py`). It strips every line it reads. An exit word
  (`exit`, `quit`, `bye`, `q`, in any case) ends the conversation. A blank line
  is skipped. Anything else is passed to the agent and the answer is printed.
  End of input or an interrupt also ends the conversation.

The files are:

- `text.dfy` (module `Text`): the three Python string operations involved.
  - `str.strip()` uses Python's full set of whitespace code points.
  - `str.lower()` is ASCII only.
  - `needle in hay` is the substring test.
  - Each has a specification and lemmas: stripping removes exactly the
    surrounding whitespace, lower-casing works pointwise, and the substring test
    holds when some position holds the needle.
- `agent.dfy` (module `Agent`): the service types, the five templates (their
  exact text), the response table, the keyword table in insertion order, and
  `_detect_service`, `process_request` and `invoke`. There are lemmas for:
  - first-match precedence;
  - case-insensitivity;
  - blank input;
  - totality of the table lookup;
  - a spelled-out, keyword-by-keyword reference classification.
- `chat.dfy` (module `Chat`): the per-line decision and the conversation. The
  conversation is written twice:
  - as a fold over the lines read, where `None` stands for end of input or an
    interrupt;
  - as a loop (`RunChat`) that mirrors the `while True` of `chat()`.

  Both are proved to answer exactly the lines forwarded before the first stop.
- `scenarios.dfy` (modules `Prompts` and `Scenarios`): concrete prompts and a
  concrete console session, each with its proved answer.

Two facts about the code as written:

- **"bill" is not a keyword.** Only `billing` is (my-agent.py:93). "What's my
  AWS bill this month?" therefore gets the general template
  (`Scenarios.BillQuestionIsGeneral`).
- **The import name differs from the file name.** `chat.py` imports the agent as
  `my_agent`, but the file is named `my-agent.py`. The model connects the two as
  evidently intended: the chat loop calls `Agent.ProcessRequest`.

## Model

| member | source | states |
|---|---|---|
| `Agent.Template` | my-agent.py:29-79 | Each service type's template is the response-table entry under its key. No template is empty. Only `General` yields the general template. |
| `Agent.TemplateInjective` | my-agent.py:29-79 | The five templates are pairwise different, so a response identifies the service type that produced it. |
| `Agent.FirstMatchSpec` | my-agent.py:130-135 | Scanning the rules in order returns the service type of the first rule whose keyword occurs. It returns `General` when no keyword occurs. |
| `Agent.KeywordTableCases` | my-agent.py:88-96 | Running the seven-entry keyword table in its insertion order gives the same result as the reference classification. The reference: "ec2" gives EC2; else "s3" gives S3; else "lambda" gives Lambda; else any of cost/billing/price/budget gives Cost; else General. |
| `Agent.DetectServiceCases` | my-agent.py:127-135 | `_detect_service` is that reference classification applied to the lower-cased input. |
| `Agent.ProcessRequestIsTemplate` | my-agent.py:108-115 | Every input is answered with the template of its service type. The service type is General for blank input and the detected one otherwise. The `.get` default never applies, and no answer is empty. |
| `Agent.EveryServiceHasResponse` | my-agent.py:115 | Every service type the keyword table can produce is a key of the response table. A lookup by a service type's key returns that type's template. |
| `Agent.KeywordsAreLowerCase` | my-agent.py:88-96 | Every keyword is its own lower-cased form. So testing keywords against the lower-cased input is a case-insensitive test. |
| `Agent.BlankIsGeneral` | my-agent.py:108-109 | Empty or whitespace-only input is answered with exactly the general template. |
| `Agent.MentionIsNotBlank` | my-agent.py:108-112 | Input in which a keyword occurs after lower-casing is not blank, so it reaches keyword detection. |
| `Agent.CaseInsensitive` | my-agent.py:127-131 | Two inputs that are equal up to ASCII case get the same service type and the same response. |
| `Agent.ResponseDeterminedByService` | my-agent.py:112-115 | Two inputs get the same response exactly when they get the same service type. |
| `Agent.FirstHitDecides` | my-agent.py:130-132 | If rule `k` is the first rule whose keyword occurs in the lower-cased input, the input gets that rule's service type and template. |
| `Agent.Ec2Wins` | my-agent.py:130-132 | Any input whose lower-cased form contains "ec2" gets the EC2 template, whatever else it mentions (for example "cost"). |
| `Agent.LambdaBeatsBudget` | my-agent.py:130-132 | Consider input that mentions "lambda" and "budget" but neither "ec2" nor "s3". It gets the Lambda template, not the cost template. |
| `Agent.CostKeywordsGiveCost` | my-agent.py:92-95 | Consider input that mentions any of cost/billing/price/budget, and none of ec2/s3/lambda. It gets the cost template. |
| `Agent.NoKeywordIsGeneral` | my-agent.py:134-135 | Input that contains none of the seven keywords after lower-casing gets the general template. |
| `Agent.AvoidingInputIsGeneral` | my-agent.py:130-135 | Suppose the lower-cased input lacks, for every rule, at least one character of that rule's keyword. Then the input is classified General. |
| `Agent.DefaultPromptIsGeneral` | my-agent.py:154 | The default greeting contains no keyword, so it is classified General. |
| `Agent.Invoke` | my-agent.py:153-160 | The result map has exactly one key, `result`. It holds the answer to the payload's `prompt` if present. Otherwise it holds the general template, the answer to the default greeting. |
| `Text.Strip` | chat.py:22 | `strip()` returns a string with no whitespace at either end. It is no longer than its input. It is empty exactly when the input is all whitespace. |
| `Text.StripIsSlice` | chat.py:22 | What `strip()` returns is a contiguous slice of the input, with only whitespace before and after it. |
| `Text.StripPadded` | chat.py:22 | A string with no surrounding whitespace, padded with any whitespace on either side, strips back to itself. |
| `Text.StripIgnoresPadding` | chat.py:22 | Adding whitespace around any line does not change what `strip()` returns. |
| `Text.StripIdempotent` | chat.py:22 | Stripping twice is stripping once. |
| `Text.Lower` | my-agent.py:127 | Lower-casing keeps the length and maps every character through ASCII lower-casing. |
| `Text.LowerIdempotent` | my-agent.py:127 | Lower-casing twice is lower-casing once. |
| `Text.LowerStripCommute` | chat.py:22-28 | Stripping and then lower-casing gives the same string as lower-casing and then stripping. |
| `Text.LowerKeepsBlank` | my-agent.py:127 | A string is all whitespace exactly when its lower-cased form is. |
| `Text.Contains` | my-agent.py:131 | `needle in hay` holds exactly when the needle occurs at some position of `hay`. |
| `Chat.Decide` | chat.py:22-38 | A line ends the loop exactly when its stripped, lower-cased form is one of the four exit words. It is skipped exactly when it is all whitespace. Otherwise its stripped, non-empty form is forwarded. |
| `Chat.DecideIgnoresPadding` | chat.py:22 | Surrounding whitespace never changes what the loop does with a line. |
| `Chat.DecideIgnoresCase` | chat.py:22-38 | Two lines that differ only in letter case are treated alike. Either both end the loop, or both are skipped, or both are forwarded and get the same answer. |
| `Chat.StopIndex` | chat.py:19-30 | Gives the position of the first line that stops the loop (end of input or an exit word), or the number of lines if no line does. |
| `Chat.ForwardedTexts` | chat.py:33-38 | Every text forwarded to the agent is non-empty, has no surrounding whitespace, and is not an exit word. |
| `Chat.Converse` | chat.py:19-39 | A conversation prints at most one response per line read, and every response is non-empty. |
| `Chat.ConverseAnswersForwarded` | chat.py:19-39 | The responses are the agent's answers to the lines forwarded before the first stop: one per line, in order. |
| `Chat.ResponseCount` | chat.py:19-34 | There are exactly as many responses as non-blank, non-exit lines before the first stop. |
| `Chat.ConverseEnding` | chat.py:21-30 | A conversation is recorded as stopped by an exit word exactly when the first stopping line is an exit line. It is recorded as stopped by end of input when end of input or an interrupt came first. Both cases print a goodbye. |
| `Chat.NothingAfterStop` | chat.py:23-30 | Once a stop has been read, appending any further lines does not change the conversation. |
| `Chat.BlankLineSkipped` | chat.py:33-34 | A blank line is skipped: the conversation goes on as if it had never been typed. |
| `Chat.ForwardedLineAnswered` | chat.py:37-39 | A non-blank, non-exit line is answered, in its stripped form, before everything that follows it. |
| `Chat.RunChat` | chat.py:19-42 | The loop prints the agent's answers to the lines forwarded before the first stop, in order. It reports the exit-word ending exactly when an exit word stopped it. |
| `Scenarios.Ec2CostQuestion` | my-agent.py:130-132 | "How can I optimize my EC2 costs?" gets the EC2 template, although it also contains "cost". |
| `Scenarios.HighCostQuestion` | my-agent.py:130-132 | "my ec2 cost is high" gets the EC2 template and not the cost template. |
| `Scenarios.BucketQuestion` | my-agent.py:90 | "How do I configure an S3 bucket policy?" gets the S3 template. |
| `Scenarios.TimeoutQuestion` | my-agent.py:91 | "My lambda function times out" gets the Lambda template. |
| `Scenarios.MonthlyCostQuestion` | my-agent.py:92 | "How can I reduce my monthly costs?" gets the cost template: "costs" contains the keyword "cost". |
| `Scenarios.BillQuestionIsGeneral` | my-agent.py:93 | "What's my AWS bill this month?" gets the general template, because the keyword is "billing", not "bill". |
| `Scenarios.PaddedExit` | chat.py:22-30 | The line "  exit  " ends the conversation. |
| `Scenarios.ShoutedExit` | chat.py:28-30 | "QUIT" and "Bye" end the conversation. |
| `Scenarios.ExitNeedsWholeLine` | chat.py:28-39 | "quit now" and "q?" are forwarded to the agent, not treated as exits. |
| `Scenarios.SkipAnswerExit` | chat.py:19-39 | Take a blank line, then a question, then an exit word, then anything at all. This gives one answer, and the loop stops at the exit word. |
| `Scenarios.SampleSession` | chat.py:19-39 | The lines "  ", "EC2 help", "Bye", "s3" give exactly the EC2 template and stop at "Bye", and the "s3" line is never read. |

## Left out

- The framework is not modelled:
  - `BedrockAgentCoreApp`;
  - the `strands.Agent` base-class constructor, including its name and description;
  - the `@app.entrypoint` registration;
  - `app.run()`.

  These are foreign calls whose behaviour is not visible (my-agent.py:9-13, 81-85, 142, 163-165).
- Console input and output are not modelled. This covers the banner, the prompts, the emoji and the two printed goodbyes. Input is a given sequence of lines, where `None` is end of input or a keyboard interrupt. Output is the sequence of responses and how the loop ended.
- The `except Exception` branch of the chat loop (chat.py:40-42) is not modelled. `process_request` is total in the model, so the branch cannot be reached.
- The `KeyboardInterrupt` handler around `chat()` (chat.py:45-49) is not modelled. In the model an interrupt is the `None` that ends the loop.
- Agent.Invoke: the payload is modelled as a map from strings to strings. A `prompt` value that is not a string is not modelled.
- Agent.ProcessRequest: `user_input` is a string, so the `not user_input` test for `None` is subsumed by the blank-input test.
- Text.Lower: this is ASCII lower-casing only; Python's `str.lower()` also lower-cases non-ASCII letters. Keyword and exit-word matching only look for ASCII letters. As far as Unicode's lower-case mappings go, only two non-ASCII letters lower-case to ASCII:
  - U+212A becomes "k", which occurs in no keyword and no exit word;
  - U+0130 becomes "i" followed by a combining dot, and the dot breaks any match.

  This argument is not proved.
- Strings are sequences of Unicode scalar values. A Python `str` can also hold lone surrogates, for example from surrogate-escaped input or a JSON payload. These are not modelled. A surrogate is neither whitespace nor an ASCII letter, so it could not change any decision the model makes.
- No response is produced by calling a language model, since the modelled code contains no such call.

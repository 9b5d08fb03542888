/** The AWS helper agent: a fixed table of advisory templates, an ordered
    keyword table that picks a service type from free text, and the
    request handler and deployment entry point built on them
    (my-agent.py). */
module Agent {
  import opened Text

  /** The service types the agent knows; `General` is the fallback. */
  datatype ServiceType = Ec2 | S3 | Lambda | Cost | General

  /** The string key each service type has in the response table. */
  function Key(t: ServiceType): string {
    match t
    case Ec2 => "ec2"
    case S3 => "s3"
    case Lambda => "lambda"
    case Cost => "cost"
    case General => "general"
  }

  const Ec2Template: string :=
    "**EC2 Assistance**\n\nHere's help with your EC2 question:\n"
    + "• Check your instance types and sizes for cost optimization\n"
    + "• Ensure security groups are properly configured\n"
    + "• Consider using Auto Scaling for better resource management\n"
    + "• Monitor CloudWatch metrics for performance insights\n\n"
    + "Would you like specific guidance on any of these areas?"

  const S3Template: string :=
    "**S3 Assistance**\n\nS3 best practices:\n"
    + "• Use appropriate storage classes (Standard, IA, Glacier)\n"
    + "• Enable versioning for important data\n"
    + "• Set up lifecycle policies to manage costs\n"
    + "• Configure proper bucket policies and ACLs\n\n"
    + "Need help with a specific S3 task?"

  const LambdaTemplate: string :=
    "**Lambda Assistance**\n\nLambda optimization tips:\n"
    + "• Right-size your memory allocation\n"
    + "• Use environment variables for configuration\n"
    + "• Implement proper error handling and retries\n"
    + "• Monitor execution duration and costs\n\n"
    + "What specific Lambda challenge can I help with?"

  const CostTemplate: string :=
    "**AWS Cost Optimization**\n\nCost management strategies:\n"
    + "• Use AWS Cost Explorer to analyze spending\n"
    + "• Set up billing alerts and budgets\n"
    + "• Consider Reserved Instances for predictable workloads\n"
    + "• Regularly review and terminate unused resources\n\n"
    + "Would you like help setting up cost monitoring?"

  const GeneralTemplate: string :=
    "**AWS General Assistance**\n\nI'm here to help with your AWS questions! I can assist with:\n"
    + "• Service recommendations and best practices\n"
    + "• Cost optimization strategies\n"
    + "• Security and compliance guidance\n"
    + "• Architecture design suggestions\n\n"
    + "Please provide more details about what you'd like help with."

  /** The response table, keyed by service-type string. */
  const Responses: map<string, string> := map[
    "ec2" := Ec2Template,
    "s3" := S3Template,
    "lambda" := LambdaTemplate,
    "cost" := CostTemplate,
    "general" := GeneralTemplate
  ]

  /** The keyword table in its insertion order, which is the order the
      classifier tries the keywords in. */
  const KeywordMap: seq<(string, ServiceType)> := [
    ("ec2", Ec2),
    ("s3", S3),
    ("lambda", Lambda),
    ("cost", Cost),
    ("billing", Cost),
    ("price", Cost),
    ("budget", Cost)
  ]

  /** The prompt `invoke` uses when the payload carries none. */
  const DefaultPrompt: string := "Hello! How can I help you today?"

  /** The template for a service type, read from the response table. */
  function Template(t: ServiceType): (r: string)
    ensures Key(t) in Responses && r == Responses[Key(t)]
    ensures r != []
    ensures t == General <==> r == GeneralTemplate
  {
    match t
    case Ec2 => Ec2Template
    case S3 => S3Template
    case Lambda => LambdaTemplate
    case Cost => CostTemplate
    case General => GeneralTemplate
  }

  /** Distinct service types have distinct templates, so a response tells
      which service type produced it. */
  lemma TemplateInjective(t: ServiceType, u: ServiceType)
    ensures Template(t) == Template(u) <==> t == u
  {
    // The five templates have five different lengths.
    assert |Ec2Template| == 336 && |S3Template| == 258 && |LambdaTemplate| == 264;
    assert |CostTemplate| == 289 && |GeneralTemplate| == 295;
  }

  /** Rule `k` is the first rule whose keyword occurs in `text`. */
  ghost predicate FirstHit(rules: seq<(string, ServiceType)>, text: string, k: int) {
    && 0 <= k < |rules|
    && Contains(rules[k].0, text)
    && forall j :: 0 <= j < k ==> !Contains(rules[j].0, text)
  }

  /** The loop of `_detect_service`: tries the rules in order and answers
      the service type of the first keyword found in `text`, or `General`
      when none is. */
  function FirstMatch(rules: seq<(string, ServiceType)>, text: string): ServiceType {
    if rules == [] then General
    else if Contains(rules[0].0, text) then rules[0].1
    else FirstMatch(rules[1..], text)
  }

  /** First match wins: the answer is the service type of the first rule
      whose keyword occurs, and `General` exactly when no keyword does. */
  lemma {:induction false} FirstMatchSpec(rules: seq<(string, ServiceType)>, text: string)
    ensures forall k :: FirstHit(rules, text, k) ==> FirstMatch(rules, text) == rules[k].1
    ensures (forall k :: 0 <= k < |rules| ==> !Contains(rules[k].0, text)) ==>
      FirstMatch(rules, text) == General
  {
    if rules != [] && !Contains(rules[0].0, text) {
      FirstMatchSpec(rules[1..], text);
      assert forall k :: FirstHit(rules, text, k) ==> FirstHit(rules[1..], text, k - 1);
    }
  }

  /** `_detect_service`: the first keyword of the table found in the
      lower-cased input picks the service type. */
  function DetectService(input: string): ServiceType {
    FirstMatch(KeywordMap, Lower(input))
  }

  /** True when `input` is empty or whitespace only. */
  predicate Blank(input: string) {
    Strip(input) == []
  }

  /** The service type whose template `process_request` answers with:
      `General` for blank input, otherwise the detected one. */
  function Classify(input: string): ServiceType {
    if Blank(input) then General else DetectService(input)
  }

  /** `dict.get(key, default)` on the response table. */
  function ResponseFor(key: string): string {
    if key in Responses then Responses[key] else Responses["general"]
  }

  /** `process_request`: blank input gets the general template without any
      keyword being inspected; otherwise the detected service type's
      template, looked up with the general template as default. */
  function ProcessRequest(input: string): string {
    if Blank(input) then Responses["general"]
    else ResponseFor(Key(DetectService(input)))
  }

  /** The answer to any input is the template of its service type: the
      `.get` default never applies, and no answer is empty. */
  lemma ProcessRequestIsTemplate(input: string)
    ensures ProcessRequest(input) == Template(Classify(input))
    ensures ProcessRequest(input) != []
  {
    EveryServiceHasResponse();
  }

  /** `invoke`: reads `prompt` from the payload, falling back to the default
      greeting, and wraps the answer as the only entry under `result`. */
  function Invoke(payload: map<string, string>): (r: map<string, string>)
    ensures r.Keys == {"result"}
    ensures "prompt" in payload ==> r["result"] == ProcessRequest(payload["prompt"])
    ensures "prompt" !in payload ==> r["result"] == GeneralTemplate
  {
    var message := if "prompt" in payload then payload["prompt"] else DefaultPrompt;
    assert "prompt" !in payload ==> Classify(message) == General by {
      if "prompt" !in payload {
        DefaultPromptIsGeneral();
      }
    }
    ProcessRequestIsTemplate(message);
    map["result" := ProcessRequest(message)]
  }

  /** Every keyword of the table is already lower case, so matching against
      lower-cased input is case-insensitive. */
  lemma KeywordsAreLowerCase()
    ensures forall k :: 0 <= k < |KeywordMap| ==> Lower(KeywordMap[k].0) == KeywordMap[k].0
  {
    forall k | 0 <= k < |KeywordMap| ensures Lower(KeywordMap[k].0) == KeywordMap[k].0 {
      LowerFixesLowerCase(KeywordMap[k].0);
    }
  }

  /** Every service type the keyword table can produce, and `general`, is a
      key of the response table: the `.get` default is never used. */
  lemma EveryServiceHasResponse()
    ensures forall k :: 0 <= k < |KeywordMap| ==> Key(KeywordMap[k].1) in Responses
    ensures forall t: ServiceType :: Key(t) in Responses && ResponseFor(Key(t)) == Template(t)
  {
  }

  /** The classification of `_detect_service` written out keyword by
      keyword, as an independent reference for the table-driven loop. */
  function SpelledOut(s: string): ServiceType {
    if Contains("ec2", s) then Ec2
    else if Contains("s3", s) then S3
    else if Contains("lambda", s) then Lambda
    else if Contains("cost", s) || Contains("billing", s)
      || Contains("price", s) || Contains("budget", s) then Cost
    else General
  }

  /** One turn of the loop, taken at rule `k`. */
  lemma FirstMatchStep(rules: seq<(string, ServiceType)>, k: nat, text: string)
    requires k < |rules|
    ensures FirstMatch(rules[k..], text) ==
      if Contains(rules[k].0, text) then rules[k].1 else FirstMatch(rules[k + 1..], text)
  {
    assert rules[k..][1..] == rules[k + 1..];
  }

  /** Running the keyword table over `text` agrees with the spelled-out
      classification. */
  lemma KeywordTableCases(text: string)
    ensures FirstMatch(KeywordMap, text) == SpelledOut(text)
  {
    var rules := KeywordMap;
    assert rules[0..] == rules;
    FirstMatchStep(rules, 0, text);
    FirstMatchStep(rules, 1, text);
    FirstMatchStep(rules, 2, text);
    FirstMatchStep(rules, 3, text);
    FirstMatchStep(rules, 4, text);
    FirstMatchStep(rules, 5, text);
    FirstMatchStep(rules, 6, text);
    assert rules[7..] == [];
  }

  /** `_detect_service` is the spelled-out classification of the
      lower-cased input. */
  lemma DetectServiceCases(input: string)
    ensures DetectService(input) == SpelledOut(Lower(input))
  {
    KeywordTableCases(Lower(input));
  }

  /** Classification ignores letter case: inputs equal up to ASCII case get
      the same service type and the same response. */
  lemma CaseInsensitive(a: string, b: string)
    requires Lower(a) == Lower(b)
    ensures Classify(a) == Classify(b)
    ensures ProcessRequest(a) == ProcessRequest(b)
  {
    LowerKeepsBlank(a);
    LowerKeepsBlank(b);
    ProcessRequestIsTemplate(a);
    ProcessRequestIsTemplate(b);
  }

  /** The response depends on the input only through its service type. */
  lemma ResponseDeterminedByService(a: string, b: string)
    ensures ProcessRequest(a) == ProcessRequest(b) <==> Classify(a) == Classify(b)
  {
    TemplateInjective(Classify(a), Classify(b));
    ProcessRequestIsTemplate(a);
    ProcessRequestIsTemplate(b);
  }

  /** Blank input always gets the general template. */
  lemma BlankIsGeneral(input: string)
    requires AllSpace(input)
    ensures ProcessRequest(input) == GeneralTemplate
  {
    ProcessRequestIsTemplate(input);
  }

  /** Input in which some non-blank text occurs, after lower-casing, is
      not blank. */
  lemma MentionIsNotBlank(needle: string, input: string)
    requires needle != [] && !IsSpace(needle[0])
    requires Contains(needle, Lower(input))
    ensures !Blank(input)
  {
    if Blank(input) {
      LowerKeepsBlank(input);
      BlankHoldsOnlyBlank(needle, Lower(input));
    }
  }

  /** When rule `k` is the first whose keyword occurs in the lower-cased
      input, the response is the template of that rule's service type. */
  lemma FirstHitDecides(input: string, k: int)
    requires FirstHit(KeywordMap, Lower(input), k)
    ensures Classify(input) == KeywordMap[k].1
    ensures ProcessRequest(input) == Template(KeywordMap[k].1)
  {
    var keyword := KeywordMap[k].0;
    assert keyword != [] && !IsSpace(keyword[0]);
    MentionIsNotBlank(keyword, input);
    FirstMatchSpec(KeywordMap, Lower(input));
    ProcessRequestIsTemplate(input);
  }

  /** "ec2" comes first in the table: any input mentioning it is an EC2
      question, whatever else it mentions (say "cost"). */
  lemma Ec2Wins(input: string)
    requires Contains("ec2", Lower(input))
    ensures ProcessRequest(input) == Ec2Template
  {
    assert FirstHit(KeywordMap, Lower(input), 0);
    FirstHitDecides(input, 0);
  }

  /** "lambda" precedes every cost keyword: input mentioning "lambda" and
      "budget" but neither "ec2" nor "s3" is a Lambda question. */
  lemma LambdaBeatsBudget(input: string)
    requires Contains("lambda", Lower(input)) && Contains("budget", Lower(input))
    requires !Contains("ec2", Lower(input)) && !Contains("s3", Lower(input))
    ensures ProcessRequest(input) == LambdaTemplate
  {
    assert FirstHit(KeywordMap, Lower(input), 2);
    FirstHitDecides(input, 2);
  }

  /** Input mentioning any of the four cost keywords, but none of "ec2",
      "s3" and "lambda", is a cost question. */
  lemma CostKeywordsGiveCost(input: string)
    requires !Contains("ec2", Lower(input)) && !Contains("s3", Lower(input))
    requires !Contains("lambda", Lower(input))
    requires || Contains("cost", Lower(input)) || Contains("billing", Lower(input))
             || Contains("price", Lower(input)) || Contains("budget", Lower(input))
    ensures ProcessRequest(input) == CostTemplate
  {
    var s := Lower(input);
    if Contains("cost", s) {
      MentionIsNotBlank("cost", input);
    } else if Contains("billing", s) {
      MentionIsNotBlank("billing", input);
    } else if Contains("price", s) {
      MentionIsNotBlank("price", input);
    } else {
      MentionIsNotBlank("budget", input);
    }
    DetectServiceCases(input);
    ProcessRequestIsTemplate(input);
  }

  /** Non-blank input mentioning none of the seven keywords gets the
      general template. */
  lemma NoKeywordIsGeneral(input: string)
    requires forall k :: 0 <= k < |KeywordMap| ==> !Contains(KeywordMap[k].0, Lower(input))
    ensures ProcessRequest(input) == GeneralTemplate
  {
    FirstMatchSpec(KeywordMap, Lower(input));
    ProcessRequestIsTemplate(input);
  }

  /** The default greeting mentions no keyword, so `invoke` without a
      prompt answers with the general template. */
  lemma DefaultPromptIsGeneral()
    ensures Classify(DefaultPrompt) == General
  {
    GreetingAvoids();
    AvoidingInputIsGeneral(DefaultPrompt, "2sbr", "2sbsbrb");
  }

  /** Input whose lower-cased form avoids, for every rule, some character
      of that rule's keyword (`picks[k]` for rule `k`) is classified as
      general. */
  lemma AvoidingInputIsGeneral(input: string, cs: string, picks: string)
    requires Avoids(Lower(input), cs)
    requires |picks| == |KeywordMap|
    requires forall k :: 0 <= k < |picks| ==> picks[k] in cs && picks[k] in KeywordMap[k].0
    ensures Classify(input) == General
  {
    KeywordsExcludedByChars(Lower(input), cs, picks);
    NoKeywordIsGeneral(input);
  }

  /** Text avoiding a set of characters contains none of the keywords when
      each keyword holds one of those characters (`picks[k]` for rule `k`). */
  lemma KeywordsExcludedByChars(text: string, cs: string, picks: string)
    requires Avoids(text, cs)
    requires |picks| == |KeywordMap|
    requires forall k :: 0 <= k < |picks| ==> picks[k] in cs && picks[k] in KeywordMap[k].0
    ensures forall k :: 0 <= k < |KeywordMap| ==> !Contains(KeywordMap[k].0, text)
  {
    forall k | 0 <= k < |KeywordMap| ensures !Contains(KeywordMap[k].0, text) {
      AvoidedCharExcludes(KeywordMap[k].0, text, cs, picks[k]);
    }
  }

  /** The default greeting has no '2', 's', 'b' or 'r' in either case. */
  lemma GreetingAvoids()
    ensures Avoids(Lower(DefaultPrompt), "2sbr")
  {
    assert Avoids(DefaultPrompt, "2sSbBrR");
    LowerAvoids(DefaultPrompt, "2sbr", "2sSbBrR");
  }
}

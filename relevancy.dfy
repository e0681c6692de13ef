/** The multimodal relevancy judge: a query, a response and textual contexts
    are rendered into one prompt, sent with the images to a multimodal model,
    and the model's free text is read as a pass/fail verdict. */
module Relevancy {
  import opened Wrappers
  import opened Strings
  import opened PromptTemplates

  // Slot names of the evaluation template and keys of the prompt dictionary.
  const QueryKey := "query_str"
  const ContextKey := "context_str"
  const EvalTemplateKey := "eval_template"
  const RefineTemplateKey := "refine_template"

  /* The built-in evaluation template, one constant per line of the source's
     literal. A backslash-newline inside those literals keeps the next line's
     indentation, hence the runs of spaces after "query". The split into lines
     and short pieces exists only so that the verifier can check, piece by
     piece, that the text holds no braces (the lemmas below); the pieces
     concatenate to the source's text unchanged. */
  const EvalLine1 := "Your task is to evaluate if " + "the response for the query "
  const EvalLine2 := "    is in line with the images " + "and textual context information " + "provided.\n"
  const EvalLine3 := "You have two options to answer. " + "Either YES/ NO.\n"
  const EvalLine4 := "Answer - YES, if the response " + "for the query "
  const EvalLine5 := "    is in line with context " + "information otherwise NO.\n"
  const EvalLine6 := "Query and Response: \n "
  const EvalIntro := EvalLine1 + EvalLine2 + EvalLine3 + EvalLine4 + EvalLine5 + EvalLine6
  const EvalMiddle := "\nContext: \n "
  const EvalOutro := "\nAnswer: "

  const DefaultEvalTemplate :=
    PromptTemplate(EvalIntro + "{" + QueryKey + "}" + EvalMiddle + "{" + ContextKey + "}" + EvalOutro)

  const DefaultRefineTemplate := PromptTemplate(
    "We want to understand if the following query and response is"
    + "in line with the context information: \n {query_str}\n"
    + "We have provided an existing YES/NO answer: \n {existing_answer}\n"
    + "We have the opportunity to refine the existing answer "
    + "(only if needed) with some more context below.\n"
    + "------------\n"
    + "{context_msg}\n"
    + "------------\n"
    + "If the existing answer was already YES, still answer YES. "
    + "If the information is present in the new context, answer YES. "
    + "Otherwise answer NO.\n")

  lemma EvalLine1BraceFree()
    ensures BraceFree(EvalLine1)
  {
    assert BraceFree("Your task is to evaluate if ");
    assert BraceFree("the response for the query ");
    BraceFreeConcat("Your task is to evaluate if ", "the response for the query ");
  }

  lemma EvalLine2BraceFree()
    ensures BraceFree(EvalLine2)
  {
    assert BraceFree("    is in line with the images ");
    assert BraceFree("and textual context information ");
    BraceFreeConcat("    is in line with the images ", "and textual context information ");
    assert BraceFree("provided.\n");
    BraceFreeConcat("    is in line with the images " + "and textual context information ", "provided.\n");
  }

  lemma EvalLine3BraceFree()
    ensures BraceFree(EvalLine3)
  {
    assert BraceFree("You have two options to answer. ");
    assert BraceFree("Either YES/ NO.\n");
    BraceFreeConcat("You have two options to answer. ", "Either YES/ NO.\n");
  }

  lemma EvalLine4BraceFree()
    ensures BraceFree(EvalLine4)
  {
    assert BraceFree("Answer - YES, if the response ");
    assert BraceFree("for the query ");
    BraceFreeConcat("Answer - YES, if the response ", "for the query ");
  }

  lemma EvalLine5BraceFree()
    ensures BraceFree(EvalLine5)
  {
    assert BraceFree("    is in line with context ");
    assert BraceFree("information otherwise NO.\n");
    BraceFreeConcat("    is in line with context ", "information otherwise NO.\n");
  }

  /** The literal text before the first slot holds no braces. */
  lemma EvalIntroBraceFree()
    ensures BraceFree(EvalIntro)
  {
    EvalLine1BraceFree();
    EvalLine2BraceFree();
    EvalLine3BraceFree();
    EvalLine4BraceFree();
    EvalLine5BraceFree();
    assert BraceFree(EvalLine6);
    BraceFreeConcat(EvalLine1, EvalLine2);
    BraceFreeConcat(EvalLine1 + EvalLine2, EvalLine3);
    BraceFreeConcat(EvalLine1 + EvalLine2 + EvalLine3, EvalLine4);
    BraceFreeConcat(EvalLine1 + EvalLine2 + EvalLine3 + EvalLine4, EvalLine5);
    BraceFreeConcat(EvalLine1 + EvalLine2 + EvalLine3 + EvalLine4 + EvalLine5, EvalLine6);
  }

  /** The keyword arguments the evaluation template is formatted with. */
  function PromptVars(contextStr: string, queryStr: string): map<string, string>
  {
    map[ContextKey := contextStr, QueryKey := queryStr]
  }

  /** A template made of brace-free text around a `query_str` slot and a
      later `context_str` slot renders with both slots filled. */
  lemma TwoSlotPrompt(intro: string, middle: string, outro: string, contextStr: string, queryStr: string)
    requires BraceFree(intro) && BraceFree(middle) && BraceFree(outro)
    ensures Format(intro + "{" + QueryKey + "}" + middle + "{" + ContextKey + "}" + outro,
                   PromptVars(contextStr, queryStr))
         == Success(intro + queryStr + middle + contextStr + outro)
  {
    var vars := PromptVars(contextStr, queryStr);
    var tail := "{" + ContextKey + "}" + outro;
    var mid := "{" + QueryKey + "}" + (middle + tail);
    assert intro + "{" + QueryKey + "}" + middle + "{" + ContextKey + "}" + outro == intro + mid;
    assert BraceFree(QueryKey) && BraceFree(ContextKey);
    assert QueryKey in vars && vars[QueryKey] == queryStr;
    assert ContextKey in vars && vars[ContextKey] == contextStr;
    FormatVerbatim(outro, vars);
    FormatSlot(ContextKey, outro, vars);
    var r3 := Format(tail, vars);
    assert r3 == Success(contextStr + outro);
    FormatPlainPrefix(middle, tail, vars);
    var r2 := Format(middle + tail, vars);
    assert r2 == Success(middle + (contextStr + outro));
    FormatSlot(QueryKey, middle + tail, vars);
    var r1 := Format(mid, vars);
    assert r1 == Success(queryStr + (middle + (contextStr + outro)));
    FormatPlainPrefix(intro, mid, vars);
    assert Format(intro + mid, vars) == Success(intro + (queryStr + (middle + (contextStr + outro))));
    AppendAssociates(middle, contextStr, outro);
    AppendAssociates(queryStr, middle + contextStr, outro);
    AppendAssociates(queryStr, middle, contextStr);
    AppendAssociates(intro, queryStr + middle + contextStr, outro);
    AppendAssociates(intro, queryStr + middle, contextStr);
    AppendAssociates(intro, queryStr, middle);
  }

  /** The built-in template never fails to render: the subject follows the
      "Query and Response" heading and the context block follows "Context". */
  lemma DefaultEvalPrompt(contextStr: string, queryStr: string)
    ensures Format(DefaultEvalTemplate.template, PromptVars(contextStr, queryStr))
         == Success(EvalIntro + queryStr + EvalMiddle + contextStr + EvalOutro)
  {
    EvalIntroBraceFree();
    assert BraceFree(EvalMiddle) && BraceFree(EvalOutro);
    TwoSlotPrompt(EvalIntro, EvalMiddle, EvalOutro, contextStr, queryStr);
  }

  // ---------------------------------------------------------------------------
  // The context block and the evaluation subject

  const ContextSeparator := "\n\n"
  const QuestionTag := "Question: "
  const ResponseTag := "\nResponse: "

  /** The composite subject judged against the contexts. */
  function Subject(query: string, response: string): string
  {
    QuestionTag + query + ResponseTag + response
  }

  /** Reads a subject back: the query runs up to the first newline. */
  function ParseSubject(s: string): Option<(string, string)>
  {
    if |s| < |QuestionTag| || s[..|QuestionTag|] != QuestionTag then None
    else
      var rest := s[|QuestionTag|..];
      match IndexOf(rest, '\n')
      case None => None
      case Some(k) =>
        if |rest| < k + |ResponseTag| || rest[k..k + |ResponseTag|] != ResponseTag then None
        else Some((rest[..k], rest[k + |ResponseTag|..]))
  }

  /** A subject built from a single-line query is read back as its query and response. */
  lemma SubjectRoundTrip(query: string, response: string)
    requires '\n' !in query
    ensures ParseSubject(Subject(query, response)) == Some((query, response))
  {
    var s := Subject(query, response);
    assert s[..|QuestionTag|] == QuestionTag;
    var rest := s[|QuestionTag|..];
    assert rest == query + ResponseTag + response;
    assert rest[|query|] == '\n';
    assert rest[..|query|] == query;
    assert IndexOf(rest, '\n') == Some(|query|);
    assert rest[|query|..|query| + |ResponseTag|] == ResponseTag;
    assert rest[|query| + |ResponseTag|..] == response;
  }

  /** Every text that reads back as a pair is the subject of that pair. */
  lemma ParseSubjectSound(s: string, query: string, response: string)
    requires ParseSubject(s) == Some((query, response))
    ensures '\n' !in query
    ensures s == Subject(query, response)
  {
    var rest := s[|QuestionTag|..];
    var k := IndexOf(rest, '\n').value;
    assert query == rest[..k] && response == rest[k + |ResponseTag|..];
    assert rest[k..k + |ResponseTag|] == ResponseTag;
    assert rest == query + (ResponseTag + response);
    assert s == QuestionTag + rest;
    AppendAssociates(query, ResponseTag, response);
    AppendAssociates(QuestionTag, query + ResponseTag, response);
    AppendAssociates(QuestionTag, query, ResponseTag);
  }

  // ---------------------------------------------------------------------------
  // The verdict and the score

  /** The verdict rule: "yes" occurs in the lower-cased model output. */
  predicate Passing(raw: string)
  {
    Contains(Lower(raw), "yes")
  }

  /** "yes" in any letter case starts at index `i` of `raw`. */
  ghost predicate YesAt(raw: string, i: int)
  {
    0 <= i && i + 3 <= |raw|
    && LowerChar(raw[i]) == 'y' && LowerChar(raw[i + 1]) == 'e' && LowerChar(raw[i + 2]) == 's'
  }

  /** The verdict passes exactly when "yes" occurs somewhere, in any case,
      inside a word or not; nothing else in the text is consulted. */
  lemma PassingIff(raw: string)
    ensures Passing(raw) <==> exists i :: YesAt(raw, i)
  {
    var low := Lower(raw);
    ContainsIff(low, "yes");
    forall i | 0 <= i && i + 3 <= |raw|
      ensures OccursAt(low, "yes", i) <==> YesAt(raw, i)
    {
      assert low[i..i + 3] == [low[i], low[i + 1], low[i + 2]];
    }
    if Passing(raw) {
      var i :| OccursAt(low, "yes", i);
      assert YesAt(raw, i);
    }
    if exists i :: YesAt(raw, i) {
      var i :| YesAt(raw, i);
      assert OccursAt(low, "yes", i);
    }
  }

  /** Text around a passing answer does not change the verdict. */
  lemma PassingSurrounded(before: string, raw: string, after: string)
    requires Passing(raw)
    ensures Passing(before + raw + after)
  {
    PassingIff(raw);
    var i :| YesAt(raw, i);
    var whole := before + raw + after;
    assert whole[|before| + i] == raw[i] && whole[|before| + i + 1] == raw[i + 1]
        && whole[|before| + i + 2] == raw[i + 2];
    assert YesAt(whole, |before| + i);
    PassingIff(whole);
  }

  /** The verdict is blind to letter case. */
  lemma PassingIgnoresCase(a: string, b: string)
    requires |a| == |b|
    requires forall i :: 0 <= i < |a| ==> LowerChar(a[i]) == LowerChar(b[i])
    ensures Passing(a) <==> Passing(b)
  {
    assert Lower(a) == Lower(b);
  }

  /** Without a 'y' or 'Y' the verdict fails. */
  lemma NoYFails(raw: string)
    requires forall i :: 0 <= i < |raw| ==> LowerChar(raw[i]) != 'y'
    ensures !Passing(raw)
  {
    PassingIff(raw);
  }

  /** Upper case, trailing punctuation, "yes" inside a word, and a "No"
      before the "Yes" all pass. */
  lemma VerdictPassExamples()
    ensures Passing("YES") && Passing("Yes.") && Passing("yesterday") && Passing("No. Yes.")
  {
    PassingIff("YES");
    assert YesAt("YES", 0);
    PassingIff("Yes.");
    assert YesAt("Yes.", 0);
    PassingIff("yesterday");
    assert YesAt("yesterday", 0);
    PassingIff("No. Yes.");
    assert YesAt("No. Yes.", 4);
  }

  lemma VerdictFailExample()
    ensures !Passing("No, the response does not match.")
  {
    NoYFails("No, the response does not match.");
  }

  /** The score is 1.0 for a pass and 0.0 for a fail, and nothing else. */
  function Score(passing: bool): (score: real)
    ensures score == 1.0 || score == 0.0
    ensures score == 1.0 <==> passing
  {
    if passing then 1.0 else 0.0
  }

  datatype EvaluationResult = EvaluationResult(
    query: string, response: string, passing: bool, score: real, feedback: string)

  /** `InvalidArgument` and `InvalidResult` are the two `ValueError`s the
      evaluator raises; `TemplateError` is an error of formatting the template. */
  datatype EvalError = InvalidArgument | InvalidResult | TemplateError(cause: FormatError)

  /** Turns the model's raw text into the result, or into an error when the
      verdict fails and errors are requested. */
  function Judge(query: string, response: string, raw: string, raiseError: bool)
    : (r: Result<EvaluationResult, EvalError>)
    ensures r.Failure? <==> !Passing(raw) && raiseError
    ensures r.Failure? ==> r.error == InvalidResult
    ensures r.Success? ==> r.value.query == query && r.value.response == response
    ensures r.Success? ==> r.value.feedback == raw
    ensures r.Success? ==> (r.value.passing <==> Passing(raw))
    ensures r.Success? ==> (r.value.score == 1.0 <==> r.value.passing)
    ensures r.Success? ==> r.value.score == 1.0 || r.value.score == 0.0
  {
    var passing := Passing(raw);
    if !passing && raiseError then Failure(InvalidResult)
    else Success(EvaluationResult(query, response, passing, Score(passing), raw))
  }

  // ---------------------------------------------------------------------------
  // Images

  /** The documents of all paths, each path's documents in turn. */
  function LoadAll<D>(paths: seq<string>, load: string -> seq<D>): seq<D>
    decreases |paths|
  {
    if |paths| == 0 then []
    else LoadAll(paths[..|paths| - 1], load) + load(paths[|paths| - 1])
  }

  /** Loading keeps input order: the documents of a run of paths followed
      by those of the next run. */
  lemma {:induction false} LoadAllConcat<D>(a: seq<string>, b: seq<string>, load: string -> seq<D>)
    ensures LoadAll(a + b, load) == LoadAll(a, load) + LoadAll(b, load)
    decreases |b|
  {
    if |b| == 0 {
      assert a + b == a;
    } else {
      var bi := b[..|b| - 1];
      LoadAllConcat(a, bi, load);
      assert (a + b)[..|a + b| - 1] == a + bi;
      assert (a + b)[|a + b| - 1] == b[|b| - 1];
    }
  }

  /** Accumulates the documents of every image path, one path at a time. */
  method CollectImageDocuments<D>(paths: seq<string>, load: string -> seq<D>) returns (docs: seq<D>)
    ensures docs == LoadAll(paths, load)
  {
    docs := [];
    for i := 0 to |paths|
      invariant docs == LoadAll(paths[..i], load)
    {
      assert paths[..i + 1][..i] == paths[..i];
      docs := docs + load(paths[i]);
    }
    assert paths[..|paths|] == paths;
  }

  /** The image list as the code computes it: None stands for reading a
      variable that was never assigned, which happens without image paths. */
  function ImageNodesAsWritten<D, N>(
    imagePaths: Option<seq<string>>, load: string -> seq<D>, parse: seq<D> -> seq<N>): Option<seq<N>>
  {
    if imagePaths.Some? && |imagePaths.value| > 0 then Some(parse(LoadAll(imagePaths.value, load)))
    else None
  }

  /** The image list as intended: empty without image paths. */
  function ImageNodes<D, N>(
    imagePaths: Option<seq<string>>, load: string -> seq<D>, parse: seq<D> -> seq<N>): seq<N>
  {
    if imagePaths.Some? && |imagePaths.value| > 0 then parse(LoadAll(imagePaths.value, load))
    else []
  }

  /** Without image paths the code reads an unassigned image list. */
  lemma UnboundWithoutImages<D, N>(load: string -> seq<D>, parse: seq<D> -> seq<N>)
    ensures ImageNodesAsWritten(None, load, parse).None?
    ensures ImageNodesAsWritten(Some([]), load, parse).None?
    ensures ImageNodes(None, load, parse) == [] && ImageNodes(Some([]), load, parse) == []
  {
  }

  /** The corrected image list differs from the code only where the code fails. */
  lemma ImageNodesCorrected<D, N>(
    imagePaths: Option<seq<string>>, load: string -> seq<D>, parse: seq<D> -> seq<N>)
    ensures ImageNodesAsWritten(imagePaths, load, parse).None?
        <==> imagePaths.None? || imagePaths.value == []
    ensures ImageNodesAsWritten(imagePaths, load, parse).Some?
        ==> ImageNodesAsWritten(imagePaths, load, parse).value == ImageNodes(imagePaths, load, parse)
  {
  }

  // ---------------------------------------------------------------------------
  // Prompt dictionary updates

  /** Replaces the templates named in `update`; other keys of `update` are ignored. */
  function ApplyUpdate(current: map<string, PromptTemplate>, update: map<string, PromptTemplate>)
    : map<string, PromptTemplate>
  {
    map k | k in current :: if k in update then update[k] else current[k]
  }

  /** Updating keeps the keys, and a key not in the update keeps its template. */
  lemma ApplyUpdateFrame(current: map<string, PromptTemplate>, update: map<string, PromptTemplate>)
    ensures ApplyUpdate(current, update).Keys == current.Keys
    ensures forall k :: k in current && k !in update ==> ApplyUpdate(current, update)[k] == current[k]
    ensures forall k :: k in current && k in update ==> ApplyUpdate(current, update)[k] == update[k]
  {
  }

  /** Applying the same update twice is applying it once; updating with the
      current dictionary changes nothing. */
  lemma ApplyUpdateIdempotent(current: map<string, PromptTemplate>, update: map<string, PromptTemplate>)
    ensures ApplyUpdate(ApplyUpdate(current, update), update) == ApplyUpdate(current, update)
    ensures ApplyUpdate(current, current) == current
  {
  }

  // ---------------------------------------------------------------------------
  // The evaluator

  /** A template argument: omitted, a raw template string, or a built template. */
  datatype TemplateArg = Omitted | Text(text: string) | Built(template: PromptTemplate)

  function Resolve(arg: TemplateArg, default: PromptTemplate): PromptTemplate
  {
    match arg
    case Omitted => default
    case Text(s) => PromptTemplate(s)
    case Built(t) => t
  }

  /** What the evaluator hands to the multimodal model. */
  datatype LlmRequest<N> = LlmRequest(prompt: string, imageDocuments: seq<N>)

  predicate ArgumentsMissing(query: Option<string>, response: Option<string>, contexts: Option<seq<string>>)
  {
    query.None? || contexts.None? || response.None?
  }

  /** The judge; `llm` is the model's completion, from a prompt and image nodes to text. */
  class MultiModalRelevancyEvaluator<N> {
    const llm: (string, seq<N>) -> string
    var raiseError: bool
    var evalTemplate: PromptTemplate
    var refineTemplate: PromptTemplate

    constructor (llm: (string, seq<N>) -> string, raiseError: bool := false,
                 evalTemplate: TemplateArg := Omitted, refineTemplate: TemplateArg := Omitted)
      ensures this.llm == llm && this.raiseError == raiseError
      ensures evalTemplate.Omitted? ==> this.evalTemplate == DefaultEvalTemplate
      ensures evalTemplate.Text? ==> this.evalTemplate == PromptTemplate(evalTemplate.text)
      ensures evalTemplate.Built? ==> this.evalTemplate == evalTemplate.template
      ensures refineTemplate.Omitted? ==> this.refineTemplate == DefaultRefineTemplate
      ensures refineTemplate.Text? ==> this.refineTemplate == PromptTemplate(refineTemplate.text)
      ensures refineTemplate.Built? ==> this.refineTemplate == refineTemplate.template
    {
      this.llm := llm;
      this.raiseError := raiseError;
      this.evalTemplate := Resolve(evalTemplate, DefaultEvalTemplate);
      this.refineTemplate := Resolve(refineTemplate, DefaultRefineTemplate);
    }

    /** The current templates, by key. */
    function GetPrompts(): (prompts: map<string, PromptTemplate>)
      reads this
      ensures prompts.Keys == {EvalTemplateKey, RefineTemplateKey}
      ensures prompts[EvalTemplateKey] == evalTemplate
      ensures prompts[RefineTemplateKey] == refineTemplate
    {
      map[EvalTemplateKey := evalTemplate, RefineTemplateKey := refineTemplate]
    }

    /** Replaces the templates whose keys `prompts` holds, and only those. */
    method UpdatePrompts(prompts: map<string, PromptTemplate>)
      modifies this
      ensures GetPrompts() == ApplyUpdate(old(GetPrompts()), prompts)
      ensures raiseError == old(raiseError)
    {
      if EvalTemplateKey in prompts {
        evalTemplate := prompts[EvalTemplateKey];
      }
      if RefineTemplateKey in prompts {
        refineTemplate := prompts[RefineTemplateKey];
      }
    }

    /** One evaluation. `sent` is the request handed to the model, None when
        the model is not called; `load` and `parse` stand for reading an image
        file into documents and turning the documents into image nodes.
        Because `llm` is a pure function, the contract cannot observe whether
        it was applied: "the model is not called" holds only in that the body
        sets `sent` to None on exactly those paths, and the verifier checks
        `sent` against the contract, not the absence of the call itself. */
    method Evaluate<D>(query: Option<string>, response: Option<string>, contexts: Option<seq<string>>,
                       imagePaths: Option<seq<string>>, load: string -> seq<D>, parse: seq<D> -> seq<N>)
      returns (outcome: Result<EvaluationResult, EvalError>, sent: Option<LlmRequest<N>>)
      ensures ArgumentsMissing(query, response, contexts) <==> outcome == Failure(InvalidArgument)
      ensures ArgumentsMissing(query, response, contexts) ==> sent.None?
      ensures !ArgumentsMissing(query, response, contexts) ==>
        var fmt := Format(evalTemplate.template,
                          PromptVars(Join(contexts.value, ContextSeparator), Subject(query.value, response.value)));
        && (fmt.Failure? ==> outcome == Failure(TemplateError(fmt.error)) && sent.None?)
        && (fmt.Success? ==>
              sent == Some(LlmRequest(fmt.value, ImageNodes(imagePaths, load, parse)))
              && outcome == Judge(query.value, response.value, llm(fmt.value, sent.value.imageDocuments), raiseError))
    {
      if query.None? || contexts.None? || response.None? {
        return Failure(InvalidArgument), None;
      }
      var contextStr := Join(contexts.value, ContextSeparator);
      var evaluationQueryStr := Subject(query.value, response.value);
      var fmtPrompt := Format(evalTemplate.template, PromptVars(contextStr, evaluationQueryStr));
      if fmtPrompt.Failure? {
        return Failure(TemplateError(fmtPrompt.error)), None;
      }
      var imageNodes: seq<N> := [];
      if imagePaths.Some? && |imagePaths.value| > 0 {
        var imageDocuments := CollectImageDocuments(imagePaths.value, load);
        imageNodes := parse(imageDocuments);
      }
      var rawResponseTxt := llm(fmtPrompt.value, imageNodes);
      sent := Some(LlmRequest(fmtPrompt.value, imageNodes));
      outcome := Judge(query.value, response.value, rawResponseTxt, raiseError);
    }
  }

  /** A default evaluator given one context, no image paths, and a model that
      answers "YES" passes, and the model receives no images. */
  method NoImagesExample()
  {
    var e := new MultiModalRelevancyEvaluator<string>((prompt: string, images: seq<string>) => "YES");
    var load := (path: string) => [path];
    var parse := (docs: seq<string>) => docs;
    var outcome, sent := e.Evaluate(Some("Is this a cat?"), Some("Yes, it is a cat."),
                                    Some(["An image of a cat."]), Some([]), load, parse);
    DefaultEvalPrompt("An image of a cat.", Subject("Is this a cat?", "Yes, it is a cat."));
    assert Join(["An image of a cat."], ContextSeparator) == "An image of a cat.";
    VerdictPassExamples();
    assert sent.Some? && sent.value.imageDocuments == [];
    assert outcome == Success(EvaluationResult("Is this a cat?", "Yes, it is a cat.", true, 1.0, "YES"));
  }
}

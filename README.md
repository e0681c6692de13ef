# Multimodal relevancy evaluator, modelled in Dafny

This project models `MultiModalRelevancyEvaluator` from
`llama_index/evaluation/multi_modal/relevancy.py`. The evaluator is a binary
judge. It checks arguments, joins the textual contexts with blank lines and
builds the subject `"Question: …\nResponse: …"`. It fills the evaluation
template with these two strings and collects the documents of every image
path in order. It sends the prompt and the image nodes to a multimodal model
and reads the model's text as a verdict: pass when the lower-cased text
contains `"yes"`. A result echoes the query and the response, carries a score
of 1.0 or 0.0 derived from the verdict, and keeps the raw text as feedback.
With `raise_error` set, a failing verdict becomes an error.

Files:

- `wrappers.dfy` (`Wrappers`): `Option`, `Result` and `Prepend`, a helper on string results.
- `strings.dfy` (`Strings`): the Python `str` operations the evaluator uses, with lemmas. These are ASCII `lower()`, the substring test `in`, `"\n\n".join` and a first-occurrence search.
- `prompt_templates.dfy` (`PromptTemplates`): a template is its text, and `Format` models `str.format(**kwargs)` on it. Against that parser stands a reference meaning: literal segments and named slots (`Render`). `FormatEncoded` proves that the two agree.
- `relevancy.dfy` (`Relevancy`): the built-in templates, the subject and its inverse, the verdict, the score, `Judge`, the image accumulation loop, and the class `MultiModalRelevancyEvaluator`. The class has the fields `raiseError`, `evalTemplate` and `refineTemplate`, the constructor, `GetPrompts`, `UpdatePrompts` and `Evaluate`.

The multimodal model is a function from a prompt and an image-node list to
text. It is held in the constant field `llm`. Reading one image file into
documents (`load`) and turning documents into image nodes (`parse`) are
functions passed to `Evaluate`. `Evaluate` also returns `sent`, the request it
handed to the model, or `None` when the model was not called. This makes
"the model is never called" a checkable part of the contract.

Without image paths the code reads a variable it never assigned (see
"## Findings"). `Evaluate` instead passes an empty image list, the evident
intent. The as-written behaviour is modelled separately, by
`ImageNodesAsWritten`.

## Model

| member | source | states |
|---|---|---|
| `Relevancy.MultiModalRelevancyEvaluator.constructor` | llama_index/evaluation/multi_modal/relevancy.py:58-81 | `raise_error` defaults to false and is stored. A template argument given as a string is wrapped into a template, even when the string is empty. A built template is kept as it is. An omitted template falls back to the built-in default. |
| `Relevancy.MultiModalRelevancyEvaluator.GetPrompts` | llama_index/evaluation/multi_modal/relevancy.py:83-88 | The prompt dictionary has exactly the keys `eval_template` and `refine_template`, mapped to the two current templates. |
| `Relevancy.MultiModalRelevancyEvaluator.UpdatePrompts` | llama_index/evaluation/multi_modal/relevancy.py:90-95 | The new prompt dictionary is the old one with each key that the argument holds replaced. `raise_error` is unchanged. |
| `Relevancy.ApplyUpdateFrame` | llama_index/evaluation/multi_modal/relevancy.py:90-95 | An update keeps the set of keys. A key absent from the update keeps its template, and a present key takes the supplied one. Keys the evaluator does not hold are ignored. |
| `Relevancy.ApplyUpdateIdempotent` | llama_index/evaluation/multi_modal/relevancy.py:90-95 | Applying an update twice equals applying it once. Updating with the current dictionary changes nothing. |
| `Relevancy.MultiModalRelevancyEvaluator.Evaluate` | llama_index/evaluation/multi_modal/relevancy.py:97-147 | A missing query, contexts or response gives exactly `InvalidArgument`, and the model is not called. Otherwise the template is formatted with `context_str` set to the joined contexts and `query_str` set to the subject. A formatting error is returned as is, without calling the model. Otherwise the model receives that prompt and the image nodes of the paths (empty without paths), and the outcome is `Judge` of the model's text. |
| `Relevancy.Judge` | llama_index/evaluation/multi_modal/relevancy.py:132-147 | The outcome is an error exactly when the verdict fails and `raise_error` is set, and that error is `InvalidResult`. A result echoes the query and the response, keeps the raw text verbatim as feedback, and passes exactly when the verdict does. Its score is 1.0 or 0.0, and 1.0 exactly when it passes. |
| `Relevancy.Score` | llama_index/evaluation/multi_modal/relevancy.py:145 | The score takes only the values 1.0 and 0.0, and it is 1.0 exactly when the result passes. |
| `Relevancy.PassingIff` | llama_index/evaluation/multi_modal/relevancy.py:134-135 | The verdict passes exactly when the letters y, e, s, in any letter case, occur consecutively somewhere in the model's text. |
| `Relevancy.PassingSurrounded` | llama_index/evaluation/multi_modal/relevancy.py:134-135 | Any text before or after a passing answer keeps it passing. |
| `Relevancy.PassingIgnoresCase` | llama_index/evaluation/multi_modal/relevancy.py:134 | Two texts that agree up to letter case get the same verdict. |
| `Relevancy.NoYFails` | llama_index/evaluation/multi_modal/relevancy.py:134-139 | A text with no `y` or `Y` fails the verdict. |
| `Relevancy.VerdictPassExamples` | llama_index/evaluation/multi_modal/relevancy.py:134-135 | `"YES"`, `"Yes."`, `"yesterday"` and `"No. Yes."` all pass. |
| `Relevancy.VerdictFailExample` | llama_index/evaluation/multi_modal/relevancy.py:134-139 | `"No, the response does not match."` fails the verdict. |
| `Strings.ContainsIff` | llama_index/evaluation/multi_modal/relevancy.py:134 | The substring scan succeeds exactly when the pattern occurs at some index. Both directions are proved. |
| `Strings.JoinElement` | llama_index/evaluation/multi_modal/relevancy.py:112 | Each context appears unchanged in the joined block, in order, at the sum of the lengths of the earlier contexts and separators. |
| `Strings.JoinSeparator` | llama_index/evaluation/multi_modal/relevancy.py:112 | Exactly the separator `"\n\n"` lies between neighbouring contexts. |
| `Strings.JoinLength` | llama_index/evaluation/multi_modal/relevancy.py:112 | The block adds nothing beyond the contexts and one separator between each pair of neighbours. |
| `Strings.JoinAppend` | llama_index/evaluation/multi_modal/relevancy.py:112 | A single context is joined to itself, with no separator. Appending a context to a non-empty list adds one separator and the context. |
| `Strings.JoinConcat` | llama_index/evaluation/multi_modal/relevancy.py:112 | Joining two non-empty runs of contexts puts exactly one separator between the two joined runs. |
| `Relevancy.SubjectRoundTrip` | llama_index/evaluation/multi_modal/relevancy.py:113 | The subject of a single-line query and any response reads back as that query and response. |
| `Relevancy.ParseSubjectSound` | llama_index/evaluation/multi_modal/relevancy.py:113 | A text that reads back as a query and a response is exactly `"Question: " + query + "\nResponse: " + response`, with a single-line query. |
| `PromptTemplates.FormatEncoded` | llama_index/evaluation/multi_modal/relevancy.py:114-116 | Formatting a template's text gives its reference meaning. The text is literal segments, with braces doubled, and `{name}` slots. Each slot is filled from the keyword arguments, and the first slot without a value is a `MissingField` error. |
| `PromptTemplates.FormatVerbatim` | llama_index/evaluation/multi_modal/relevancy.py:114-116 | A template without braces formats to its own text, whatever the arguments. |
| `Relevancy.TwoSlotPrompt` | llama_index/evaluation/multi_modal/relevancy.py:114-116 | A template of brace-free text around a `query_str` slot and a later `context_str` slot renders with the subject and the context block in those places. |
| `Relevancy.DefaultEvalPrompt` | llama_index/evaluation/multi_modal/relevancy.py:14-23 | The built-in evaluation template always renders. The subject follows "Query and Response:" and the context block follows "Context:". |
| `Relevancy.CollectImageDocuments` | llama_index/evaluation/multi_modal/relevancy.py:118-123 | The accumulation loop yields the documents of every path, path after path in input order (`LoadAll`). |
| `Relevancy.LoadAllConcat` | llama_index/evaluation/multi_modal/relevancy.py:118-123 | Loading a list of paths gives the documents of its first part followed by those of its second part, so input order is kept. |
| `Relevancy.UnboundWithoutImages` | llama_index/evaluation/multi_modal/relevancy.py:119-129 | With image paths `None` or empty, the code as written has no image list when it calls the model (an `UnboundLocalError`). The corrected list is empty. |
| `Relevancy.ImageNodesCorrected` | llama_index/evaluation/multi_modal/relevancy.py:119-129 | The code as written fails exactly when there are no image paths. Otherwise it agrees with the corrected image list. |

## Left out

- `aevaluate` (relevancy.py:149-199) repeats `evaluate` line for line and awaits `acomplete` instead of calling `complete`. `Evaluate` models both, and suspension and concurrency are not modelled.
- The model call (`complete`/`acomplete`) is a network call. It is the uninterpreted, deterministic function `llm`. Errors it raises and the `str()` of its response object are not modelled: `llm` returns the text directly.
- Constructing the default `OpenAIMultiModal` client when none is passed (relevancy.py:66-68) is left out. The constructor takes the model function as an argument.
- Image ingestion (`SimpleDirectoryReader(...).load_data()`, `SimpleNodeParser.from_defaults().get_nodes_from_documents`) is file I/O and foreign parsing. These are the functions `load` and `parse`, and only their order of application is modelled.
- `image_urls` and `**kwargs` are accepted but never read by the source, so `Evaluate` does not take them.
- `Strings.Lower`: lower-cases ASCII letters only. Python's `str.lower()` also folds non-ASCII letters, which this model does not capture.
- `PromptTemplates.Format`: models `str.format` for plain fields only. The whole text between braces is the key, `{{` and `}}` are literal braces, and malformed braces are one `Malformed` error. Conversions (`!r`), format specs (`:…`), attribute and index access, and positional fields are not modelled. An empty or numeric field is a `MissingField` here, where Python raises `IndexError`. Partial formatting, variable mappings and output parsers of llama_index prompt templates are not part of this model.
- Built templates are represented only by their text. Chat and selector templates are not modelled.
- `Relevancy.MultiModalRelevancyEvaluator.constructor`: a string template is wrapped without being parsed. In llama_index, building a `PromptTemplate` from a string (relevancy.py:73 and :79) collects its variables with `string.Formatter().parse`, which raises `ValueError` on a lone `{` or `}` or a `{` inside a field name, so a malformed string template fails in `__init__`. Here the constructor always succeeds, and such a template surfaces later as `TemplateError(Malformed)` from `Evaluate`. The llama_index `PromptTemplate` initializer is not part of this model.
- The default template texts are kept verbatim, including the source's own spacing and the missing space in the refine template's "isin line". The refine template is stored and returned but never rendered, as in the source.

## Findings

| source | as written | input that shows it | evidently intended | confidence | as-written member | corrected member |
|---|---|---|---|---|---|---|
| llama_index/evaluation/multi_modal/relevancy.py:119-129 | `image_nodes` is assigned only inside `if image_paths:` but is read when the model is called | `evaluate(query="Is this a cat?", response="Yes, it is a cat.", contexts=["An image of a cat."], image_paths=None)` raises `UnboundLocalError` before any verdict (the same for `image_paths=[]`, and in `aevaluate` at lines 171-181) | call the model with an empty image list when there are no image paths | high; not executed | `Relevancy.UnboundWithoutImages` | `Relevancy.MultiModalRelevancyEvaluator.Evaluate` |

# Quiz question generation, modelled in Dafny

The quiz backend (`ai_quiz_backend/app.py`) answers every request for a
multiple-choice question through one function, `generate_question_with_mistral`.
It builds a prompt from the requested topic and difficulty, asks a local
language model (`mistral`, through `ollama.chat`) for a question, and cuts the
text from the first `{` through the last `}` out of the model's reply. It
decodes that text with `json.loads` and checks the result: the six keys
`question`, `options`, `correctAnswer`, `explanation`, `difficulty` and `topic`
must be present, `options` must hold exactly four entries, and `correctAnswer`
must be one of them. A question that passes is returned as decoded. On any
failure (the model call raising, no braces, undecodable text, a failed
check) the function returns a fixed placeholder question instead.

The model is written with functions and lemmas, as the source is a single
pure function whose exceptions form a chain of early exits:

- `wrappers.dfy`: `Option` and `Result`.
- `json.dfy`: `JsonValue`, the values `json.loads` produces, and the two facts
  about `json.loads` some lemmas assume: it refuses the empty text, and it
  decodes a text starting with `{` into an object, if it decodes it at all.
- `pystr.dfy`: `str.find`, `str.rfind`, slicing, substring containment and the
  concatenation an f-string performs.
- `question_generator.dfy`: the pipeline itself. `BuildPrompt`,
  `ExtractCandidate`, `Validate` and `Fallback` are its steps. `Attempt` is the
  `try` block, ending in a `Result` whose `Failure` names the step that failed.
  `Respond` turns any failure into the fallback, and `GenerateQuestion` is the
  whole function.
- `pipeline_properties.dfy`: lemmas relating the steps to what the caller
  gets.

The model call and the decoder are foreign code, so they are parameters. The
call is `chat: string -> Option<string>`, or the reply directly as an
`Option<string>`; `None` means the call raised. The decoder is
`parse: string -> Option<JsonValue>`; `None` means `json.loads` raised.

The headline property is `GenerateQuestion`'s contract. For every model
behaviour and every decoder, the result is an object with all six keys,
exactly four options, and a `correctAnswer` equal to one of them
(`IsQuestion`). That result is the object decoded from the model's reply
when that object passes every check, and the fallback question otherwise.

A reply whose first `{` comes after its last `}` is not rejected at
extraction. The code slices the empty text, which `json.loads` refuses, so
the result is the fallback (`InvertedBracesFallBack`). The code does not
check that the options differ or that the question text is non-empty, and
neither does the model.

## Model

| member | source | states |
|---|---|---|
| `PyStr.Find` | ai_quiz_backend/app.py:41 | `text.find('{')`: -1 exactly when the character is absent, otherwise an index holding it with no earlier occurrence |
| `PyStr.RFind` | ai_quiz_backend/app.py:42 | `text.rfind('}')`: -1 exactly when the character is absent, otherwise an index holding it with no later occurrence |
| `PyStr.Slice` | ai_quiz_backend/app.py:47 | Python slicing with non-negative bounds: the end is clipped to the length, the slice is empty when the start is not before the end, and element `k` of the slice is element `i + k` of the text |
| `QuestionGenerator.BuildPrompt` | ai_quiz_backend/app.py:11-24 | the prompt contains the topic, the difficulty, and every one of the six required keys written in quotes |
| `QuestionGenerator.ExtractCandidate` | ai_quiz_backend/app.py:41-47 | no candidate exactly when the reply lacks `{` or `}`; otherwise the span from the first `{` through the last `}` inclusive, or the empty text when that `}` comes before that `{`; a non-empty candidate starts with `{` and ends with `}` |
| `QuestionGenerator.FirstMissing` | ai_quiz_backend/app.py:51-54 | the loop over the required keys: none missing exactly when every key is present, otherwise the index of a missing key with every earlier key present |
| `QuestionGenerator.Validate` | ai_quiz_backend/app.py:51-64 | accepts exactly the values satisfying the schema and returns them unchanged; a non-object is rejected; otherwise the first missing key, in the listed order, is reported before the options are looked at, then a non-list or a list not of length 4, then an answer equal to no option |
| `QuestionGenerator.Fallback` | ai_quiz_backend/app.py:66-80 | the placeholder satisfies the schema, has options "Option A" to "Option D" and answer "Option A", echoes the requested topic and difficulty, and its question text contains the topic |
| `QuestionGenerator.Attempt` | ai_quiz_backend/app.py:26-64 | the `try` block: a success satisfies the schema and is exactly the value the decoder produced from the candidate cut out of the model's reply |
| `QuestionGenerator.Respond` | ai_quiz_backend/app.py:26-80 | failures are absorbed: the result always satisfies the schema; it is the successful attempt's object when the attempt succeeds and the fallback question when it fails |
| `QuestionGenerator.GenerateQuestion` | ai_quiz_backend/app.py:10-80 | total: for every model behaviour and decoder, the result has all six keys, exactly four options and an answer among them; it is the object decoded from the reply to the prompt when that passes every check, and the fallback otherwise |
| `PipelineProperties.BackendErrorFallsBack` | ai_quiz_backend/app.py:27-35 | a raising model call ends the attempt as a backend error and yields the fallback question |
| `PipelineProperties.NoBraceFallsBack` | ai_quiz_backend/app.py:41-45 | a reply without `{` or without `}` has no candidate and yields the fallback question |
| `PipelineProperties.InvertedBracesFallBack` | ai_quiz_backend/app.py:41-48 | when every `}` comes before every `{`, the candidate is the empty text; a decoder that refuses empty text makes the attempt fail and the fallback is returned |
| `PipelineProperties.WholeReplyIsCandidate` | ai_quiz_backend/app.py:41-47 | a reply that starts with `{` and ends with `}` is taken whole |
| `PipelineProperties.WidestSpanTaken` | ai_quiz_backend/app.py:41-47 | the widest span is taken: `noise {"a":1} more {"b":2} noise` yields `{"a":1} more {"b":2}`, not the first object |
| `PipelineProperties.MissingKeyRejectedFirst` | ai_quiz_backend/app.py:51-58 | an object lacking a required key is rejected for a missing key (that one or one checked earlier), whatever its options |
| `PipelineProperties.AcceptedObjectReturnedUnchanged` | ai_quiz_backend/app.py:64 | a decoded object that passes every check is what the caller receives |
| `PipelineProperties.RequestedTopicNotImposed` | ai_quiz_backend/app.py:64 | for every request, reply and decoder, an accepted object keeps its own `topic` and `difficulty`; the requested ones do not overwrite them |
| `PipelineProperties.MathQuestionKeptForPhotosynthesisRequest` | ai_quiz_backend/app.py:41-64 | one end-to-end example: a reply that is a braced valid "Math"/"Easy" question, requested as "Photosynthesis"/"Hard", comes back as that exact object |
| `PipelineProperties.CandidateNeverNonObject` | ai_quiz_backend/app.py:48-54 | with a decoder that refuses empty text and decodes braced text only to objects, the "not an object" rejection never happens |

## Left out

- The Flask application, CORS, both HTTP routes, their `"General Knowledge"`/`"Easy"` defaults, the 500 responses and `app.run` (ai_quiz_backend/app.py:7-8, 82-112) are HTTP plumbing and are not modelled.
- `ollama.chat` and the read of `response['message']['content']` (ai_quiz_backend/app.py:27-38) are a network call into foreign code. They are the parameter `chat` or the reply `Option<string>`. Any way they raise is `None`.
- `json.loads` (ai_quiz_backend/app.py:48) is a foreign decoder. It is the parameter `parse`. Its behaviour on empty and on braced text enters only as lemma hypotheses (`RejectsEmptyText`, `BracedTextIsObject`).
- The unused `random` import (ai_quiz_backend/app.py:5) is not modelled.
- The text of the exceptions' messages is not modelled. The `Failure` constructors stand for them, and the caller never sees them.
- QuestionGenerator.Validate: an `options` value that is not a JSON list is rejected. In Python, a string or a dict of length 4 passes the count check, and `in` then tests substrings or keys. A number makes `len` raise, which does lead to the fallback.
- QuestionGenerator.Validate: a decoded value that is not an object is rejected as one failure. In Python a list or string goes through the key loop with list or substring membership and then fails on indexing, which ends in the same fallback.
- QuestionGenerator.Validate: JSON values are compared by the model's structural equality. JSON numbers are `real`, so `1` equals `1.0` as in Python. Python's `True == 1` and its treatment of `NaN` in membership tests are not modelled.
- Objects are maps, so the order of keys in the returned dict is not modelled.

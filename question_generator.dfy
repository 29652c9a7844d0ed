/**
 * `generate_question_with_mistral` of the quiz backend: build a prompt from
 * a topic and a difficulty, ask the language model for a question, cut the
 * JSON object out of its reply, check it against the question schema, and
 * fall back to a fixed placeholder question when any step fails.
 *
 * The model call and the JSON decoder are foreign code; they are the
 * parameters `chat` and `parse`. `chat` returns `None` when the call raises
 * (no backend, unknown model, a reply without `message.content`); `parse`
 * returns `None` when decoding raises.
 */
module QuestionGenerator {
  import opened Wrappers
  import opened Json
  import opened PyStr

  /** The keys every question must have, in the order they are checked. */
  const RequiredFields: seq<string> :=
    ["question", "options", "correctAnswer", "explanation", "difficulty", "topic"]

  /** The four option labels of the fallback question. */
  const PlaceholderOptions: seq<JsonValue> :=
    [JString("Option A"), JString("Option B"), JString("Option C"), JString("Option D")]

  /** Why an attempt fell back. The caller never sees it; it names the step that failed. */
  datatype Failure =
    | BackendError          // the model call raised
    | NoJsonObject          // the reply has no `{` or no `}`
    | InvalidJson           // the cut-out text did not decode
    | NotAnObject           // it decoded to something other than an object
    | MissingField(name: string)
    | OptionsNotAList
    | WrongOptionCount
    | AnswerNotInOptions

  /** Every required key is present in `fields`. */
  predicate HasRequiredFields(fields: map<string, JsonValue>) {
    forall f | f in RequiredFields :: f in fields
  }

  /**
   * The question schema: an object with all six keys whose `options` is a
   * list of exactly four values, one of which equals `correctAnswer`.
   * Nothing is required of the other fields' types, nor that the options differ.
   */
  predicate IsQuestion(v: JsonValue) {
    && v.JObject?
    && HasRequiredFields(v.fields)
    && v.fields["options"].JArray?
    && |v.fields["options"].items| == 4
    && v.fields["correctAnswer"] in v.fields["options"].items
  }

  /** `RequiredFields[i]` is the first required key that `v`, an object, lacks. */
  predicate FirstMissingAt(v: JsonValue, i: int) {
    && v.JObject?
    && 0 <= i < |RequiredFields|
    && RequiredFields[i] !in v.fields
    && forall j :: 0 <= j < i ==> RequiredFields[j] in v.fields
  }

  /** `"name"`, the way a key is written in the prompt's JSON template. */
  function Quoted(name: string): string {
    "\"" + name + "\""
  }

  /** The pieces of the prompt's f-string, literal text and inserted values in order. */
  function PromptParts(topic: string, difficulty: string): seq<string> {
    [ "Generate a multiple-choice question about ", topic,
      " with difficulty level ", difficulty,
      ".\n    The response should be in JSON format with the following structure:\n    {\n        ",
      Quoted("question"), ": \"The question text\",\n        ",
      Quoted("options"), ": [\"Option A\", \"Option B\", \"Option C\", \"Option D\"],\n        ",
      Quoted("correctAnswer"), ": \"The correct option\",\n        ",
      Quoted("explanation"), ": \"A detailed explanation of why this is the correct answer\",\n        ",
      Quoted("difficulty"), ": \"", difficulty, "\",\n        ",
      Quoted("topic"), ": \"", topic,
      "\"\n    }\n\n    Make sure the question is challenging but appropriate for the ",
      difficulty,
      " difficulty level.\n    The explanation should be educational and help the user understand the concept better.\n    "
    ]
  }

  /** Where the topic, the difficulty and the quoted keys stand in the prompt's pieces. */
  lemma PromptPartsMention(parts: seq<string>, topic: string, difficulty: string)
    requires |parts| == 23 && parts[1] == topic && parts[3] == difficulty
    requires parts[5] == Quoted("question") && parts[7] == Quoted("options")
    requires parts[9] == Quoted("correctAnswer") && parts[11] == Quoted("explanation")
    requires parts[13] == Quoted("difficulty") && parts[17] == Quoted("topic")
    ensures Contains(Concat(parts), topic)
    ensures Contains(Concat(parts), difficulty)
    ensures forall f | f in RequiredFields :: Contains(Concat(parts), Quoted(f))
  {
    ConcatContainsPart(parts, 1);
    ConcatContainsPart(parts, 3);
    ConcatContainsPart(parts, 5);
    ConcatContainsPart(parts, 7);
    ConcatContainsPart(parts, 9);
    ConcatContainsPart(parts, 11);
    ConcatContainsPart(parts, 13);
    ConcatContainsPart(parts, 17);
  }

  /**
   * The request sent to the model. It names the topic and the difficulty
   * and spells out every required key of the expected JSON object.
   */
  function BuildPrompt(topic: string, difficulty: string): (prompt: string)
    ensures Contains(prompt, topic)
    ensures Contains(prompt, difficulty)
    ensures forall f | f in RequiredFields :: Contains(prompt, Quoted(f))
  {
    var parts := PromptParts(topic, difficulty);
    PromptPartsMention(parts, topic, difficulty);
    Concat(parts)
  }

  /** `c` is at index `i` of `text`, and nowhere before it. */
  predicate FirstAt(text: string, c: char, i: int) {
    0 <= i < |text| && text[i] == c && c !in text[..i]
  }

  /** `c` is at index `j` of `text`, and nowhere after it. */
  predicate LastAt(text: string, c: char, j: int) {
    0 <= j < |text| && text[j] == c && c !in text[j + 1..]
  }

  /**
   * The text from the first `{` through the last `}` of the reply: the
   * widest braced span, not the first balanced object. There is none when
   * either brace is missing; when the last `}` comes before the first `{`
   * the slice is empty.
   */
  function ExtractCandidate(text: string): (r: Option<string>)
    ensures r.None? <==> '{' !in text || '}' !in text
    ensures r.Some? && r.value != [] ==> r.value[0] == '{' && r.value[|r.value| - 1] == '}'
    ensures forall i, j | FirstAt(text, '{', i) && LastAt(text, '}', j) ::
      r == Some(if i < j then text[i..j + 1] else [])
  {
    var start := Find(text, '{');
    var end := RFind(text, '}') + 1;
    if start == -1 || end == 0 then None
    else
      var span := Slice(text, start, end);
      assert start < end ==> span == text[start..end];
      Some(span)
  }

  /**
   * The index of the first of `keys` that `obj` lacks, the order in which
   * the source's loop looks them up; `None` when all are present.
   */
  function FirstMissing(keys: seq<string>, obj: map<string, JsonValue>): (r: Option<nat>)
    ensures r.None? <==> forall j :: 0 <= j < |keys| ==> keys[j] in obj
    ensures r.Some? ==> r.value < |keys| && keys[r.value] !in obj
    ensures r.Some? ==> forall j :: 0 <= j < r.value ==> keys[j] in obj
  {
    if keys == [] then None
    else if keys[0] !in obj then Some(0)
    else
      match FirstMissing(keys[1..], obj)
      case None => None
      case Some(k) => Some(k + 1)
  }

  /**
   * The schema check. It accepts exactly the values `IsQuestion` describes
   * and returns them unchanged; otherwise it names the first check that
   * failed: the keys in the order of `RequiredFields`, then the option
   * count, then the membership of the answer.
   */
  function Validate(v: JsonValue): (r: Result<JsonValue, Failure>)
    ensures r.Success? <==> IsQuestion(v)
    ensures r.Success? ==> r.value == v
    ensures !v.JObject? ==> r == Failure(NotAnObject)
    ensures forall i | FirstMissingAt(v, i) :: r == Failure(MissingField(RequiredFields[i]))
    ensures v.JObject? && HasRequiredFields(v.fields) && !v.fields["options"].JArray? ==>
      r == Failure(OptionsNotAList)
    ensures v.JObject? && HasRequiredFields(v.fields) && v.fields["options"].JArray? &&
            |v.fields["options"].items| != 4 ==>
      r == Failure(WrongOptionCount)
    ensures v.JObject? && HasRequiredFields(v.fields) && v.fields["options"].JArray? &&
            |v.fields["options"].items| == 4 &&
            v.fields["correctAnswer"] !in v.fields["options"].items ==>
      r == Failure(AnswerNotInOptions)
  {
    if !v.JObject? then Failure(NotAnObject)
    else
      match FirstMissing(RequiredFields, v.fields)
      case Some(i) => Failure(MissingField(RequiredFields[i]))
      case None =>
        assert HasRequiredFields(v.fields);
        var options := v.fields["options"];
        if !options.JArray? then Failure(OptionsNotAList)
        else if |options.items| != 4 then Failure(WrongOptionCount)
        else if v.fields["correctAnswer"] !in options.items then Failure(AnswerNotInOptions)
        else Success(v)
  }

  /**
   * The placeholder question: it satisfies the schema, its options are the
   * four labels "Option A" to "Option D", its answer is "Option A", it
   * echoes the requested topic and difficulty, and its text names the topic.
   */
  function Fallback(topic: string, difficulty: string): (q: JsonValue)
    ensures IsQuestion(q)
    ensures q.fields["options"] == JArray(PlaceholderOptions)
    ensures q.fields["correctAnswer"] == JString("Option A")
    ensures q.fields["difficulty"] == JString(difficulty)
    ensures q.fields["topic"] == JString(topic)
    ensures q.fields["question"].JString? && Contains(q.fields["question"].s, topic)
  {
    var prefix := "Sample question about ";
    assert OccursAt(prefix + topic, topic, |prefix|);
    JObject(map[
      "question" := JString(prefix + topic),
      "options" := JArray(PlaceholderOptions),
      "correctAnswer" := JString("Option A"),
      "explanation" := JString("This is a fallback question. Please try again."),
      "difficulty" := JString(difficulty),
      "topic" := JString(topic)
    ])
  }

  /**
   * The `try` block, given what the model call produced for the prompt:
   * cut out the braced span, decode it and check it. A success is the
   * object decoded from the reply, exactly as decoded, and it satisfies the
   * schema.
   */
  function Attempt(reply: Option<string>, parse: Parser): (r: Result<JsonValue, Failure>)
    ensures r.Success? ==> IsQuestion(r.value)
    ensures r.Success? ==>
      && reply.Some?
      && ExtractCandidate(reply.value).Some?
      && parse(ExtractCandidate(reply.value).value) == Some(r.value)
  {
    match reply
    case None => Failure(BackendError)
    case Some(text) =>
      match ExtractCandidate(text)
      case None => Failure(NoJsonObject)
      case Some(candidate) =>
        match parse(candidate)
        case None => Failure(InvalidJson)
        case Some(v) => Validate(v)
  }

  /**
   * The function's outcome for a given reply: never a failure, and whatever
   * the reply and the decoder, a value satisfying the schema. It is the
   * model's object when the attempt succeeds and the fallback question
   * when any step of it fails.
   */
  function Respond(topic: string, difficulty: string, reply: Option<string>, parse: Parser): (q: JsonValue)
    ensures IsQuestion(q)
    ensures Attempt(reply, parse).Success? ==> q == Attempt(reply, parse).value
    ensures Attempt(reply, parse).Failure? ==> q == Fallback(topic, difficulty)
  {
    match Attempt(reply, parse)
    case Success(v) => v
    case Failure(_) => Fallback(topic, difficulty)
  }

  /**
   * `generate_question_with_mistral`: send the prompt for `topic` and
   * `difficulty` to the model and respond to its reply. Total: whatever
   * the model and the decoder do, the result satisfies the schema. It is
   * the object decoded from the reply when that passes every check, and
   * the fallback question otherwise.
   */
  function GenerateQuestion(topic: string, difficulty: string,
                            chat: string -> Option<string>, parse: Parser): (q: JsonValue)
    ensures IsQuestion(q)
    ensures Attempt(chat(BuildPrompt(topic, difficulty)), parse).Success? ==>
            q == Attempt(chat(BuildPrompt(topic, difficulty)), parse).value
    ensures Attempt(chat(BuildPrompt(topic, difficulty)), parse).Failure? ==>
            q == Fallback(topic, difficulty)
  {
    Respond(topic, difficulty, chat(BuildPrompt(topic, difficulty)), parse)
  }
}

/**
 * What `generate_question_with_mistral` guarantees across its steps: which
 * replies end in the fallback question, which text is cut out of a reply,
 * and that an accepted object comes back untouched.
 */
module PipelineProperties {
  import opened Wrappers
  import opened Json
  import opened PyStr
  import opened QuestionGenerator

  /** When the model call raises, the caller gets the fallback question. */
  lemma BackendErrorFallsBack(topic: string, difficulty: string, parse: Parser)
    ensures Attempt(None, parse) == Failure(BackendError)
    ensures Respond(topic, difficulty, None, parse) == Fallback(topic, difficulty)
  {
  }

  /** A reply without a `{` or without a `}` yields no candidate, hence the fallback. */
  lemma NoBraceFallsBack(topic: string, difficulty: string, text: string, parse: Parser)
    requires '{' !in text || '}' !in text
    ensures ExtractCandidate(text) == None
    ensures Respond(topic, difficulty, Some(text), parse) == Fallback(topic, difficulty)
  {
  }

  /**
   * When every `}` of the reply comes before every `{`, the slice is empty;
   * `json.loads` refuses the empty text, so the caller gets the fallback.
   */
  lemma InvertedBracesFallBack(topic: string, difficulty: string, text: string, parse: Parser)
    requires RejectsEmptyText(parse)
    requires '{' in text && '}' in text
    requires forall i, j :: 0 <= i < |text| && 0 <= j < |text| && text[i] == '{' && text[j] == '}' ==> j < i
    ensures ExtractCandidate(text) == Some([])
    ensures Attempt(Some(text), parse) == Failure(InvalidJson)
    ensures Respond(topic, difficulty, Some(text), parse) == Fallback(topic, difficulty)
  {
  }

  /** A reply that is one braced text from its first to its last character is taken whole. */
  lemma WholeReplyIsCandidate(text: string)
    requires 0 < |text| && text[0] == '{' && text[|text| - 1] == '}'
    ensures ExtractCandidate(text) == Some(text)
  {
    var last := |text| - 1;
    assert FirstAt(text, '{', 0);
    assert text[last + 1..] == [];
    assert LastAt(text, '}', last);
    assert text[0..last + 1] == text;
  }

  /**
   * The widest span is taken, not the first balanced object: two objects in
   * one reply are cut out together with the prose between them.
   */
  lemma WidestSpanTaken()
    ensures ExtractCandidate("noise {\"a\":1} more {\"b\":2} noise")
         == Some("{\"a\":1} more {\"b\":2}")
  {
    var text := "noise {\"a\":1} more {\"b\":2} noise";
    var span := "{\"a\":1} more {\"b\":2}";
    assert text == "noise " + span + " noise";
    assert text[..6] == "noise ";
    assert FirstAt(text, '{', 6);
    assert text[26..] == " noise";
    assert LastAt(text, '}', 25);
    assert text[6..26] == span;
  }

  /**
   * The key check comes first: an object lacking the required key number
   * `k` is rejected for a missing key (that one, or one checked before it),
   * whatever its options are.
   */
  lemma MissingKeyRejectedFirst(v: JsonValue, k: nat)
    requires v.JObject? && k < |RequiredFields| && RequiredFields[k] !in v.fields
    ensures exists i :: 0 <= i <= k && Validate(v) == Failure(MissingField(RequiredFields[i]))
  {
  }

  /** A decoded object that passes every check is what the caller gets, unchanged. */
  lemma AcceptedObjectReturnedUnchanged(topic: string, difficulty: string, text: string,
                                        parse: Parser, v: JsonValue)
    requires ExtractCandidate(text).Some? && parse(ExtractCandidate(text).value) == Some(v)
    requires IsQuestion(v)
    ensures Respond(topic, difficulty, Some(text), parse) == v
  {
  }

  /**
   * The requested topic and difficulty are not imposed on an accepted
   * object: the caller gets the object's own `topic` and `difficulty`,
   * whatever was asked for.
   */
  lemma RequestedTopicNotImposed(topic: string, difficulty: string, text: string,
                                 parse: Parser, v: JsonValue)
    requires ExtractCandidate(text).Some? && parse(ExtractCandidate(text).value) == Some(v)
    requires IsQuestion(v)
    ensures var q := Respond(topic, difficulty, Some(text), parse);
      q.JObject? && q.fields["topic"] == v.fields["topic"] && q.fields["difficulty"] == v.fields["difficulty"]
  {
  }

  /**
   * An end-to-end instance: a reply that is one braced object, decoded into
   * a valid question about "Math" at "Easy", comes back about "Math" at
   * "Easy" when "Photosynthesis" at "Hard" was asked for.
   */
  lemma MathQuestionKeptForPhotosynthesisRequest(text: string, parse: Parser)
    requires 0 < |text| && text[0] == '{' && text[|text| - 1] == '}'
    requires parse(text) == Some(JObject(map[
               "question" := JString("Q"),
               "options" := JArray([JString("A"), JString("B"), JString("C"), JString("D")]),
               "correctAnswer" := JString("B"),
               "explanation" := JString("E"),
               "difficulty" := JString("Easy"),
               "topic" := JString("Math")]))
    ensures var q := Respond("Photosynthesis", "Hard", Some(text), parse);
      q == parse(text).value && q.fields["topic"] == JString("Math") && q.fields["difficulty"] == JString("Easy")
  {
    WholeReplyIsCandidate(text);
  }

  /**
   * With a decoder that behaves as `json.loads` does on braced and on empty
   * text, the "not an object" rejection never happens: every candidate is
   * either refused by the decoder or decoded into an object.
   */
  lemma CandidateNeverNonObject(reply: Option<string>, parse: Parser)
    requires RejectsEmptyText(parse) && BracedTextIsObject(parse)
    ensures Attempt(reply, parse) != Failure(NotAnObject)
  {
  }
}

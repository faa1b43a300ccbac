/**
 * The question-generation route (routes/questions.py): the model is asked for
 * `total` questions, the JSON array is cut out of its reply, cleaned and
 * parsed, and the list is cut to `total` with Python's slice `[:total]`. The
 * HTTP call is the parameter `model` and the JSON parser the parameter `parse`.
 */
module QuestionsRoute {
  import opened Wrappers
  import opened Text
  import opened JsonClean

  /** The `/api/generate-questions` body; `total` is already the `int(...)` of what was sent. */
  datatype QuestionsRequest = QuestionsRequest(field: Option<string>, level: Option<string>, total: Option<int>)

  /** What the model is asked for. */
  datatype QuestionsPrompt = QuestionsPrompt(field: string, level: string, total: int)

  function PromptOf(req: QuestionsRequest): (p: QuestionsPrompt)
    ensures p.total == req.total.GetOr(5)
    ensures p.field == req.field.GetOr("Software Engineering") && p.level == req.level.GetOr("Intermediate")
  {
    QuestionsPrompt(req.field.GetOr("Software Engineering"), req.level.GetOr("Intermediate"), req.total.GetOr(5))
  }

  /** Python's `xs[:n]`: a negative `n` counts from the end. */
  function Prefix<T>(xs: seq<T>, n: int): (r: seq<T>)
    ensures |r| <= |xs| && r == xs[..|r|]
    ensures n >= 0 ==> |r| == if n < |xs| then n else |xs|
    ensures n < 0 ==> |r| == if |xs| + n > 0 then |xs| + n else 0
  {
    if n >= 0 then (if n < |xs| then xs[..n] else xs)
    else if |xs| + n > 0 then xs[..|xs| + n] else []
  }

  /** Cutting to `total` and cutting again changes nothing. */
  lemma PrefixIdempotent<T>(xs: seq<T>, n: int)
    requires n >= 0
    ensures Prefix(Prefix(xs, n), n) == Prefix(xs, n)
  {
  }

  /** The questions in a reply text: the bracketed array cut out, cleaned and parsed. */
  function ParsedQuestions(response: string, parse: string -> Option<seq<string>>): (r: Option<seq<string>>)
    ensures Extract(PyStrip(response), '[', ']').None? ==> r.None?
    ensures Extract(PyStrip(response), '[', ']').Some? ==>
      r == parse(Clean(Extract(PyStrip(response), '[', ']').value))
    ensures r.Some? ==>
      var j := Extract(PyStrip(response), '[', ']');
      j.Some? && parse(Clean(j.value)) == r
  {
    var j := Extract(PyStrip(response), '[', ']');
    if j.None? then None else parse(Clean(j.value))
  }

  /**
   * `generate_questions`: 503 when the model is unreachable, 500 for any other
   * failure, a reply without a bracketed array, or one that does not parse;
   * otherwise the parsed questions cut to `total` (Python's `[:total]`): no
   * more than `total`, and all of them when there are no more than `total`.
   */
  function GenerateQuestions(req: QuestionsRequest, model: QuestionsPrompt -> ModelReply,
                             parse: string -> Option<seq<string>>): (out: RouteReply<seq<string>>)
    ensures model(PromptOf(req)).ConnectionRefused? <==> out == Status(503)
    ensures !out.Served? && !model(PromptOf(req)).ConnectionRefused? ==> out == Status(500)
    ensures out.Served? <==>
      model(PromptOf(req)).Replied? && ParsedQuestions(model(PromptOf(req)).response, parse).Some?
    ensures out.Served? ==>
      var parsed := ParsedQuestions(model(PromptOf(req)).response, parse).value;
      var total := req.total.GetOr(5);
      && out.body == Prefix(parsed, total)
      && (total >= 0 ==> |out.body| <= total)
      && (total >= |parsed| ==> out.body == parsed)
  {
    var reply := model(PromptOf(req));
    if !reply.Replied? then Status(TransportStatus(reply))
    else
      var parsed := ParsedQuestions(reply.response, parse);
      if parsed.None? then Status(500)
      else Served(Prefix(parsed.value, req.total.GetOr(5)))
  }
}

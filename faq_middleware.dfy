/** The FAQ middleware's `transformParams`: a chain of guards that either puts
    the prompt back as it was or rewrites its last user message, prefixing the
    best-matching FAQ when its similarity exceeds the threshold. The single,
    process-wide embedding cache slot is a field of the `Middleware`
    object; the caller's prompt array is a `Prompt` object that the method
    pops from and pushes to. The classifier, the embedder and cosine
    similarity are parameters (oracles). */
module FaqMiddleware {
  import opened Wrappers
  import opened FaqText
  import opened FaqRanking

  datatype Role = System | User | Assistant | Tool

  /** A prompt message: its role and its content parts. */
  datatype Message = Message(role: Role, content: seq<Part>)

  /** The labels the classifier may answer with. */
  datatype Label = Question | Other

  /** A call made to an external provider, recorded in the order it was made. */
  datatype ProviderCall = Classify(text: string) | Embed(value: string)

  /** The cache slot: the embedded FAQ list and the FAQ list it was built from
      (the source keys it by that list's JSON serialisation, which is equal
      for equal lists of string records). */
  datatype CacheSlot = CacheSlot(list: seq<EmbeddedFaq>, originalFaqs: seq<Faq>)

  /** The similarity a FAQ must strictly exceed to be injected. */
  const SimilarityThreshold: real := 0.7

  /** The fixed text before the question and after the answer in `Preamble`. */
  const PreambleIntro: string := "Here is a potentially relevant FAQ that might help answer the user's question:\n\nQ: "
  const PreambleOutro: string := "\n\n---\n\nUser's question:"

  /** The synthesised text part that introduces the matched FAQ: the fixed
      introduction, the question, an answer line, and the closing marker
      before the user's own parts. It is never blank. */
  function Preamble(question: string, answer: string): (p: string)
    ensures |p| == |PreambleIntro| + |question| + 4 + |answer| + |PreambleOutro|
    ensures p[..|PreambleIntro|] == PreambleIntro
    ensures p[|PreambleIntro|..|PreambleIntro| + |question|] == question
    ensures p[|PreambleIntro| + |question|..|PreambleIntro| + |question| + 4] == "\nA: "
    ensures p[|p| - |PreambleOutro| - |answer|..|p| - |PreambleOutro|] == answer
    ensures p[|p| - |PreambleOutro|..] == PreambleOutro
    ensures !AllSpace(p)
  {
    var p := PreambleIntro + question + "\nA: " + answer + PreambleOutro;
    assert p[|p| - 1] == PreambleOutro[|PreambleOutro| - 1] == ':';
    p
  }

  /** The rewritten user message: a user message whose first part is the FAQ
      preamble, followed by every original part in order. */
  function AugmentedMessage(recent: Message, question: string, answer: string): (m: Message)
    ensures m.role == User && |m.content| == |recent.content| + 1
    ensures m.content[0] == TextPart(Preamble(question, answer)) && m.content[1..] == recent.content
  {
    Message(User, [TextPart(Preamble(question, answer))] + recent.content)
  }

  /** An embedded list lines up 1:1 with a FAQ list. */
  predicate Aligned(list: seq<EmbeddedFaq>, faqs: seq<Faq>) {
    |list| == |faqs| &&
    forall i :: 0 <= i < |list| ==> list[i].question == faqs[i].question && list[i].answer == faqs[i].answer
  }

  /** The cache slot invariant: an occupied slot holds a non-empty list that
      lines up with its key. */
  predicate SlotValid(slot: Option<CacheSlot>) {
    slot.Some? ==> |slot.value.originalFaqs| > 0 && Aligned(slot.value.list, slot.value.originalFaqs)
  }

  /** The slot may be reused for `faqs`. */
  predicate IsHit(slot: Option<CacheSlot>, faqs: seq<Faq>) {
    slot.Some? && slot.value.originalFaqs == faqs
  }

  /** The embedding calls of a cache refresh: one per FAQ question, in list order. */
  function QuestionCalls(faqs: seq<Faq>): (calls: seq<ProviderCall>)
    ensures |calls| == |faqs|
    ensures forall i :: 0 <= i < |faqs| ==> calls[i] == Embed(faqs[i].question)
  {
    seq(|faqs|, i requires 0 <= i < |faqs| => Embed(faqs[i].question))
  }

  /** `Promise.all(providedFaqs.map(...))`: every question embedded, each FAQ
      keeping its question and answer, in list order; the refresh fails with
      the error of the first failing question. */
  function EmbedAll(faqs: seq<Faq>, embed: string -> Result<Vector>): (r: Result<seq<EmbeddedFaq>>)
    ensures r.Success? <==> forall i :: 0 <= i < |faqs| ==> embed(faqs[i].question).Success?
    ensures r.Success? ==> Aligned(r.value, faqs)
    ensures r.Success? ==> forall i :: 0 <= i < |faqs| ==> r.value[i].embedding == embed(faqs[i].question).value
    ensures r.Failure? ==> exists i :: 0 <= i < |faqs| && embed(faqs[i].question) == Failure(r.error)
  {
    if faqs == [] then Success([])
    else
      assert forall i :: 1 <= i < |faqs| ==> faqs[i] == faqs[1..][i - 1];
      match embed(faqs[0].question)
      case Failure(e) => Failure(e)
      case Success(v) =>
        match EmbedAll(faqs[1..], embed)
        case Failure(e) =>
          var i :| 0 <= i < |faqs[1..]| && embed(faqs[1..][i].question) == Failure(e);
          assert embed(faqs[i + 1].question) == Failure(e);
          Failure(e)
        case Success(rest) => Success([EmbeddedFaq(faqs[0].question, faqs[0].answer, v)] + rest)
  }

  /** How the FAQ embeddings were obtained: the list (or the refresh's
      failure), the slot afterwards, and the embedding calls made. */
  datatype Resolution = Resolution(list: Result<seq<EmbeddedFaq>>, slot: Option<CacheSlot>, calls: seq<ProviderCall>)

  /** Cache lookup and refresh: reuse the slot when its key is `faqs`,
      otherwise embed every question and replace the slot, but only once every
      embedding has succeeded. */
  function Resolve(slot: Option<CacheSlot>, faqs: seq<Faq>, embed: string -> Result<Vector>): (r: Resolution)
    ensures IsHit(slot, faqs) ==> r.calls == [] && r.slot == slot && r.list == Success(slot.value.list)
    ensures !IsHit(slot, faqs) ==> r.calls == QuestionCalls(faqs)
    ensures !IsHit(slot, faqs) && r.list.Success? ==>
              r.slot == Some(CacheSlot(r.list.value, faqs)) && Aligned(r.list.value, faqs)
    ensures r.list.Failure? ==> r.slot == slot
  {
    if IsHit(slot, faqs) then Resolution(Success(slot.value.list), slot, [])
    else
      var embedded := EmbedAll(faqs, embed);
      Resolution(embedded, if embedded.Success? then Some(CacheSlot(embedded.value, faqs)) else slot,
                 QuestionCalls(faqs))
  }

  /** `faqsWithSimilarity[0]` after the sort, taken from its reference
      definition: the first entry of maximal similarity, if there is one. */
  function Best(scored: seq<ScoredFaq>): (best: Option<ScoredFaq>)
    ensures best.Some? <==> |scored| > 0
    ensures best.Some? ==>
              best.value in scored && forall s :: s in scored ==> s.similarity <= best.value.similarity
  {
    if |scored| == 0 then None else Some(scored[FirstBest(scored)])
  }

  /** The message pushed back after ranking: the augmented message when the
      best similarity strictly exceeds the threshold, otherwise the original. */
  function Rewrite(recent: Message, best: Option<ScoredFaq>): (m: Message)
    ensures best.Some? && best.value.similarity > SimilarityThreshold ==>
              m == AugmentedMessage(recent, best.value.question, best.value.answer)
    ensures !(best.Some? && best.value.similarity > SimilarityThreshold) ==> m == recent
  {
    if best.Some? && best.value.similarity > SimilarityThreshold
    then AugmentedMessage(recent, best.value.question, best.value.answer)
    else recent
  }

  /** Everything one call of `transformParams` leaves behind: the prompt, the
      cache slot, the provider calls made, and the error it threw, if any. */
  datatype Run = Run(messages: seq<Message>, slot: Option<CacheSlot>, calls: seq<ProviderCall>, failure: Option<Error>)

  /** The whole middleware as a function of the prompt, the parsed FAQ list
      (`None` when the metadata does not parse), the cache slot and the three
      oracles. */
  function Augment(messages: seq<Message>, faqs: Option<seq<Faq>>, slot: Option<CacheSlot>,
                   classify: string -> Result<Label>, embed: string -> Result<Vector>,
                   similarity: (Vector, Vector) -> real): (run: Run)
    ensures run.failure.None? ==> |run.messages| == |messages|
    ensures run.failure.None? && messages != [] ==>
              run.messages[..|messages| - 1] == messages[..|messages| - 1]
    ensures run.failure.Some? ==> messages != [] && run.messages == messages[..|messages| - 1]
    ensures SlotValid(slot) ==> SlotValid(run.slot)
  {
    if faqs.None? || |faqs.value| == 0 || |messages| == 0 then Run(messages, slot, [], None)
    else
      var rest, recent := messages[..|messages| - 1], messages[|messages| - 1];
      assert messages == rest + [recent];
      if recent.role != User then Run(rest + [recent], slot, [], None)
      else AugmentUserMessage(rest, recent, faqs.value, slot, classify, embed, similarity)
  }

  /** The part of `Augment` after the most recent message was found to be a
      user message: text guard, classification, query embedding, cache,
      ranking and threshold. */
  function AugmentUserMessage(rest: seq<Message>, recent: Message, faqs: seq<Faq>, slot: Option<CacheSlot>,
                              classify: string -> Result<Label>, embed: string -> Result<Vector>,
                              similarity: (Vector, Vector) -> real): (run: Run)
    requires |faqs| > 0
    ensures run.failure.None? ==> |run.messages| == |rest| + 1 && run.messages[..|rest|] == rest
    ensures run.failure.Some? ==> run.messages == rest
    ensures SlotValid(slot) ==> SlotValid(run.slot)
  {
    var text := ExtractText(recent.content);
    if Trim(text) == [] then Run(rest + [recent], slot, [], None)
    else
      match classify(text)
      case Failure(e) => Run(rest, slot, [Classify(text)], Some(e))
      case Success(verdict) =>
        if verdict != Question then Run(rest + [recent], slot, [Classify(text)], None)
        else
          var run := AugmentQuestion(rest, recent, text, faqs, slot, embed, similarity);
          Run(run.messages, run.slot, [Classify(text)] + run.calls, run.failure)
  }

  /** The part of `Augment` after the text was classified as a question:
      query embedding, cache, ranking and threshold. */
  function AugmentQuestion(rest: seq<Message>, recent: Message, text: string, faqs: seq<Faq>,
                          slot: Option<CacheSlot>, embed: string -> Result<Vector>,
                          similarity: (Vector, Vector) -> real): (run: Run)
    requires |faqs| > 0
    ensures run.failure.None? ==> |run.messages| == |rest| + 1 && run.messages[..|rest|] == rest
    ensures run.failure.Some? ==> run.messages == rest
    ensures SlotValid(slot) ==> SlotValid(run.slot)
  {
    match embed(text)
    case Failure(e) => Run(rest, slot, [Embed(text)], Some(e))
    case Success(query) =>
      var res := Resolve(slot, faqs, embed);
      var calls := [Embed(text)] + res.calls;
      match res.list
      case Failure(e) => Run(rest, res.slot, calls, Some(e))
      case Success(list) =>
        Run(rest + [Rewrite(recent, Best(Score(list, query, similarity)))], res.slot, calls, None)
  }

  /** The caller's prompt array, which the middleware changes in place. */
  class Prompt {
    var messages: seq<Message>

    constructor (messages: seq<Message>)
      ensures this.messages == messages
    {
      this.messages := messages;
    }

    /** `Array.prototype.pop`: removes and returns the last message, or
        returns nothing for an empty prompt. */
    method Pop() returns (last: Option<Message>)
      modifies this
      ensures old(messages) == [] ==> last.None? && messages == []
      ensures old(messages) != [] ==>
                last == Some(old(messages)[|old(messages)| - 1]) &&
                messages == old(messages)[..|old(messages)| - 1]
    {
      if messages == [] {
        last := None;
      } else {
        last := Some(messages[|messages| - 1]);
        messages := messages[..|messages| - 1];
      }
    }

    /** `Array.prototype.push` of one message. */
    method Push(m: Message)
      modifies this
      ensures messages == old(messages) + [m]
    {
      messages := messages + [m];
    }
  }

  /** The middleware module's state: the single cache slot `cachedFaqEmbeddings`. */
  class Middleware {
    var cachedFaqEmbeddings: Option<CacheSlot>

    ghost predicate Valid()
      reads this
    {
      SlotValid(cachedFaqEmbeddings)
    }

    /** The module starts with an empty slot. */
    constructor ()
      ensures Valid() && cachedFaqEmbeddings == None
    {
      cachedFaqEmbeddings := None;
    }

    /** `transformParams`: changes the prompt and the cache slot exactly as
        `Augment` says, and returns the error it throws (if any) and the
        provider calls it made. */
    method TransformParams(prompt: Prompt, faqs: Option<seq<Faq>>,
                           classify: string -> Result<Label>, embed: string -> Result<Vector>,
                           similarity: (Vector, Vector) -> real)
      returns (failure: Option<Error>, calls: seq<ProviderCall>)
      requires Valid()
      modifies this, prompt
      ensures Valid()
      ensures var run := Augment(old(prompt.messages), faqs, old(cachedFaqEmbeddings), classify, embed, similarity);
              prompt.messages == run.messages && cachedFaqEmbeddings == run.slot &&
              calls == run.calls && failure == run.failure
    {
      if faqs.None? || |faqs.value| == 0 {
        return None, [];
      }
      var providedFaqs := faqs.value;

      var recentMessage := prompt.Pop();
      if recentMessage.None? || recentMessage.value.role != User {
        if recentMessage.Some? {
          prompt.Push(recentMessage.value);
        }
        return None, [];
      }
      var recent := recentMessage.value;
      failure, calls := TransformUserMessage(prompt, recent, providedFaqs, classify, embed, similarity);
    }

    /** The steps of `transformParams` after the popped message was found to
        be a user message (`rest` is the prompt without it). */
    method TransformUserMessage(prompt: Prompt, recent: Message, providedFaqs: seq<Faq>,
                         classify: string -> Result<Label>, embed: string -> Result<Vector>,
                         similarity: (Vector, Vector) -> real)
      returns (failure: Option<Error>, calls: seq<ProviderCall>)
      requires Valid() && |providedFaqs| > 0
      modifies this, prompt
      ensures Valid()
      ensures var run := AugmentUserMessage(old(prompt.messages), recent, providedFaqs, old(cachedFaqEmbeddings),
                                            classify, embed, similarity);
              prompt.messages == run.messages && cachedFaqEmbeddings == run.slot &&
              calls == run.calls && failure == run.failure
    {
      var text := ExtractText(recent.content);
      if Trim(text) == [] {
        prompt.Push(recent);
        return None, [];
      }

      calls := [Classify(text)];
      var classification := classify(text);
      if classification.Failure? {
        return Some(classification.error), calls;
      }
      if classification.value != Question {
        prompt.Push(recent);
        return None, calls;
      }

      var answerCalls;
      failure, answerCalls := TransformQuestion(prompt, recent, text, providedFaqs, embed, similarity);
      calls := calls + answerCalls;
    }

    /** The steps of `transformParams` after the text was classified as a
        question. */
    method TransformQuestion(prompt: Prompt, recent: Message, text: string, providedFaqs: seq<Faq>,
                          embed: string -> Result<Vector>, similarity: (Vector, Vector) -> real)
      returns (failure: Option<Error>, calls: seq<ProviderCall>)
      requires Valid() && |providedFaqs| > 0
      modifies this, prompt
      ensures Valid()
      ensures var run := AugmentQuestion(old(prompt.messages), recent, text, providedFaqs, old(cachedFaqEmbeddings),
                                        embed, similarity);
              prompt.messages == run.messages && cachedFaqEmbeddings == run.slot &&
              calls == run.calls && failure == run.failure
    {
      calls := [Embed(text)];
      var userQuestionEmbedding := embed(text);
      if userQuestionEmbedding.Failure? {
        return Some(userQuestionEmbedding.error), calls;
      }

      var faqEmbeddings, refreshCalls := ResolveEmbeddings(providedFaqs, embed);
      calls := calls + refreshCalls;
      if faqEmbeddings.Failure? {
        return Some(faqEmbeddings.error), calls;
      }
      PushBestMatch(prompt, recent, faqEmbeddings.value, userQuestionEmbedding.value, similarity);
      failure := None;
    }

    /** The cache lookup/refresh step: reads the slot and, on a miss, embeds
        every question and replaces the slot once all embeddings succeeded. */
    method ResolveEmbeddings(providedFaqs: seq<Faq>, embed: string -> Result<Vector>)
      returns (faqEmbeddings: Result<seq<EmbeddedFaq>>, refreshCalls: seq<ProviderCall>)
      requires Valid() && |providedFaqs| > 0
      modifies this
      ensures Valid()
      ensures var res := Resolve(old(cachedFaqEmbeddings), providedFaqs, embed);
              faqEmbeddings == res.list && cachedFaqEmbeddings == res.slot && refreshCalls == res.calls
    {
      if IsHit(cachedFaqEmbeddings, providedFaqs) {
        return Success(cachedFaqEmbeddings.value.list), [];
      }
      refreshCalls := QuestionCalls(providedFaqs);
      faqEmbeddings := EmbedAll(providedFaqs, embed);
      if faqEmbeddings.Success? {
        cachedFaqEmbeddings := Some(CacheSlot(faqEmbeddings.value, providedFaqs));
      }
    }
  }

  /** The scoring, sorting and threshold step: scores every FAQ, sorts the
      scores in place, and pushes the augmented message when the first
      (best) score exceeds the threshold, otherwise the original message. */
  method PushBestMatch(prompt: Prompt, recent: Message, faqEmbeddings: seq<EmbeddedFaq>,
                       userQuestionEmbedding: Vector, similarity: (Vector, Vector) -> real)
    modifies prompt
    ensures prompt.messages ==
              old(prompt.messages) + [Rewrite(recent, Best(Score(faqEmbeddings, userQuestionEmbedding, similarity)))]
  {
    var scored := Score(faqEmbeddings, userQuestionEmbedding, similarity);
    var faqsWithSimilarity := new ScoredFaq[|scored|](i requires 0 <= i < |scored| => scored[i]);
    assert faqsWithSimilarity[..] == scored;
    ghost var perm := SortBySimilarity(faqsWithSimilarity);
    if faqsWithSimilarity.Length > 0 {
      SortedHeadIsFirstBest(scored, faqsWithSimilarity[..], perm);
    }

    if faqsWithSimilarity.Length > 0 && faqsWithSimilarity[0].similarity > SimilarityThreshold {
      var bestFaq := faqsWithSimilarity[0];
      prompt.Push(AugmentedMessage(recent, bestFaq.question, bestFaq.answer));
    } else {
      prompt.Push(recent);
    }
  }
}

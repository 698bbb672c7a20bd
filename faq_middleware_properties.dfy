/** What `transformParams` promises, stated over its specification `Augment`:
    which guard leaves the prompt as it was, which provider calls each path
    makes, how the cache slot is read and replaced, and what the prompt holds
    when the middleware returns. `TransformParams` is proved to do exactly
    what `Augment` says, so each lemma holds of the method too. */
module FaqMiddlewareProperties {
  import opened Wrappers
  import opened FaqText
  import opened FaqRanking
  import opened FaqMiddleware

  /** The prompt ends with a user message and the FAQ list is non-empty: the
      guards of the first two steps let the request through. */
  predicate UserTurn(messages: seq<Message>, faqs: Option<seq<Faq>>) {
    faqs.Some? && |faqs.value| > 0 && |messages| > 0 && messages[|messages| - 1].role == User
  }

  /** The most recent message. */
  function Last(messages: seq<Message>): (m: Message)
    requires |messages| > 0
  {
    messages[|messages| - 1]
  }

  /** The prompt a returning call leaves: the original `messages`, or the
      original with its last message prefixed with one of the supplied FAQs. */
  predicate ReturnedShape(messages: seq<Message>, faqs: seq<Faq>, returned: seq<Message>)
    requires |messages| > 0
  {
    returned == messages ||
    exists i :: 0 <= i < |faqs| &&
      returned == messages[..|messages| - 1] +
        [AugmentedMessage(Last(messages), faqs[i].question, faqs[i].answer)]
  }

  /** Without a parsed, non-empty FAQ list the params come back as they were,
      no provider is called and the slot is untouched. */
  lemma NoFaqsLeavesPrompt(messages: seq<Message>, faqs: Option<seq<Faq>>, slot: Option<CacheSlot>,
                           classify: string -> Result<Label>, embed: string -> Result<Vector>,
                           similarity: (Vector, Vector) -> real)
    requires faqs.None? || faqs.value == []
    ensures Augment(messages, faqs, slot, classify, embed, similarity) == Run(messages, slot, [], None)
  {
  }

  /** An empty prompt, or one whose last message is not from the user, is put
      back exactly as it was, with no provider call. */
  lemma NoUserMessageLeavesPrompt(messages: seq<Message>, faqs: Option<seq<Faq>>, slot: Option<CacheSlot>,
                                  classify: string -> Result<Label>, embed: string -> Result<Vector>,
                                  similarity: (Vector, Vector) -> real)
    requires messages == [] || Last(messages).role != User
    ensures Augment(messages, faqs, slot, classify, embed, similarity) == Run(messages, slot, [], None)
  {
    if faqs.Some? && |faqs.value| > 0 && messages != [] {
      assert messages[..|messages| - 1] + [Last(messages)] == messages;
    }
  }

  /** A user message whose text parts are all blank (or that has none) is put
      back exactly as it was, with no provider call. */
  lemma BlankMessageLeavesPrompt(messages: seq<Message>, faqs: Option<seq<Faq>>, slot: Option<CacheSlot>,
                                 classify: string -> Result<Label>, embed: string -> Result<Vector>,
                                 similarity: (Vector, Vector) -> real)
    requires UserTurn(messages, faqs)
    requires Blank(Last(messages).content)
    ensures Augment(messages, faqs, slot, classify, embed, similarity) == Run(messages, slot, [], None)
  {
    assert messages[..|messages| - 1] + [Last(messages)] == messages;
  }

  /** Text that is not classified as a question puts the message back: the
      classifier is the only provider called and the slot is untouched. */
  lemma NonQuestionLeavesPrompt(messages: seq<Message>, faqs: Option<seq<Faq>>, slot: Option<CacheSlot>,
                                classify: string -> Result<Label>, embed: string -> Result<Vector>,
                                similarity: (Vector, Vector) -> real)
    requires UserTurn(messages, faqs)
    requires Trim(ExtractText(Last(messages).content)) != []
    requires classify(ExtractText(Last(messages).content)) == Success(Other)
    ensures Augment(messages, faqs, slot, classify, embed, similarity) ==
              Run(messages, slot, [Classify(ExtractText(Last(messages).content))], None)
  {
    assert messages[..|messages| - 1] + [Last(messages)] == messages;
  }

  /** A failing provider call propagates: the last message stays popped and
      the cache slot is not written. */
  lemma FailureLeavesSlotAndDropsMessage(messages: seq<Message>, faqs: Option<seq<Faq>>, slot: Option<CacheSlot>,
                                         classify: string -> Result<Label>, embed: string -> Result<Vector>,
                                         similarity: (Vector, Vector) -> real)
    requires Augment(messages, faqs, slot, classify, embed, similarity).failure.Some?
    ensures UserTurn(messages, faqs)
    ensures Augment(messages, faqs, slot, classify, embed, similarity).messages == messages[..|messages| - 1]
    ensures Augment(messages, faqs, slot, classify, embed, similarity).slot == slot
  {
  }

  /** Cache hit: the cached list is ranked, no FAQ is embedded (the only
      embedding is the query's) and the slot is not written. */
  lemma CacheHitReusesSlot(messages: seq<Message>, faqs: Option<seq<Faq>>, slot: Option<CacheSlot>,
                           classify: string -> Result<Label>, embed: string -> Result<Vector>,
                           similarity: (Vector, Vector) -> real)
    requires UserTurn(messages, faqs)
    requires Trim(ExtractText(Last(messages).content)) != []
    requires classify(ExtractText(Last(messages).content)) == Success(Question)
    requires embed(ExtractText(Last(messages).content)).Success?
    requires IsHit(slot, faqs.value)
    ensures var text := ExtractText(Last(messages).content);
            var run := Augment(messages, faqs, slot, classify, embed, similarity);
            run.slot == slot && run.failure.None? && run.calls == [Classify(text), Embed(text)] &&
            run.messages == messages[..|messages| - 1] +
              [Rewrite(Last(messages), Best(Score(slot.value.list, embed(text).value, similarity)))]
  {
  }

  /** On a user turn, `Augment` pops the last message and hands it to the
      user-message step. */
  lemma UserTurnUnfolds(messages: seq<Message>, faqs: Option<seq<Faq>>, slot: Option<CacheSlot>,
                        classify: string -> Result<Label>, embed: string -> Result<Vector>,
                        similarity: (Vector, Vector) -> real)
    requires UserTurn(messages, faqs)
    ensures Augment(messages, faqs, slot, classify, embed, similarity) ==
              AugmentUserMessage(messages[..|messages| - 1], Last(messages), faqs.value, slot, classify, embed, similarity)
  {
  }

  /** On a user turn whose text is a non-blank question, `Augment` is the
      question step behind the classification call. */
  lemma QuestionTurnUnfolds(messages: seq<Message>, faqs: Option<seq<Faq>>, slot: Option<CacheSlot>,
                            classify: string -> Result<Label>, embed: string -> Result<Vector>,
                            similarity: (Vector, Vector) -> real)
    requires UserTurn(messages, faqs)
    requires Trim(ExtractText(Last(messages).content)) != []
    requires classify(ExtractText(Last(messages).content)) == Success(Question)
    ensures var text := ExtractText(Last(messages).content);
            var q := AugmentQuestion(messages[..|messages| - 1], Last(messages), text, faqs.value, slot, embed, similarity);
            Augment(messages, faqs, slot, classify, embed, similarity) ==
              Run(q.messages, q.slot, [Classify(text)] + q.calls, q.failure)
  {
  }

  /** The outcome of a cache refresh for `faqs` from `slot`, seen in the
      prompt, slot and error a call returns with: it succeeds exactly when
      every question embeds; success leaves a slot keyed by `faqs` and aligned
      with it; failure leaves `slot` as it was and the prompt at `rest`. */
  predicate RefreshOutcome(faqs: seq<Faq>, slot: Option<CacheSlot>, embed: string -> Result<Vector>,
                           rest: seq<Message>, messages: seq<Message>, newSlot: Option<CacheSlot>,
                           failure: Option<Error>)
  {
    (failure.None? <==> forall i :: 0 <= i < |faqs| ==> embed(faqs[i].question).Success?) &&
    (failure.None? ==> newSlot.Some? && newSlot.value.originalFaqs == faqs && Aligned(newSlot.value.list, faqs)) &&
    (failure.Some? ==> newSlot == slot && messages == rest)
  }

  /** The question step of `CacheMissRefreshesSlot`. */
  lemma QuestionCacheMiss(rest: seq<Message>, recent: Message, text: string, faqs: seq<Faq>,
                          slot: Option<CacheSlot>, embed: string -> Result<Vector>,
                          similarity: (Vector, Vector) -> real)
    requires |faqs| > 0
    requires embed(text).Success?
    requires !IsHit(slot, faqs)
    ensures var run := AugmentQuestion(rest, recent, text, faqs, slot, embed, similarity);
            run.calls == [Embed(text)] + QuestionCalls(faqs) &&
            RefreshOutcome(faqs, slot, embed, rest, run.messages, run.slot, run.failure)
  {
  }

  /** Cache miss: every FAQ question is embedded, in list order, after the
      query, and the refresh ends as `RefreshOutcome` says. */
  lemma CacheMissRefreshesSlot(messages: seq<Message>, faqs: Option<seq<Faq>>, slot: Option<CacheSlot>,
                               classify: string -> Result<Label>, embed: string -> Result<Vector>,
                               similarity: (Vector, Vector) -> real)
    requires UserTurn(messages, faqs)
    requires Trim(ExtractText(Last(messages).content)) != []
    requires classify(ExtractText(Last(messages).content)) == Success(Question)
    requires embed(ExtractText(Last(messages).content)).Success?
    requires !IsHit(slot, faqs.value)
    ensures var text := ExtractText(Last(messages).content);
            var run := Augment(messages, faqs, slot, classify, embed, similarity);
            run.calls == [Classify(text), Embed(text)] + QuestionCalls(faqs.value) &&
            |run.calls| == 2 + |faqs.value| &&
            RefreshOutcome(faqs.value, slot, embed, messages[..|messages| - 1], run.messages, run.slot, run.failure)
  {
    var text := ExtractText(Last(messages).content);
    var rest := messages[..|messages| - 1];
    var q := AugmentQuestion(rest, Last(messages), text, faqs.value, slot, embed, similarity);
    QuestionTurnUnfolds(messages, faqs, slot, classify, embed, similarity);
    QuestionCacheMiss(rest, Last(messages), text, faqs.value, slot, embed, similarity);
    assert [Classify(text)] + q.calls == [Classify(text), Embed(text)] + QuestionCalls(faqs.value);
  }

  /** The question step of `ReturnedPromptShape`: after ranking, the message
      pushed is the original one or the original prefixed with a supplied FAQ. */
  lemma QuestionPromptShape(rest: seq<Message>, recent: Message, text: string, faqs: seq<Faq>,
                            slot: Option<CacheSlot>, embed: string -> Result<Vector>,
                            similarity: (Vector, Vector) -> real)
    requires |faqs| > 0 && SlotValid(slot)
    requires AugmentQuestion(rest, recent, text, faqs, slot, embed, similarity).failure.None?
    ensures var run := AugmentQuestion(rest, recent, text, faqs, slot, embed, similarity);
            run.messages == rest + [recent] ||
            exists i :: 0 <= i < |faqs| &&
              run.messages == rest + [AugmentedMessage(recent, faqs[i].question, faqs[i].answer)]
  {
    var res := Resolve(slot, faqs, embed);
    var list := res.list.value;
    assert Aligned(list, faqs);
    var scored := Score(list, embed(text).value, similarity);
    var best := Best(scored);
    if best.Some? && best.value.similarity > SimilarityThreshold {
      var i := FirstBest(scored);
      assert AugmentQuestion(rest, recent, text, faqs, slot, embed, similarity).messages ==
               rest + [AugmentedMessage(recent, faqs[i].question, faqs[i].answer)];
    }
  }

  /** The user-message step of `ReturnedPromptShape`. */
  lemma UserMessagePromptShape(rest: seq<Message>, recent: Message, faqs: seq<Faq>, slot: Option<CacheSlot>,
                               classify: string -> Result<Label>, embed: string -> Result<Vector>,
                               similarity: (Vector, Vector) -> real)
    requires |faqs| > 0 && SlotValid(slot)
    requires AugmentUserMessage(rest, recent, faqs, slot, classify, embed, similarity).failure.None?
    ensures ReturnedShape(rest + [recent], faqs,
                          AugmentUserMessage(rest, recent, faqs, slot, classify, embed, similarity).messages)
  {
    var text := ExtractText(recent.content);
    assert (rest + [recent])[..|rest|] == rest;
    if Trim(text) != [] && classify(text) == Success(Question) {
      QuestionPromptShape(rest, recent, text, faqs, slot, embed, similarity);
    }
  }

  /** The rewritten message's text is the preamble followed by the original
      texts, so it starts with the preamble and is never blank: it would get
      past the blank-text guard on a later call. */
  lemma AugmentedMessageText(recent: Message, question: string, answer: string)
    ensures var m := AugmentedMessage(recent, question, answer);
            TextsOf(m.content) == [Preamble(question, answer)] + TextsOf(recent.content) &&
            Preamble(question, answer) <= ExtractText(m.content) &&
            Trim(ExtractText(m.content)) != []
  {
    var m := AugmentedMessage(recent, question, answer);
    var p := Preamble(question, answer);
    TextsOfAppend([TextPart(p)], recent.content);
    SingleTexts(TextPart(p));
    JoinEnds(TextsOf(m.content), "\n");
    assert p in TextsOf(m.content);
  }

  /** When the prompt ends with a user message and the middleware returns,
      the prompt keeps every earlier message untouched and ends with either
      the original message or that message prefixed with one of the supplied
      FAQs; this relies on the slot invariant, since on a hit the injected
      question and answer come from the cache. */
  lemma ReturnedPromptShape(messages: seq<Message>, faqs: Option<seq<Faq>>, slot: Option<CacheSlot>,
                            classify: string -> Result<Label>, embed: string -> Result<Vector>,
                            similarity: (Vector, Vector) -> real)
    requires SlotValid(slot)
    requires UserTurn(messages, faqs)
    requires Augment(messages, faqs, slot, classify, embed, similarity).failure.None?
    ensures ReturnedShape(messages, faqs.value, Augment(messages, faqs, slot, classify, embed, similarity).messages)
  {
    var rest, recent := messages[..|messages| - 1], Last(messages);
    var run := AugmentUserMessage(rest, recent, faqs.value, slot, classify, embed, similarity);
    UserTurnUnfolds(messages, faqs, slot, classify, embed, similarity);
    assert run.failure.None?;
    UserMessagePromptShape(rest, recent, faqs.value, slot, classify, embed, similarity);
    assert rest + [recent] == messages;
    assert ReturnedShape(messages, faqs.value, run.messages);
  }

  /** The threshold decision: once the FAQ list is ranked, the message is
      augmented with the first FAQ of maximal similarity exactly when that
      similarity is strictly above 0.7, and is put back unchanged otherwise. */
  lemma ThresholdDecides(messages: seq<Message>, faqs: Option<seq<Faq>>, slot: Option<CacheSlot>,
                         classify: string -> Result<Label>, embed: string -> Result<Vector>,
                         similarity: (Vector, Vector) -> real)
    requires SlotValid(slot)
    requires UserTurn(messages, faqs)
    requires Trim(ExtractText(Last(messages).content)) != []
    requires classify(ExtractText(Last(messages).content)) == Success(Question)
    requires embed(ExtractText(Last(messages).content)).Success?
    requires Resolve(slot, faqs.value, embed).list.Success?
    ensures var text := ExtractText(Last(messages).content);
            var scored := Score(Resolve(slot, faqs.value, embed).list.value, embed(text).value, similarity);
            var k := FirstBest(scored);
            var run := Augment(messages, faqs, slot, classify, embed, similarity);
            (forall i :: 0 <= i < |scored| ==> scored[i].similarity <= scored[k].similarity) &&
            (forall i :: 0 <= i < k ==> scored[i].similarity < scored[k].similarity) &&
            (scored[k].similarity > SimilarityThreshold ==>
               run.messages == messages[..|messages| - 1] +
                 [AugmentedMessage(Last(messages), scored[k].question, scored[k].answer)]) &&
            (scored[k].similarity <= SimilarityThreshold ==> run.messages == messages)
  {
    var text := ExtractText(Last(messages).content);
    var list := Resolve(slot, faqs.value, embed).list.value;
    assert |list| == |faqs.value|;
    assert messages[..|messages| - 1] + [Last(messages)] == messages;
  }

  /** The question step of `WarmCacheRepeat`: after a successful step the
      slot holds this FAQ list, so repeating the step hits the cache. */
  lemma QuestionWarmRepeat(rest: seq<Message>, recent: Message, text: string, faqs: seq<Faq>,
                           slot: Option<CacheSlot>, embed: string -> Result<Vector>,
                           similarity: (Vector, Vector) -> real)
    requires |faqs| > 0
    requires AugmentQuestion(rest, recent, text, faqs, slot, embed, similarity).failure.None?
    ensures var first := AugmentQuestion(rest, recent, text, faqs, slot, embed, similarity);
            var second := AugmentQuestion(rest, recent, text, faqs, first.slot, embed, similarity);
            second.messages == first.messages && second.slot == first.slot &&
            second.failure.None? && second.calls == [Embed(text)]
  {
    var res := Resolve(slot, faqs, embed);
    assert IsHit(res.slot, faqs);
  }

  /** The user-message step of `WarmCacheRepeat`. */
  lemma UserMessageWarmRepeat(rest: seq<Message>, recent: Message, faqs: seq<Faq>, slot: Option<CacheSlot>,
                              classify: string -> Result<Label>, embed: string -> Result<Vector>,
                              similarity: (Vector, Vector) -> real)
    requires |faqs| > 0
    requires AugmentUserMessage(rest, recent, faqs, slot, classify, embed, similarity).failure.None?
    ensures var first := AugmentUserMessage(rest, recent, faqs, slot, classify, embed, similarity);
            var second := AugmentUserMessage(rest, recent, faqs, first.slot, classify, embed, similarity);
            second.messages == first.messages && second.slot == first.slot &&
            second.failure.None? && |second.calls| <= 2 && second.calls <= first.calls
  {
    var text := ExtractText(recent.content);
    if Trim(text) != [] && classify(text) == Success(Question) {
      QuestionWarmRepeat(rest, recent, text, faqs, slot, embed, similarity);
    }
  }

  /** Calling the middleware again with the same prompt and FAQs after a
      successful call gives the same prompt and slot, and embeds no FAQ
      again: the second call's provider calls are a prefix of the first's
      and at most the classification and the query embedding. */
  lemma WarmCacheRepeat(messages: seq<Message>, faqs: Option<seq<Faq>>, slot: Option<CacheSlot>,
                        classify: string -> Result<Label>, embed: string -> Result<Vector>,
                        similarity: (Vector, Vector) -> real)
    requires Augment(messages, faqs, slot, classify, embed, similarity).failure.None?
    ensures var first := Augment(messages, faqs, slot, classify, embed, similarity);
            var second := Augment(messages, faqs, first.slot, classify, embed, similarity);
            second.messages == first.messages && second.slot == first.slot &&
            second.failure.None? && |second.calls| <= 2 && second.calls <= first.calls
  {
    var first := Augment(messages, faqs, slot, classify, embed, similarity);
    if !UserTurn(messages, faqs) {
      if faqs.None? || faqs.value == [] {
        NoFaqsLeavesPrompt(messages, faqs, slot, classify, embed, similarity);
        NoFaqsLeavesPrompt(messages, faqs, first.slot, classify, embed, similarity);
      } else {
        NoUserMessageLeavesPrompt(messages, faqs, slot, classify, embed, similarity);
        NoUserMessageLeavesPrompt(messages, faqs, first.slot, classify, embed, similarity);
      }
    } else {
      var rest, recent := messages[..|messages| - 1], Last(messages);
      UserTurnUnfolds(messages, faqs, slot, classify, embed, similarity);
      UserTurnUnfolds(messages, faqs, first.slot, classify, embed, similarity);
      UserMessageWarmRepeat(rest, recent, faqs.value, slot, classify, embed, similarity);
    }
  }
}

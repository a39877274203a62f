/**
 * The string side of the language-model client: how knowledge-base entries
 * are rendered into the prompt, the prompt template, the greeting fallback
 * and the normalisation of the intent label. The model itself is a
 * collaborator: each of its three uses is a function from the user content
 * of the request to the returned content, `None` standing for any failure
 * of the call.
 */
module OpenAiClient {
  import opened Wrappers
  import opened Text
  import opened FaqEntry

  /** The three chat-completion uses, each with its own fixed system prompt. */
  datatype Assistant = Assistant(
    classify: string -> Option<string>,
    greet: string -> Option<string>,
    answer: string -> Option<string>)

  const EmptyContext := "FAQ база пуста."
  const BlockSeparator := "\n\n"

  /** One entry as it appears in the prompt. */
  function FaqBlock(item: FaqItem): string {
    "Q: " + item.question + "\nA: " + item.answer
  }

  function Blocks(items: seq<FaqItem>): (r: seq<string>)
    ensures |r| == |items|
    ensures forall k :: 0 <= k < |items| ==> r[k] == FaqBlock(items[k])
  {
    seq(|items|, k requires 0 <= k < |items| => FaqBlock(items[k]))
  }

  /** The knowledge-base context: a fixed sentence for no entries, otherwise
      one block per entry separated by blank lines. */
  function FaqContext(items: seq<FaqItem>): (r: string)
    ensures items == [] ==> r == EmptyContext
    ensures |items| == 1 ==> r == FaqBlock(items[0])
    ensures forall k :: 0 <= k < |items| ==> IsSubstring(FaqBlock(items[k]), r)
  {
    if items == [] then EmptyContext
    else
      var parts := Blocks(items);
      assert forall k :: 0 <= k < |items| ==> IsSubstring(FaqBlock(items[k]), Join(parts, BlockSeparator)) by {
        forall k | 0 <= k < |items| ensures IsSubstring(FaqBlock(items[k]), Join(parts, BlockSeparator)) {
          JoinOccurs(parts, BlockSeparator, k);
        }
      }
      Join(parts, BlockSeparator)
  }

  /** Blocks come in the order of the entries: one more entry adds its block at the end. */
  lemma FaqContextAppend(items: seq<FaqItem>, x: FaqItem)
    requires items != []
    ensures FaqContext(items + [x]) == FaqContext(items) + BlockSeparator + FaqBlock(x)
  {
    var parts := Blocks(items + [x]);
    assert parts[..|parts| - 1] == Blocks(items);
  }

  /** The context as the client builds it: a list of blocks filled in a loop, then joined. */
  method FormatFaqContext(items: seq<FaqItem>) returns (context: string)
    ensures context == FaqContext(items)
  {
    if items == [] {
      return EmptyContext;
    }
    var parts: seq<string> := [];
    for i := 0 to |items|
      invariant parts == Blocks(items[..i])
    {
      parts := parts + [FaqBlock(items[i])];
    }
    assert items[..|items|] == items;
    context := Join(parts, BlockSeparator);
  }

  const PromptHead := "База знаний FAQ:\n"
  const PromptMiddle := "\n\nВопрос клиента: \""
  const PromptTail := "\"\n\nОтветь на вопрос клиента, используя информацию из базы FAQ выше."

  /** The user prompt: the context, then the quoted question, inside fixed text. */
  function UserPrompt(question: string, context: string): (r: string)
    ensures |r| == |PromptHead| + |context| + |PromptMiddle| + |question| + |PromptTail|
    ensures r[..|PromptHead|] == PromptHead
    ensures r[|PromptHead|..|PromptHead| + |context|] == context
    ensures r[|r| - |PromptTail| - |question|..|r| - |PromptTail|] == question
    ensures r[|r| - |PromptTail|..] == PromptTail
  {
    PromptHead + context + PromptMiddle + question + PromptTail
  }

  /** For a fixed context, different questions give different prompts. */
  lemma UserPromptDeterminesQuestion(q1: string, q2: string, context: string)
    requires UserPrompt(q1, context) == UserPrompt(q2, context)
    ensures q1 == q2
  {
    var r := UserPrompt(q1, context);
    assert q1 == r[|r| - |PromptTail| - |q1|..|r| - |PromptTail|];
  }

  /** The answer generated from the entries: the model's reply, stripped. */
  function GenerateFaqResponse(assistant: Assistant, question: string, items: seq<FaqItem>): (r: Option<string>)
    ensures r.Some? ==> Strip(r.value) == r.value
    ensures var reply := assistant.answer(UserPrompt(question, FaqContext(items)));
      (r.None? <==> reply.None?) && (r.Some? ==> r.value == Strip(reply.value))
  {
    var reply := assistant.answer(UserPrompt(question, FaqContext(items)));
    if reply.None? then None
    else
      StripIdempotent(reply.value);
      Some(Strip(reply.value))
  }

  /** `f" {name}"` when a name is given and non-empty, otherwise nothing. */
  function NamePart(name: Option<string>): string {
    if name.Some? && name.value != [] then " " + name.value else ""
  }

  const GreetingStart := "Привет"
  const GreetingEnd := "! 👋 Как могу помочь?"

  /** The greeting used when the model cannot be reached. */
  function GreetingFallback(name: Option<string>): (r: string)
    ensures |r| >= |GreetingStart| + |GreetingEnd|
    ensures r[..|GreetingStart|] == GreetingStart
    ensures r[|r| - |GreetingEnd|..] == GreetingEnd
    ensures name.None? || name.value == [] ==> r == GreetingStart + GreetingEnd
    ensures name.Some? && name.value != [] ==>
              r[|GreetingStart|..|r| - |GreetingEnd|] == " " + name.value
  {
    GreetingStart + NamePart(name) + GreetingEnd
  }

  /** The greeting: the model's reply to the greeting request, stripped, or the fallback. */
  function GenerateGreeting(assistant: Assistant, name: Option<string>): (r: string)
    ensures assistant.greet("Поприветствуй клиента" + NamePart(name)).None? ==> r == GreetingFallback(name)
    ensures assistant.greet("Поприветствуй клиента" + NamePart(name)).Some? ==>
              r == Strip(assistant.greet("Поприветствуй клиента" + NamePart(name)).value)
  {
    match assistant.greet("Поприветствуй клиента" + NamePart(name))
    case Some(content) => Strip(content)
    case None => GreetingFallback(name)
  }

  /** The intent label: the model's reply stripped and lower-cased, or "other" on failure. */
  function NormalizeIntent(raw: Option<string>): (intent: string)
    ensures raw.None? ==> intent == "other"
    ensures forall i :: 0 <= i < |intent| ==> !IsUpper(intent[i])
    ensures intent != [] ==> !IsSpace(intent[0]) && !IsSpace(intent[|intent| - 1])
  {
    match raw
    case Some(content) =>
      StripLower(content);
      Lower(Strip(content))
    case None => "other"
  }

  function ClassifyIntent(assistant: Assistant, message: string): string {
    NormalizeIntent(assistant.classify(message))
  }

  /** Normalising an already normalised label changes nothing. */
  lemma NormalizeIntentIdempotent(raw: Option<string>)
    ensures NormalizeIntent(Some(NormalizeIntent(raw))) == NormalizeIntent(raw)
  {
    var intent := NormalizeIntent(raw);
    TrimStartNoSpace(intent);
    TrimEndNoSpace(intent);
    LowerOfLower(intent);
  }

  /** Capitals in the reply do not change the label. */
  lemma NormalizeIntentIgnoresCase(s: string)
    ensures NormalizeIntent(Some(Lower(s))) == NormalizeIntent(Some(s))
  {
    StripLower(s);
    LowerIdempotent(Strip(s));
  }

  /** White space around the reply does not change the label. */
  lemma NormalizeIntentIgnoresSurroundingSpace(s: string)
    ensures NormalizeIntent(Some(Strip(s))) == NormalizeIntent(Some(s))
  {
    StripIdempotent(s);
  }

  /** A reply that is already a lower-case word is returned as it is. */
  lemma NormalizeIntentKeepsLabel(word: string)
    requires forall i :: 0 <= i < |word| ==> !IsUpper(word[i]) && !IsSpace(word[i])
    ensures NormalizeIntent(Some(word)) == word
  {
    TrimStartNoSpace(word);
    TrimEndNoSpace(word);
    LowerOfLower(word);
  }
}

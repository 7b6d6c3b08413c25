/**
  The server's table of conversation topics and `generateTopicPrompt`, which picks the
  seed prompt that opens a conversation. A seed is kept as a tagged value (a table entry,
  or the custom template around a text) and `SeedText` renders it; the rendered strings
  are the table's exact text.
 */
module Topics {
  import opened JsValues

  /** The entries of `CONVERSATION_TOPICS`, in declaration order. */
  datatype Topic = General | Saas | Ecommerce | Mobile | Ai | Marketplace
                 | Subscription | Advertising | Fintech | Content | Custom

  /** The table key of a topic. */
  function TopicKey(t: Topic): string {
    match t
    case General => "general"
    case Saas => "saas"
    case Ecommerce => "ecommerce"
    case Mobile => "mobile"
    case Ai => "ai"
    case Marketplace => "marketplace"
    case Subscription => "subscription"
    case Advertising => "advertising"
    case Fintech => "fintech"
    case Content => "content"
    case Custom => "custom"
  }

  // The prompt text of each entry.
  const GeneralSeed: string := "Start the discussion by introducing the topic of monetisation strategies for startups."
  const SaasSeed: string := "Start a discussion focused on Software as a Service (SaaS) business models and recurring revenue strategies for startups."
  const EcommerceSeed: string := "Begin a conversation about e-commerce monetisation, online retail strategies, and digital marketplace opportunities for startups."
  const MobileSeed: string := "Initiate a discussion about mobile app monetisation strategies, including freemium models, in-app purchases, and mobile advertising."
  const AiSeed: string := "Start a conversation about monetising AI and machine learning technologies, including AI-as-a-Service and data monetisation strategies."
  const MarketplaceSeed: string := "Begin discussing two-sided marketplace business models, platform economics, and network effects for startup monetisation."
  const SubscriptionSeed: string := "Initiate a conversation about subscription-based business models, customer retention, and recurring revenue optimization."
  const AdvertisingSeed: string := "Start a discussion about advertising-based revenue models, including programmatic advertising and content monetisation."
  const FintechSeed: string := "Begin a conversation about financial technology monetisation, including payment processing, lending, and financial services."
  const ContentSeed: string := "Initiate a discussion about content monetisation strategies, including digital products, courses, and media licensing."
  const CustomSeedPlaceholder: string := "Custom topic (will be replaced with user input)"

  /** The prompt text a topic's entry holds. */
  function SeedPrompt(t: Topic): string {
    match t
    case General => GeneralSeed
    case Saas => SaasSeed
    case Ecommerce => EcommerceSeed
    case Mobile => MobileSeed
    case Ai => AiSeed
    case Marketplace => MarketplaceSeed
    case Subscription => SubscriptionSeed
    case Advertising => AdvertisingSeed
    case Fintech => FintechSeed
    case Content => ContentSeed
    case Custom => CustomSeedPlaceholder
  }

  /** Every entry is a truthy string, so the `|| CONVERSATION_TOPICS.general` fallback
      only applies to a key that has no entry. */
  lemma SeedPromptsAreTruthy()
    ensures forall t :: Truthy(Some(SeedPrompt(t)))
  {
    forall t
      ensures SeedPrompt(t) != ""
    {
      match t
      case General => assert |GeneralSeed| > 0;
      case Saas => assert |SaasSeed| > 0;
      case Ecommerce => assert |EcommerceSeed| > 0;
      case Mobile => assert |MobileSeed| > 0;
      case Ai => assert |AiSeed| > 0;
      case Marketplace => assert |MarketplaceSeed| > 0;
      case Subscription => assert |SubscriptionSeed| > 0;
      case Advertising => assert |AdvertisingSeed| > 0;
      case Fintech => assert |FintechSeed| > 0;
      case Content => assert |ContentSeed| > 0;
      case Custom => assert |CustomSeedPlaceholder| > 0;
    }
  }

  /** `CONVERSATION_TOPICS[key]`: the topic whose key is `key`, or undefined. */
  function FindTopic(key: string): (r: Option<Topic>)
    ensures r.Some? ==> TopicKey(r.value) == key
    ensures r.None? ==> forall t :: TopicKey(t) != key
  {
    if key == "general" then Some(General)
    else if key == "saas" then Some(Saas)
    else if key == "ecommerce" then Some(Ecommerce)
    else if key == "mobile" then Some(Mobile)
    else if key == "ai" then Some(Ai)
    else if key == "marketplace" then Some(Marketplace)
    else if key == "subscription" then Some(Subscription)
    else if key == "advertising" then Some(Advertising)
    else if key == "fintech" then Some(Fintech)
    else if key == "content" then Some(Content)
    else if key == "custom" then Some(Custom)
    else None
  }

  /** No two topics share a key. */
  lemma TopicKeyInjective(a: Topic, b: Topic)
    requires TopicKey(a) == TopicKey(b)
    ensures a == b
  {
  }

  /** Every topic is found by its own key, and by no other. */
  lemma FindTopicByKey(t: Topic, key: string)
    ensures FindTopic(key) == Some(t) <==> TopicKey(t) == key
  {
    if TopicKey(t) == key {
      TopicKeyInjective(FindTopic(key).value, t);
    }
  }

  /** The seed that opens a conversation: a table entry, or the custom template around
      the director's topic text. */
  datatype Seed = Entry(topic: Topic) | CustomSeed(text: string)

  // The custom template, on either side of the quoted topic text.
  const CustomPrefix: string := "Start a discussion focused on \""
  const CustomSuffix: string := "\" and how it relates to startup monetisation strategies. "
    + "Explore the business opportunities, revenue models, and growth potential in this area."

  /** The prompt text of a seed. */
  function SeedText(s: Seed): string {
    match s
    case Entry(t) => SeedPrompt(t)
    case CustomSeed(text) => CustomPrefix + text + CustomSuffix
  }

  /** The custom template holds the topic text in full, right after its fixed opening,
      so the text can be read back from the prompt. */
  lemma CustomSeedQuotesText(text: string)
    ensures var p := SeedText(CustomSeed(text));
      && |p| == |CustomPrefix| + |text| + |CustomSuffix|
      && p[|CustomPrefix|..|CustomPrefix| + |text|] == text
  {
    MiddleOfConcat(CustomPrefix, text, CustomSuffix);
  }

  lemma MiddleOfConcat(a: string, b: string, c: string)
    ensures |a + b + c| == |a| + |b| + |c| && (a + b + c)[|a|..|a| + |b|] == b
  {
  }

  /** The custom template applies: topic `custom` with a custom text that is not blank. */
  predicate UsesCustomText(topic: string, customTopic: Option<string>) {
    topic == "custom" && Truthy(customTopic) && Trim(customTopic.value) != ""
  }

  /** `generateTopicPrompt`: the custom template around the trimmed custom text, else the
      entry of the topic with that key, else the `general` entry. */
  function GenerateTopicPrompt(topic: string, customTopic: Option<string>): (r: Seed)
    ensures UsesCustomText(topic, customTopic) ==> r == CustomSeed(Trim(customTopic.value))
    ensures forall t :: !UsesCustomText(topic, customTopic) && TopicKey(t) == topic ==> r == Entry(t)
    ensures !UsesCustomText(topic, customTopic) && (forall t :: TopicKey(t) != topic) ==> r == Entry(General)
    ensures r.CustomSeed? ==> Trimmed(r.text) && r.text != ""
  {
    if UsesCustomText(topic, customTopic) then CustomSeed(Trim(customTopic.value))
    else
      var entry := FindTopic(topic);
      assert forall t :: TopicKey(t) == topic ==> entry == Some(t) by {
        forall t | TopicKey(t) == topic
          ensures entry == Some(t)
        {
          FindTopicByKey(t, topic);
        }
      }
      if entry.Some? then Entry(entry.value) else Entry(General)
  }

  /** Only the `custom` topic ever reads the custom text. */
  lemma CustomTextOnlyForCustomTopic(topic: string, a: Option<string>, b: Option<string>)
    requires topic != "custom"
    ensures GenerateTopicPrompt(topic, a) == GenerateTopicPrompt(topic, b)
  {
  }

  /** Padding around the custom text does not change the prompt. */
  lemma CustomTextPaddingIgnored(pre: string, text: string, post: string)
    requires Blank(pre) && Blank(post) && Trimmed(text) && text != ""
    ensures GenerateTopicPrompt("custom", Some(pre + text + post)) == CustomSeed(text)
  {
    assert Trim(pre + text + post) == text by {
      TrimOfPadded(pre, text, post);
    }
    assert UsesCustomText("custom", Some(pre + text + post));
  }

  /** A blank or missing custom text falls back to the `custom` entry, not to `general`. */
  lemma BlankCustomTopicKeepsCustomEntry(customTopic: Option<string>)
    requires customTopic.None? || Blank(customTopic.value)
    ensures GenerateTopicPrompt("custom", customTopic) == Entry(Custom)
  {
    assert TopicKey(Custom) == "custom";
  }
}

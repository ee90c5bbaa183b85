/**
 * The Timely messaging extension's two protocol handlers, as pure functions.
 * The host name the extension is served from, which the TypeScript handler in
 * `TimelyMessageExtension.ts` reads from the environment, is an explicit
 * parameter `host`; the turn context, promises
 * and logging are not modelled.
 */
module TimelyMessageExtension {
  import opened Wrappers
  import opened Cards

  // ---------------------------------------------------------------------
  // Payloads

  /** One pre-computed entry of the submitted conversion list. */
  datatype Conversion = Conversion(locationName: string, time: string)

  /**
   * The `data` object the task module submits; `None` is `undefined` or `null`.
   * `otherData` stands for the fields of `data` the handler does not read.
   */
  datatype ActionData = ActionData(timezonesConversions: Option<seq<Conversion>>, otherData: string)

  /**
   * A messaging-extension action request. `commandId` stands for the
   * request fields that neither handler reads.
   */
  datatype ActionRequest = ActionRequest(commandId: string, data: Option<ActionData>)

  /** The task-module descriptor answered to a fetch. */
  datatype TaskInfo = TaskInfo(title: string, url: string, width: string, height: string)

  datatype TaskModuleResult = TaskModuleResult(kind: string, value: TaskInfo)

  datatype MessagingExtensionResult =
    MessagingExtensionResult(kind: string, attachmentLayout: string, attachments: seq<Card>)

  // ---------------------------------------------------------------------
  // Constants of the handlers

  const Scheme: string := "https://"
  const ActionPagePath: string := "/timelyMessageExtension/action.html"
  const LogoPath: string := "/assets/drop-pin-logo.png"
  const CardSchema: string := "http://adaptivecards.io/schemas/adaptive-card.json"

  // ---------------------------------------------------------------------
  // Host-name splicing

  /** The absolute url of `path` on the extension's own host. */
  function HostUrl(host: string, path: string): (url: string)
    ensures |url| == |Scheme| + |host| + |path|
    ensures url[..|Scheme|] == Scheme
    ensures url[|Scheme|..|Scheme| + |host|] == host
    ensures url[|Scheme| + |host|..] == path
  {
    Scheme + host + path
  }

  /**
   * Recovers the host from an absolute url of `path`: the text between the
   * scheme and the path, or None when `url` has not that shape.
   */
  function HostOfUrl(url: string, path: string): Option<string>
  {
    if |url| >= |Scheme| + |path| && url[..|Scheme|] == Scheme && url[|url| - |path|..] == path
    then Some(url[|Scheme|..|url| - |path|])
    else None
  }

  /**
   * Splicing a host into a url loses nothing: the host can be read back.
   * A corollary of the decomposition `HostUrl` ensures.
   */
  lemma HostUrlRoundTrip(host: string, path: string)
    ensures HostOfUrl(HostUrl(host, path), path) == Some(host)
  {
  }

  /** Different hosts give different urls of the same path. */
  lemma HostUrlInjective(h1: string, h2: string, path: string)
    requires HostUrl(h1, path) == HostUrl(h2, path)
    ensures h1 == h2
  {
    HostUrlRoundTrip(h1, path);
    HostUrlRoundTrip(h2, path);
  }

  // ---------------------------------------------------------------------
  // onFetchTask

  /**
   * Answers a fetch with the "continue" descriptor that opens the input form.
   * The request is not looked at and there is no failure path.
   */
  function OnFetchTask(value: ActionRequest, host: string): (r: TaskModuleResult)
    ensures r.kind == "continue"
    ensures r.value.title == "Input form"
    ensures r.value.width == "medium" && r.value.height == "large"
    ensures r.value.url == "https://" + host + "/timelyMessageExtension/action.html"
    ensures HostOfUrl(r.value.url, ActionPagePath) == Some(host)
  {
    HostUrlRoundTrip(host, ActionPagePath);
    TaskModuleResult("continue", TaskInfo("Input form", HostUrl(host, ActionPagePath), "medium", "large"))
  }

  /** The fetch answer does not depend on the request at all. */
  lemma FetchIgnoresRequest(v1: ActionRequest, v2: ActionRequest, host: string)
    ensures OnFetchTask(v1, host) == OnFetchTask(v2, host)
  {
  }

  /** The fetch answer determines the host it was built for. */
  lemma FetchDeterminesHost(v: ActionRequest, h1: string, h2: string)
    requires OnFetchTask(v, h1) == OnFetchTask(v, h2)
    ensures h1 == h2
  {
    HostUrlInjective(h1, h2, ActionPagePath);
  }

  // ---------------------------------------------------------------------
  // The facts mapping

  /** The fact that shows one conversion: its location as the title, its time as the value. */
  function FactOf(c: Conversion): Fact
  {
    Fact(c.locationName, c.time)
  }

  /**
   * The `.map` over the submitted conversions: one fact per entry, in the
   * same order, nothing dropped, merged or added.
   */
  function ToFacts(conversions: seq<Conversion>): (facts: seq<Fact>)
    ensures |facts| == |conversions|
    ensures forall i :: 0 <= i < |conversions| ==>
      facts[i].title == conversions[i].locationName && facts[i].value == conversions[i].time
  {
    if conversions == [] then [] else [FactOf(conversions[0])] + ToFacts(conversions[1..])
  }

  /** The reverse projection: the conversion list a fact list shows. */
  function FromFacts(facts: seq<Fact>): (conversions: seq<Conversion>)
    ensures |conversions| == |facts|
    ensures forall i :: 0 <= i < |facts| ==>
      conversions[i].locationName == facts[i].title && conversions[i].time == facts[i].value
  {
    if facts == [] then [] else [Conversion(facts[0].title, facts[0].value)] + FromFacts(facts[1..])
  }

  /**
   * The facts keep every field of every conversion: the mapping can be undone.
   * A corollary of the index-by-index contracts of `ToFacts` and `FromFacts`.
   */
  lemma FactsRoundTrip(conversions: seq<Conversion>)
    ensures FromFacts(ToFacts(conversions)) == conversions
  {
  }

  /** Distinct conversion lists give distinct fact lists. */
  lemma ToFactsInjective(c1: seq<Conversion>, c2: seq<Conversion>)
    requires ToFacts(c1) == ToFacts(c2)
    ensures c1 == c2
  {
    FactsRoundTrip(c1);
    FactsRoundTrip(c2);
  }

  /**
   * The mapping works piecewise: the facts of a concatenation are the
   * concatenated facts. A corollary of the index-by-index contract of `ToFacts`.
   */
  lemma ToFactsAppend(a: seq<Conversion>, b: seq<Conversion>)
    ensures ToFacts(a + b) == ToFacts(a) + ToFacts(b)
  {
  }

  // ---------------------------------------------------------------------
  // onSubmitAction

  /**
   * The submit payload carries a conversion list; the TypeScript handler
   * throws a TypeError otherwise.
   */
  predicate HasConversions(value: ActionRequest)
  {
    value.data.Some? && value.data.value.timezonesConversions.Some?
  }

  function Conversions(value: ActionRequest): seq<Conversion>
    requires HasConversions(value)
  {
    value.data.value.timezonesConversions.value
  }

  /**
   * The two-column card: an auto-width column holding the small drop-pin
   * icon from the extension's host, and a stretching column holding the facts.
   */
  function ComposeCard(facts: seq<Fact>, host: string): (card: Card)
    ensures card.version == "1.0" && card.schema == CardSchema
    ensures |card.body| == 1 && |card.body[0].columns| == 2
    ensures card.body[0].columns[0].width == "auto"
    ensures card.body[0].columns[0].items == [Image("", "https://" + host + "/assets/drop-pin-logo.png", "Small")]
    ensures card.body[0].columns[1].width == "stretch"
    ensures card.body[0].columns[1].items == [FactSet(facts)]
    ensures CardFacts(card) == Some(facts)
    ensures CardIconUrl(card).Some? && HostOfUrl(CardIconUrl(card).value, LogoPath) == Some(host)
  {
    HostUrlRoundTrip(host, LogoPath);
    AdaptiveCard(
      "1.0",
      [ColumnSet([
        Column("auto", [Image("", HostUrl(host, LogoPath), "Small")]),
        Column("stretch", [FactSet(facts)])])],
      CardSchema)
  }

  /**
   * The card determines both the facts and the host it was composed from.
   * A corollary of the reader clauses in the `ComposeCard` ensures.
   */
  lemma ComposeCardInjective(f1: seq<Fact>, h1: string, f2: seq<Fact>, h2: string)
    requires ComposeCard(f1, h1) == ComposeCard(f2, h2)
    ensures f1 == f2 && h1 == h2
  {
  }

  /**
   * Answers a submit with a "result" message in list layout whose single
   * attachment is the card showing the submitted conversions.
   */
  function OnSubmitAction(value: ActionRequest, host: string): (r: MessagingExtensionResult)
    requires HasConversions(value)
    ensures r.kind == "result" && r.attachmentLayout == "list"
    ensures |r.attachments| == 1
    ensures r.attachments[0] == ComposeCard(ToFacts(Conversions(value)), host)
    ensures CardFacts(r.attachments[0]) == Some(ToFacts(Conversions(value)))
    ensures HostOfUrl(CardIconUrl(r.attachments[0]).value, LogoPath) == Some(host)
  {
    var facts := ToFacts(Conversions(value));
    var card := CardFactoryAdaptiveCard(ComposeCard(facts, host));
    MessagingExtensionResult("result", "list", [card])
  }

  /** The submitted conversion list can be read back, unchanged, from the answer's card. */
  lemma SubmitRoundTrip(value: ActionRequest, host: string)
    requires HasConversions(value)
    ensures FromFacts(CardFacts(OnSubmitAction(value, host).attachments[0]).value) == Conversions(value)
  {
    FactsRoundTrip(Conversions(value));
  }

  /** An empty conversion list still gives one card, with an empty fact set. */
  lemma SubmitEmptyConversions(value: ActionRequest, host: string)
    requires HasConversions(value) && Conversions(value) == []
    ensures |OnSubmitAction(value, host).attachments| == 1
    ensures CardFacts(OnSubmitAction(value, host).attachments[0]) == Some([])
  {
  }

  /** The answer depends only on the conversion list and the host, not on any other request field. */
  lemma SubmitDependsOnlyOnConversions(v1: ActionRequest, v2: ActionRequest, host: string)
    requires HasConversions(v1) && HasConversions(v2)
    requires Conversions(v1) == Conversions(v2)
    ensures OnSubmitAction(v1, host) == OnSubmitAction(v2, host)
  {
  }

  /** Two submits with different conversion lists give different answers. */
  lemma SubmitDistinguishesConversions(v1: ActionRequest, v2: ActionRequest, host: string)
    requires HasConversions(v1) && HasConversions(v2)
    requires OnSubmitAction(v1, host) == OnSubmitAction(v2, host)
    ensures Conversions(v1) == Conversions(v2)
  {
    SubmitRoundTrip(v1, host);
    SubmitRoundTrip(v2, host);
  }
}

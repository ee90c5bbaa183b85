# Timely messaging extension — Dafny model

Timely is a chat-platform messaging extension with two handlers:

- **Fetch.** The platform asks the extension for a task module. The extension answers with a "continue" descriptor: it opens the input form, served from the extension's own host, in a medium-by-large window.
- **Submit.** The submit handler expects `data.timezonesConversions`, a list of time-zone conversions, each with a location name and an already-formatted time. The extension answers with a "result" message. That message has exactly one Adaptive Card attachment in list layout, with two columns:
  - an auto-width column holding a small drop-pin icon served from the host;
  - a stretching column holding a fact set, with one `{title, value}` fact per conversion, in submission order.

The model has three modules:

- `Wrappers`: an `Option` datatype.
- `Cards`: the card as datatypes (`Fact`, `Item`, `Column`, `Element`, `Card`). The constructors `AdaptiveCard`, `ColumnSet`, `Column`, `Image` and `FactSet` stand for the JSON objects with that "type" tag; a `Fact` is a plain `{title, value}` object. It also has two readers that take the fact list and the icon url back out of a card.
- `TimelyMessageExtension`: the payloads and the two handlers, written as pure functions of the request and the host name. The lemmas relate the handlers to independent partners:
  - `HostOfUrl` parses the host back out of a url.
  - `FromFacts` inverts the facts mapping.
  - `CardFacts`/`CardIconUrl` read a composed card.

The TypeScript handler in `src/app/timelyMessageExtension/TimelyMessageExtension.ts` reads the host name from the `HOSTNAME` environment variable. Here it is the parameter `host`. An unset variable corresponds to passing the string `"undefined"`, which is what JavaScript's template literal would splice in.

The handler performs no time-zone conversion. The `time` strings arrive already computed in the submit payload and are copied through unchanged.

## Model

| member | source | states |
|---|---|---|
| TimelyMessageExtension.HostUrl | src/app/timelyMessageExtension/TimelyMessageExtension.ts:22 | the url is exactly the scheme "https://", then the host, then the path, in that order and nothing else |
| TimelyMessageExtension.HostUrlRoundTrip | src/app/timelyMessageExtension/TimelyMessageExtension.ts:22 | the host spliced into a url can be parsed back out of it unchanged |
| TimelyMessageExtension.HostUrlInjective | src/app/timelyMessageExtension/TimelyMessageExtension.ts:58 | two hosts giving the same url of one path are the same host |
| TimelyMessageExtension.OnFetchTask | src/app/timelyMessageExtension/TimelyMessageExtension.ts:16-29 | for every request and host the answer is "continue" with title "Input form", width "medium", height "large" and url "https://" + host + "/timelyMessageExtension/action.html", whose host part reads back as the given host; no failure path |
| TimelyMessageExtension.FetchIgnoresRequest | src/app/timelyMessageExtension/TimelyMessageExtension.ts:16-26 | the fetch answer is the same whatever request is passed |
| TimelyMessageExtension.FetchDeterminesHost | src/app/timelyMessageExtension/TimelyMessageExtension.ts:22 | equal fetch answers come from equal hosts |
| TimelyMessageExtension.ToFacts | src/app/timelyMessageExtension/TimelyMessageExtension.ts:36-41 | one fact per conversion, same length, and at every index the title is that entry's locationName and the value its time (order kept, nothing filtered, merged or added) |
| TimelyMessageExtension.FromFacts | src/app/timelyMessageExtension/TimelyMessageExtension.ts:36-41 | reverse projection: one conversion per fact, locationName from title and time from value, index by index |
| TimelyMessageExtension.FactsRoundTrip | src/app/timelyMessageExtension/TimelyMessageExtension.ts:36-41 | the facts mapping loses nothing: reversing it gives back the submitted list |
| TimelyMessageExtension.ToFactsInjective | src/app/timelyMessageExtension/TimelyMessageExtension.ts:36-41 | different conversion lists (duplicates included) give different fact lists |
| TimelyMessageExtension.ToFactsAppend | src/app/timelyMessageExtension/TimelyMessageExtension.ts:36-41 | the mapping is piecewise: the facts of a concatenation are the concatenation of the facts |
| TimelyMessageExtension.ComposeCard | src/app/timelyMessageExtension/TimelyMessageExtension.ts:43-77 | the card is version "1.0" with the Adaptive Card schema. Its body is a single column set of exactly two columns: an "auto" column with one Small image at "https://" + host + "/assets/drop-pin-logo.png", and a "stretch" column with one fact set of the given facts. The readers recover the facts and the host |
| TimelyMessageExtension.ComposeCardInjective | src/app/timelyMessageExtension/TimelyMessageExtension.ts:43-77 | the card determines the facts and the host it was composed from |
| TimelyMessageExtension.OnSubmitAction | src/app/timelyMessageExtension/TimelyMessageExtension.ts:34-83 | the answer is "result" in "list" layout with exactly one attachment. That attachment is the composed card, its fact set is the mapped conversion list, and its icon url carries the host |
| TimelyMessageExtension.SubmitRoundTrip | src/app/timelyMessageExtension/TimelyMessageExtension.ts:36-82 | the submitted conversion list can be read back unchanged from the answer's single card |
| TimelyMessageExtension.SubmitEmptyConversions | src/app/timelyMessageExtension/TimelyMessageExtension.ts:36-82 | an empty conversion list still gives one attachment, whose fact set is empty |
| TimelyMessageExtension.SubmitDependsOnlyOnConversions | src/app/timelyMessageExtension/TimelyMessageExtension.ts:34-83 | the submit answer depends only on the conversion list and the host: other request fields (`commandId`) and other fields of `data` (`otherData`) are not read, and no state is kept |
| TimelyMessageExtension.SubmitDistinguishesConversions | src/app/timelyMessageExtension/TimelyMessageExtension.ts:36-82 | equal submit answers for one host come from equal conversion lists |

## Left out

- Promises, the `TurnContext` argument, the `debug` logger and the `@PreventIframe` decorators (src/app/timelyMessageExtension/TimelyMessageExtension.ts:1-11). These are framework wrappers, so the handlers are plain functions.
- `CardFactory.adaptiveCard` is a library call. Here it is `Cards.CardFactoryAdaptiveCard`, an identity over the card. Its attachment envelope and Adaptive Card schema validation are not modelled.
- Determinism holds by construction, because the handlers are Dafny functions. Independence from the request fields they ignore is stated in `FetchIgnoresRequest` and `SubmitDependsOnlyOnConversions`.
- TimelyMessageExtension.OnSubmitAction requires `HasConversions`. The TypeScript handler throws a TypeError at line 36 when `data` or `timezonesConversions` is `undefined` or `null`, and also when `timezonesConversions` is not an array (it has no `.map`). It throws at line 38 when an entry of the list is `undefined` or `null`. The types `ActionData`, `Option` and `Conversion` cannot represent a non-array list or a missing entry, so those payloads lie outside the model. `None` stands for both `undefined` and `null`, and such payloads fail `HasConversions`. None of these exceptions is modelled as an error result.
- Entries of `timezonesConversions` are modelled with just `locationName` and `time`, as strings. The TypeScript handler's mapping drops any other fields an entry carries, and they are not represented. An entry whose `locationName` or `time` is undefined is not represented either.
- The task-module page `src/app/scripts/timelyMessageExtension/TimelyMessageExtensionAction.tsx` is React UI with theming and Teams SDK calls. It submits `{email}` (lines 84-86), not a conversion list. That payload fails `HasConversions`, so on it the TypeScript handler throws at TimelyMessageExtension.ts line 36. The mismatch between the two files is not reconciled.
- The bot class `src/app/timelyMessageExtensionBot/TimelyMessageExtensionBot.ts` sets up storage, dialog state and activity routing. All of that is host-framework plumbing.
- No time-zone conversion, zone lookup or validation happens in the handler; `time` and `locationName` are opaque strings.

# Audience IQ: the Chat assistant and the Search page

A Dafny model of the two pieces of logic in the Audience IQ dashboard that
compute something:

- **Chat** (`src/pages/Chat.tsx`). `getBotResponse` lower-cases the user's
  text and returns one of four canned answers. The rules are tried in a fixed
  order and the first that fires wins:
  1. "anirudh" **and** "collaborator";
  2. "trending" **and** "genre";
  3. "demographics" **or** "audience";
  4. otherwise the fallback text.

  Around it, `handleSendMessage` and its `setTimeout` callback maintain the
  message log (it opens with the assistant's greeting), the input field and
  the typing indicator.
- **Search** (`src/pages/Search.tsx`). `handleSearch` stores the raw query
  and filters the three-entry `mockEntities` catalogue. An entity is kept
  when its name or one of its tags contains the query, ignoring case; an
  empty query keeps everything. The page also has the type-to-icon and
  type-to-colour switches and the tag list on each card: the first three
  tags and a "+N" badge.

The project has four modules:

- `Text` (`text.dfy`): the JavaScript string operations the pages use.
  - `toLowerCase` is `Lower`, ASCII letters only.
  - `includes` is `Includes`.
  - `trim` is `Trim`, over the ECMAScript white-space and line-terminator
    characters.
- `ChatLog` (`chat_log.dfy`): the message log and reply queue, with their
  invariant. This module does not depend on what the greeting or the answers
  say.
- `Chat` (`chat.dfy`): the four answers, the matcher and the same matcher
  written as an ordered rule table. It also holds the `ChatSession` class, the
  page's state with its `Submit` and `Complete` steps.
- `Search` (`search.dfy`): the catalogue and the filter with its properties,
  the `SearchPage` class with `HandleSearch`, the two classifiers and the
  tag display.

The delayed reply is modelled as two separate steps. `Submit` is the
synchronous part of `handleSendMessage`: it logs the untrimmed text, clears
the field, switches the indicator on and queues the text for a reply.
`Complete` is the timer firing: it logs `getBotResponse` of the oldest queued
text and switches the indicator off.

The queue holds the text captured when the message was sent. The callback
reads the `inputValue` of the render in which the message was sent, so a
reply answers the text that was sent, not whatever the field holds later.

The invariant `Chat.Consistent` (`ChatLog.LogFollows`) says three things:
- the log starts with the greeting;
- the assistant's messages after it are the answers to the user's messages,
  one each and in order;
- the user messages not yet answered are exactly the queued texts.

Both steps preserve the invariant, and both only append to the log.

`handleSendMessage` itself checks only the trimmed input
(`src/pages/Chat.tsx:37`) and does not look at `isTyping`. Only the send
button's `disabled` guard (`src/pages/Chat.tsx:178`) waits for the reply, and
the Enter key calls `handleSendMessage` directly (`src/pages/Chat.tsx:174`).
So a second question can be sent before the first reply arrives, and the
model allows it: the queue can hold more than one text. Each timer switches
the indicator off, even when another reply is still due. The model records
only that the indicator is on when some reply is due.

## Model

| member | source | states |
|---|---|---|
| `Text.LowerChar` | src/pages/Chat.tsx:64 | an ASCII capital moves up by 32 to its small letter, every other character stays, and the result is never a capital |
| `Text.Lower` | src/pages/Chat.tsx:64 | `toLowerCase` keeps the length and lower-cases each character in place |
| `Text.LowerIdempotent` | src/pages/Chat.tsx:64 | lower-casing an already lower-cased text changes nothing |
| `Text.IncludesLoweredPart` | src/pages/Chat.tsx:66 | a keyword written anywhere in a text, in any case, is found by `includes` in the text's lower-cased form |
| `Text.IncludesPrefixOfNeedle` | src/pages/Chat.tsx:70 | a text that contains `t + u` contains `t`, so "genres" satisfies `includes("genre")` |
| `Text.NotIncludesLetter` | src/pages/Search.tsx:47-48 | a needle with a letter that the text lacks in both cases is not found in the lower-cased text |
| `Text.Includes` | src/pages/Chat.tsx:66 | `includes`: the needle occurs at some position of the text; `Text.IncludesLoweredPart`, `Text.IncludesPrefixOfNeedle` and `Text.NotIncludesLetter` state when it holds |
| `Text.Trim` | src/pages/Chat.tsx:37 | `trim()`: leading and then trailing white space removed; `Text.TrimEmptyIff` states when the result is empty |
| `Text.TrimEmptyIff` | src/pages/Chat.tsx:37 | `trim()` gives the empty string exactly when every character is white space |
| `Chat.TopicOf` | src/pages/Chat.tsx:66-78 | the if-chain on the lower-cased input; `Chat.TopicCharacterisation` and `Chat.TopicFollowsRuleTable` state which topic each input gets |
| `Chat.AnswerFor` | src/pages/Chat.tsx:67-78 | the canned text of each topic; `Chat.AnswersDistinct` states the four texts differ |
| `Chat.AnswersDistinct` | src/pages/Chat.tsx:67-78 | the four canned texts are pairwise different strings |
| `Chat.BotResponse` | src/pages/Chat.tsx:63-79 | `getBotResponse` is total and always returns one of the four canned texts |
| `Chat.BotResponseByRule` | src/pages/Chat.tsx:63-79 | each canned text is returned if and only if its rule is the first to fire, and the fallback if and only if no rule fires |
| `Chat.TopicCharacterisation` | src/pages/Chat.tsx:66-78 | each answer is chosen if and only if its rule is the first to fire; the fallback if and only if no rule fires |
| `Chat.FirstMatchPicksEarliest` | src/pages/Chat.tsx:66-76 | an ordered rule table answers with the earliest rule that fires |
| `Chat.FirstMatchFallsBack` | src/pages/Chat.tsx:78 | when no rule of the table fires, the fallback is returned |
| `Chat.TopicFollowsRuleTable` | src/pages/Chat.tsx:66-78 | the if-chain is first-match evaluation of the table: ("anirudh" and "collaborator"), ("trending" and "genre"), ("demographics"), ("audience"), falling back to the default answer |
| `Chat.BotResponseIgnoresCase` | src/pages/Chat.tsx:63-64 | two inputs that differ only in letter case get the same answer |
| `Chat.BotResponseOfLower` | src/pages/Chat.tsx:64 | lower-casing the input beforehand does not change the answer |
| `Chat.CollaboratorRuleShadowsOthers` | src/pages/Chat.tsx:66-68 | "anirudh" and "collaborator" in any case, in either order and with any text around them, get the collaborator answer, whatever other keywords the text holds |
| `Chat.TrendingGenreQuestion` | src/pages/Chat.tsx:70-72 | "trending" with "genre" or "genres", in any case and with any text around them, get the trending answer unless rule 1 fires |
| `Chat.OneAudienceKeywordSuffices` | src/pages/Chat.tsx:74-76 | either "demographics" or "audience" alone gets the audience answer when rules 1 and 2 do not fire |
| `Chat.NoKeywordLetters` | src/pages/Chat.tsx:78 | a text with no "u" and no "i" in either case contains no keyword and gets the fallback |
| `Chat.ExampleEmptyInput` | src/pages/Chat.tsx:78 | the empty string gets the fallback |
| `Chat.ExampleCollaborator` | src/pages/Chat.tsx:66-68 | "ANIRUDH collaborator" gets the collaborator answer: the test is case-insensitive |
| `Chat.ExampleTopCollaborator` | src/pages/Chat.tsx:19 | the greeting's first suggested question, which has the keywords in reverse order and mixed case, gets the collaborator answer |
| `Chat.ExampleTrending` | src/pages/Chat.tsx:70-72 | "trending genres in India" gets the trending answer |
| `Chat.ExampleAudience` | src/pages/Chat.tsx:74-76 | "Tell me about audience size" gets the audience answer |
| `Chat.ExampleDemographics` | src/pages/Chat.tsx:74-76 | "What are the demographics" gets the audience answer |
| `Chat.ExampleUnrelated` | src/pages/Chat.tsx:78 | "What's the weather today?" gets the fallback |
| `Chat.ExampleLoneKeyword` | src/pages/Chat.tsx:66-78 | "Anirudh" on its own gets the fallback: rule 1 needs both of its keywords |
| `ChatLog.LogAppend` | src/pages/Chat.tsx:46 | appending a message adds its text to its own side's texts and leaves the other side's unchanged |
| `ChatLog.AskKeepsLog` | src/pages/Chat.tsx:39-48 | logging a user message and queueing its text preserves the log invariant |
| `ChatLog.AnswerKeepsLog` | src/pages/Chat.tsx:51-60 | logging the answer to the oldest queued text and dequeuing it preserves the log invariant |
| `Chat.ChatSession.constructor` | src/pages/Chat.tsx:16-25 | the page opens with only the greeting in the log, an empty field, the indicator off and no reply due |
| `Chat.ChatSession.SetInput` | src/pages/Chat.tsx:171 | typing replaces the field and changes nothing else |
| `Chat.ChatSession.Submit` | src/pages/Chat.tsx:36-48 | white-space-only input changes nothing; any other input appends exactly one user message with the untrimmed text, clears the field, switches the indicator on and queues that text, leaving earlier messages as they were, even while a reply is due |
| `Chat.ChatSession.Complete` | src/pages/Chat.tsx:51-60 | appends exactly one assistant message, the answer to the oldest queued text, dequeues it and switches the indicator off, leaving the field as it was |
| `Chat.SendOnFreshPage` | src/pages/Chat.tsx:36-48 | on a fresh page, typing a question that is not all white space and sending it leaves greeting and question in the log, that text queued, the field empty and the indicator on, with the log invariant kept |
| `Chat.AskOnce` | src/pages/Chat.tsx:36-60 | on a fresh page, sending a question and letting the timer fire gives greeting, question, answer; meanwhile the field is cleared and the indicator is on, and afterwards the indicator is off |
| `Chat.CollaboratorSession` | src/pages/Chat.tsx:16-68 | the greeting's suggested question, sent on a fresh page, is answered with the collaborator text |
| `Search.SomeTagMatches` | src/pages/Search.tsx:48 | `entity.tags.some(...)`: some lower-cased tag contains the lower-cased query |
| `Search.Matches` | src/pages/Search.tsx:46-49 | the filter's predicate: the lower-cased name or some lower-cased tag contains the lower-cased query; `Search.FilterMembership` ties it to the results |
| `Search.SearchResults` | src/pages/Search.tsx:45-53 | the results `handleSearch` stores for a query; `Search.SearchResultsAreFiltered` and `Search.FilterCatalogue` state what they are |
| `Search.FilterEntities` | src/pages/Search.tsx:46-49 | the filter never returns more entities than it is given |
| `Search.FilterMembership` | src/pages/Search.tsx:46-49 | an entity is in the results if and only if it is in the list and its lower-cased name or one of its lower-cased tags contains the lower-cased query |
| `Search.FilterCounts` | src/pages/Search.tsx:46-50 | a matching entity occurs in the results as often as in the list and a non-matching one never does, so nothing is added or duplicated |
| `Search.FilterIsSubsequence` | src/pages/Search.tsx:46-50 | the results are the list with some entries left out, the rest in their original order |
| `Search.FilterAddsNothing` | src/pages/Search.tsx:46-50 | no entity occurs in the results more often than in the list |
| `Search.SubsequenceCounts` | src/pages/Search.tsx:46-50 | a subsequence holds no element more often than its source |
| `Search.FilterIgnoresQueryCase` | src/pages/Search.tsx:47-48 | queries that differ only in letter case give the same results |
| `Search.FilterEmptyQuery` | src/pages/Search.tsx:45-52 | the empty query matches every entity, so the filter alone would return the whole list |
| `Search.SearchResultsAreFiltered` | src/pages/Search.tsx:45-53 | whichever branch runs, the stored results are the catalogue filtered by the query, and the whole catalogue for the empty query |
| `Search.NoMatchWithout` | src/pages/Search.tsx:46-49 | an entity whose name and tags lack, in both cases, a letter of the query is not kept |
| `Search.NolanLacks` | src/pages/Search.tsx:11-15 | the first catalogue entry has no "y" and no "g" in its name or tags |
| `Search.SwiftLacks` | src/pages/Search.tsx:20-24 | the second catalogue entry has no "h" and no "x" in its name or tags |
| `Search.InceptionLacks` | src/pages/Search.tsx:29-33 | the third catalogue entry has no "y" and no "g" in its name or tags |
| `Search.FilterCatalogue` | src/pages/Search.tsx:8-53 | the stored results for a query are each of the three entries that matches it, in catalogue order |
| `Search.ExampleSearchByName` | src/pages/Search.tsx:100 | the popular search "Taylor Swift" finds only that entry |
| `Search.ExampleSearchByTag` | src/pages/Search.tsx:46-49 | "thriller" finds the two entries tagged "Thriller", in catalogue order |
| `Search.ExampleSearchNoResults` | src/pages/Search.tsx:100 | the popular search "Netflix Originals" finds nothing and shows the "No results" panel |
| `Search.ShowsNoResults` | src/pages/Search.tsx:195 | the panel's condition: no results and a non-empty query; `Search.NoResultsIff` states when it holds |
| `Search.SearchPage.NoResultsShown` | src/pages/Search.tsx:195 | while the results belong to the query, the panel is rendered exactly when the query is not empty and no entity matches it |
| `Search.NoResultsIff` | src/pages/Search.tsx:195 | the "No results" panel shows exactly when the query is not empty and no entity matches it |
| `Search.SearchPage.constructor` | src/pages/Search.tsx:39-40 | the page opens with an empty query and the whole catalogue as results |
| `Search.SearchPage.HandleSearch` | src/pages/Search.tsx:43-54 | the raw query is stored on every call; the results become the catalogue filtered by it, or the whole catalogue when it is empty; the panel shows exactly when a non-empty query matches nothing |
| `Search.EntityIcon` | src/pages/Search.tsx:56-63 | `getEntityIcon`; `Search.EntityIconCases` states which types share an icon |
| `Search.TypeColor` | src/pages/Search.tsx:65-72 | `getTypeColor`; `Search.TypeColorCases` states that the known types get distinct colours |
| `Search.EntityIconCases` | src/pages/Search.tsx:56-63 | filmmakers and movies share the film icon, musicians get the music icon, and every other type gets the book icon |
| `Search.TypeColorCases` | src/pages/Search.tsx:65-72 | the three known types get three different colours, and the default colour goes exactly to unknown types |
| `Search.VisibleTags` | src/pages/Search.tsx:164 | `tags.slice(0, 3)`; `Search.TagDisplayAccountsForEveryTag` states what it keeps |
| `Search.TagBadge` | src/pages/Search.tsx:169-173 | the "+N" badge; `Search.TagDisplayAccountsForEveryTag` states when it shows and its number |
| `Search.TagDisplayAccountsForEveryTag` | src/pages/Search.tsx:164-173 | a card shows exactly the first `min(3, tags.length)` tags, in order; the badge appears exactly when there are more than three tags, and then reads `tags.length - 3`, so the shown tags plus its number count every tag |
| `Search.MockCardsHideOneTag` | src/pages/Search.tsx:164-173 | every catalogue card shows three tags and a "+1" badge |

## Left out

- Rendering (JSX, CSS classes, avatars, the card grid) and the auto-scroll effect in `src/pages/Chat.tsx`: presentation only.
- The 1500 ms delay of the reply: time is not modelled. The timer is the separate `Complete` step, and pending timers fire in the order they were set.
- Message ids, timestamps and their formatting: they come from the clock, and message identity does not depend on them in the model.
- `toLowerCase` is modelled on ASCII letters only. Other letters, whose lower-case forms Unicode defines, are left as they are.
- The send button's `disabled` guard: it only greys out the button, and the Enter key bypasses it. `Submit` is the function it would call.
- Clicking a card (`selectedEntity`) and the "View Insights" button: they set state that nothing on the page reads.
- The entities' images, descriptions and popularity are carried as data; nothing on the page computes with them.
- The other pages, the router and the sidebar are not part of this model.

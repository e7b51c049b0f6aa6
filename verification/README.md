# Auth category walkthrough — a Dafny model

This project models the heart of the Amplify CLI's `add auth` and `update auth`
walkthrough: `serviceWalkthrough` in
`packages/amplify-category-auth/provider-utils/awscloudformation/service-walkthroughs/auth-questions.js`
and the helpers it calls. The model covers:

- the question loop. It asks the questions of the category catalog in order and
  skips some of them during an update. It can repeat a question after a
  "learn more" answer. It gathers "add another" answers into arrays. It
  rewrites the update context's arrays for iterator questions. It turns the
  update-flow and default choices into `useDefault`, `hostedUI` and
  `authSelections`;
- the preparation of an update (`handleUpdates`). Previous triggers are pushed,
  the stored OAuth metadata is expanded (`parseOAuthMetaData`), and the hosted
  UI credentials are recovered from the environment's parameters
  (`parseOAuthCreds`);
- the post-loop pipeline, in the order the code runs it:
  - the identity pool options are dropped for a user-pool-only update;
  - the identity pool providers and audiences are formatted;
  - the trigger answers are grouped, merged with the previous triggers in a
    manual flow, handed to the trigger collaborators, and turned into
    dependencies;
  - the hosted UI provider metadata and credentials are produced;
  - the OAuth metadata is assembled;
  - a single username attribute is normalised;
- `filterInput`, the update-mode skip test.

JavaScript values are modelled by `JsValues.Value`. JSON text is a typed value
`Json(v)`: `JSON.stringify` wraps and `JSON.parse` unwraps. Objects keep their
insertion order as entry lists, because the code reads `Object.keys(...)[0]`
and serialises objects. Answer sets are Dafny maps. A mutation of
`coreAnswers` or `context.updatingAuth` becomes a new value that is threaded on.
`Object.assign(context.updatingAuth, coreAnswers)` becomes
`updating := updating + core` at each place it happens. Loops become methods
proved equal to specification functions. The properties are then proved about
those functions.

Two behaviours of the code are kept as written.

- When the update-mode skip fires (lines 29-34), the question read before the
  skip is still the one asked. The following question is the one jumped over.
- When previous triggers are merged with new ones (lines 173-180), the code
  keeps `uniq(new.concat(previous))`: new functions first, then the previous
  ones not already present (`JsValues.UniqExtends`). The model follows this order, not a
  previous-first description of the merge.

Collaborators are parameters:

- the prompts, as a script of answer records;
- the project frontend;
- the provider tables of `string-maps`;
- the category defaults;
- `loadEnvResourceParameters`;
- `triggerFlow`;
- `createTrigger`.

## Model

Every source cell is a path relative to the repository root, with line
numbers in `auth-questions.js`.

| member | source | states |
|---|---|---|
| Questions.FilterInputMeaning | packages/amplify-category-auth/provider-utils/awscloudformation/service-walkthroughs/auth-questions.js:404-409 | a question is filtered out exactly when it has update groups, none of them is `manual`, and none strictly equals the update flow's `type` (an undefined flow is excluded because reading its `type` throws) |
| Questions.IncludesStrs | packages/amplify-category-auth/provider-utils/awscloudformation/service-walkthroughs/auth-questions.js:405 | `groups.includes(x)` holds exactly when some group name is strictly equal to `x` |
| Walkthrough.Step | packages/amplify-category-auth/provider-utils/awscloudformation/service-walkthroughs/auth-questions.js:26-127 | one loop iteration consumes at least one scripted answer and never more than exist, keeps the catalog length, and keeps the presence of an update context |
| Walkthrough.Run | packages/amplify-category-auth/provider-utils/awscloudformation/service-walkthroughs/auth-questions.js:25-128 | a finished loop has its cursor at or past the end of the catalog, consumed only scripted answers, and kept the presence of an update context |
| Walkthrough.RunFirst | packages/amplify-category-auth/provider-utils/awscloudformation/service-walkthroughs/auth-questions.js:25-128 | an iteration that succeeds leaves the rest of the loop to run from the session it produced |
| Walkthrough.RunFirstFails | packages/amplify-category-auth/provider-utils/awscloudformation/service-walkthroughs/auth-questions.js:25-128 | an iteration that throws, or whose prompt fails, ends the loop with that error |
| Walkthrough.QuestionLoop | packages/amplify-category-auth/provider-utils/awscloudformation/service-walkthroughs/auth-questions.js:25-128 | the `while` loop over the questions computes exactly `Run` from the starting session |
| Walkthrough.AskNext | packages/amplify-category-auth/provider-utils/awscloudformation/service-walkthroughs/auth-questions.js:26-127 | the loop body (skip test, prompt, branch on the answer) computes exactly one `Step` |
| Walkthrough.AnswerIterator | packages/amplify-category-auth/provider-utils/awscloudformation/service-walkthroughs/auth-questions.js:59-77 | the iterator branch computes the `Step` of an iterator answer |
| Walkthrough.AnswerAddAnother | packages/amplify-category-auth/provider-utils/awscloudformation/service-walkthroughs/auth-questions.js:79-101 | the add-another branch computes the `Step` of an add-another answer |
| Walkthrough.AnswerUpdateFlow | packages/amplify-category-auth/provider-utils/awscloudformation/service-walkthroughs/auth-questions.js:102-115 | the update-flow branch computes the `Step` of an update-flow answer |
| Walkthrough.AnswerDefault | packages/amplify-category-auth/provider-utils/awscloudformation/service-walkthroughs/auth-questions.js:116-123 | the fresh-default branch computes the `Step` of a default choice |
| Walkthrough.ReplaceEach | packages/amplify-category-auth/provider-utils/awscloudformation/service-walkthroughs/auth-questions.js:63-76 | the replacements take one prompt per selected item; the result is an array; a non-empty array keeps its length; an empty array given selections ends with one element |
| Walkthrough.ReplaceSelected | packages/amplify-category-auth/provider-utils/awscloudformation/service-walkthroughs/auth-questions.js:63-76 | the `for` loop of `splice(indexOf(item), 1, updated)` calls computes `ReplaceEach` |
| Walkthrough.StepNoAnswer | packages/amplify-category-auth/provider-utils/awscloudformation/service-walkthroughs/auth-questions.js:47 | a question asked when no answer is left fails the walkthrough with a prompt failure |
| Walkthrough.StepLearnMore | packages/amplify-category-auth/provider-utils/awscloudformation/service-walkthroughs/auth-questions.js:50-52 | a "learn" answer on a question with help text sets the help text as the question's prefix and changes nothing else |
| Walkthrough.StepIterateUnset | packages/amplify-category-auth/provider-utils/awscloudformation/service-walkthroughs/auth-questions.js:63 | an iterator answer outside update mode throws a type error (no update context to read) |
| Walkthrough.StepIterate | packages/amplify-category-auth/provider-utils/awscloudformation/service-walkthroughs/auth-questions.js:59-77 | an iterator answer in update mode replaces the update context's array, switches the question to its iterator validation, and moves past the question |
| Walkthrough.StepAddAnother | packages/amplify-category-auth/provider-utils/awscloudformation/service-walkthroughs/auth-questions.js:79-101 | an add-another answer is wrapped in a new array or pushed onto the existing one (a non-array throws), and the confirmation decides between asking again and moving on |
| Walkthrough.AddAnotherTurnEnds | packages/amplify-category-auth/provider-utils/awscloudformation/service-walkthroughs/auth-questions.js:79-101 | the add-another turn fails when accumulation throws or no confirmation is left, and otherwise stays on the question or moves past it as the confirmation says |
| Walkthrough.StepUpdateFlow | packages/amplify-category-auth/provider-utils/awscloudformation/service-walkthroughs/auth-questions.js:102-115 | an update-flow answer is merged through `UpdateFlowMerge` and the loop moves on |
| Walkthrough.StepFreshDefault | packages/amplify-category-auth/provider-utils/awscloudformation/service-walkthroughs/auth-questions.js:116-123 | a default choice outside update mode is merged through `DefaultMerge` and the loop moves on |
| Walkthrough.StepPlain | packages/amplify-category-auth/provider-utils/awscloudformation/service-walkthroughs/auth-questions.js:124-127 | any other answer is merged over the answers and the loop moves on |
| Walkthrough.Steps | packages/amplify-category-auth/provider-utils/awscloudformation/service-walkthroughs/auth-questions.js:26-127 | a run of n iterations consumes only scripted answers |
| Walkthrough.RunSteps | packages/amplify-category-auth/provider-utils/awscloudformation/service-walkthroughs/auth-questions.js:25-128 | running n iterations and then the loop gives the same result as running the loop |
| Walkthrough.PlainStep | packages/amplify-category-auth/provider-utils/awscloudformation/service-walkthroughs/auth-questions.js:25-128 | outside update mode, a question with no help text, no iterator and no add-another loop that is not `updateFlow` takes one prompt, is recorded as asked and moves the cursor to the next entry |
| Walkthrough.PlainRun | packages/amplify-category-auth/provider-utils/awscloudformation/service-walkthroughs/auth-questions.js:25-128 | a loop that succeeds from such a question had a prompt for it and continues from the next entry with the same result |
| Walkthrough.VisitsInOrder | packages/amplify-category-auth/provider-utils/awscloudformation/service-walkthroughs/auth-questions.js:25-128 | on a catalog of such questions outside update mode, a finished loop has asked every remaining question exactly once, in catalog order, taking one prompt each |
| Walkthrough.StepsFirst | packages/amplify-category-auth/provider-utils/awscloudformation/service-walkthroughs/auth-questions.js:26-127 | n+1 iterations are a successful first iteration followed by n more |
| Walkthrough.SkipStillAsks | packages/amplify-category-auth/provider-utils/awscloudformation/service-walkthroughs/auth-questions.js:27-34 | when the update-mode skip fires, the question read before it is still asked, and a question that moves on jumps two places |
| Walkthrough.NoSkipAdvancesByOne | packages/amplify-category-auth/provider-utils/awscloudformation/service-walkthroughs/auth-questions.js:26-127 | without the skip, every answer other than learn-more and add-another moves to the next question |
| Walkthrough.LearnMoreRepeats | packages/amplify-category-auth/provider-utils/awscloudformation/service-walkthroughs/auth-questions.js:50-52 | a learn-more answer asks the same question again with the help text as prefix; the answers, update context and other questions are unchanged |
| Walkthrough.AddAnotherRound | packages/amplify-category-auth/provider-utils/awscloudformation/service-walkthroughs/auth-questions.js:87-101 | on an array answer, one round pushes the new value and repeats or moves on by the confirmation |
| Walkthrough.AddAnotherExtends | packages/amplify-category-auth/provider-utils/awscloudformation/service-walkthroughs/auth-questions.js:79-101 | n confirmed rounds and a final declined one append all n+1 submitted values, in order, to an existing array, then move to the next question |
| Walkthrough.AddAnotherCollects | packages/amplify-category-auth/provider-utils/awscloudformation/service-walkthroughs/auth-questions.js:79-101 | starting from no answer, the question collects every submitted value in order into one array of n+1 entries and then moves on |
| Walkthrough.ReplaceEachKeeps | packages/amplify-category-auth/provider-utils/awscloudformation/service-walkthroughs/auth-questions.js:63-76 | after replacement, every array element is either the original element at its place or one of the values entered |
| Walkthrough.IteratorReplaces | packages/amplify-category-auth/provider-utils/awscloudformation/service-walkthroughs/auth-questions.js:59-77 | the iterator rewrites only the named array of the update context, keeps its length when non-empty, fills it with original or entered values, leaves the answers alone and moves on by one |
| Walkthrough.UpdateFlowRemap | packages/amplify-category-auth/provider-utils/awscloudformation/service-walkthroughs/auth-questions.js:102-115 | a manual or default choice becomes `useDefault` and is not merged as `updateFlow`; the social default turns the hosted UI on; any other choice is merged as given |
| Walkthrough.DefaultRemap | packages/amplify-category-auth/provider-utils/awscloudformation/service-walkthroughs/auth-questions.js:116-123 | a default choice outside update mode selects both pools and, for the social default, the hosted UI; every other answer is merged as given |
| Updates.ExpandOAuthMetaData | packages/amplify-category-auth/provider-utils/awscloudformation/service-walkthroughs/auth-questions.js:368-373 | without stored metadata the previous answers are unchanged; with it, expansion succeeds exactly when the text parses and removes `oAuthMetadata` |
| Updates.ExpandOAuthMetaDataFields | packages/amplify-category-auth/provider-utils/awscloudformation/service-walkthroughs/auth-questions.js:368-373 | each field of the stored object replaces the previous answer of that name; other answers are kept |
| Updates.FindProvider | packages/amplify-category-auth/provider-utils/awscloudformation/service-walkthroughs/auth-questions.js:385-386 | `find` returns an entry naming the provider, or undefined when no entry does; it throws only on an undefined entry |
| Updates.FindProviderFirst | packages/amplify-category-auth/provider-utils/awscloudformation/service-walkthroughs/auth-questions.js:385-386 | `find` returns the first entry naming the provider: every entry before it is defined and names another |
| Updates.FindProviderThrows | packages/amplify-category-auth/provider-utils/awscloudformation/service-walkthroughs/auth-questions.js:385-386 | `find` throws exactly when an undefined entry comes before any entry naming the provider |
| Updates.CredKeysDisjoint | packages/amplify-category-auth/provider-utils/awscloudformation/service-walkthroughs/auth-questions.js:387-389 | the three keys written for one provider name never collide with those of another |
| Updates.ProviderKeys | packages/amplify-category-auth/provider-utils/awscloudformation/service-walkthroughs/auth-questions.js:384-392 | one provider's turn writes its id, secret and comma-split scopes; it touches no other provider's keys; when the metadata entry is missing it keeps the id and secret already written and no scopes |
| Updates.CollectKeysResolve | packages/amplify-category-auth/provider-utils/awscloudformation/service-walkthroughs/auth-questions.js:378-398 | with distinct provider names, every provider found in both documents ends with its id, its secret and its split scopes, whatever the other providers do |
| Updates.ParseOAuthCreds | packages/amplify-category-auth/provider-utils/awscloudformation/service-walkthroughs/auth-questions.js:378-398 | the `forEach` over the providers computes `OAuthCreds`, an empty object when either document does not parse |
| Updates.HandleUpdates | packages/amplify-category-auth/provider-utils/awscloudformation/service-walkthroughs/auth-questions.js:414-437 | the update preparation computes `Prepared` |
| Updates.PreparedEffects | packages/amplify-category-auth/provider-utils/awscloudformation/service-walkthroughs/auth-questions.js:414-437 | outside update mode nothing changes; in update mode, previous triggers are appended to the current ones (a non-array throws), an identity-pool-only configuration selects both pools; without previous triggers the triggers stay as they were, and without an identity-pool-only selection so does `authSelections`; no other answer changes |
| Updates.ProviderKeysKeys | packages/amplify-category-auth/provider-utils/awscloudformation/service-walkthroughs/auth-questions.js:384-392 | one provider's turn keeps every key already written, adds only keys ending in one of the three credential suffixes, and keeps keys distinct |
| Updates.ProviderKeysHas | packages/amplify-category-auth/provider-utils/awscloudformation/service-walkthroughs/auth-questions.js:384-392 | a provider whose documents resolve writes all three of its keys |
| Updates.CollectKeysKeys | packages/amplify-category-auth/provider-utils/awscloudformation/service-walkthroughs/auth-questions.js:378-398 | the object `parseOAuthCreds` builds has distinct keys, each ending in a credential suffix |
| Updates.CollectKeysHas | packages/amplify-category-auth/provider-utils/awscloudformation/service-walkthroughs/auth-questions.js:378-398 | every provider whose documents resolve has its three keys in that object |
| Updates.AssignCredsKeys | packages/amplify-category-auth/provider-utils/awscloudformation/service-walkthroughs/auth-questions.js:423-429 | merging the parsed credentials leaves every key that is not a credential key unchanged and adds no `oAuthMetadata` |
| Updates.AssignCredsResolve | packages/amplify-category-auth/provider-utils/awscloudformation/service-walkthroughs/auth-questions.js:423-429 | merging the parsed credentials sets a resolving provider's id, secret and comma-split scopes |
| Updates.PreparedContext | packages/amplify-category-auth/provider-utils/awscloudformation/service-walkthroughs/auth-questions.js:419-430 | the update context loses `oAuthMetadata` once it is expanded; every key that is not a credential key reads as in the expanded record, or as in the previous configuration when there was no metadata; without user-pool providers the context is the expanded record |
| Updates.PreparedContextFields | packages/amplify-category-auth/provider-utils/awscloudformation/service-walkthroughs/auth-questions.js:419-421 | with metadata serialised from an object with distinct keys, each non-credential key other than `oAuthMetadata` reads as the metadata field of that name, or as before when the metadata has none |
| Updates.PreparedProviderCreds | packages/amplify-category-auth/provider-utils/awscloudformation/service-walkthroughs/auth-questions.js:423-430 | in the update context, a listed provider with a distinct name whose metadata and credentials resolve has its client id, its client secret and its comma-split scopes |
| IdentityPool.JoinedText | packages/amplify-category-auth/provider-utils/awscloudformation/service-walkthroughs/auth-questions.js:249-253 | a text value gets each further answer appended after a `;`, in order |
| IdentityPool.IdentityPoolProviders | packages/amplify-category-auth/provider-utils/awscloudformation/service-walkthroughs/auth-questions.js:236-265 | the `forEach` over the provider table computes `WithIdentityPoolProviders` |
| IdentityPool.PartiesFailure | packages/amplify-category-auth/provider-utils/awscloudformation/service-walkthroughs/auth-questions.js:238-255 | the first descriptor that throws ends the step with its error |
| IdentityPool.PartiesSelect | packages/amplify-category-auth/provider-utils/awscloudformation/service-walkthroughs/auth-questions.js:238-255 | a descriptor that applies and was answered maps to its joined answer; one that does not apply (the Google client id on a native project) or was not answered has no entry |
| IdentityPool.PartiesKeys | packages/amplify-category-auth/provider-utils/awscloudformation/service-walkthroughs/auth-questions.js:238-255 | every entry of `selectedParties` is named after a descriptor of the table |
| IdentityPool.AudiencesRule | packages/amplify-category-auth/provider-utils/awscloudformation/service-walkthroughs/auth-questions.js:256-264 | `selectedParties` is the serialised selection; a native project using Google gets the client id plus the iOS or Android id as audiences; otherwise audiences are unchanged; nothing else changes |
| Triggers.GroupedFailure | packages/amplify-category-auth/provider-utils/awscloudformation/service-walkthroughs/auth-questions.js:154-164 | the first trigger answer that throws ends the grouping with its error |
| Triggers.GroupTriggers | packages/amplify-category-auth/provider-utils/awscloudformation/service-walkthroughs/auth-questions.js:152-165 | the `for` loop over the trigger answers computes `Grouped` |
| Triggers.GroupedCollects | packages/amplify-category-auth/provider-utils/awscloudformation/service-walkthroughs/auth-questions.js:152-165 | on single-event answers the grouping succeeds; an event is a key exactly when some answer names it; its value is every function listed for it, in answer order |
| Triggers.GroupOneEvent | packages/amplify-category-auth/provider-utils/awscloudformation/service-walkthroughs/auth-questions.js:154-164 | one single-event answer appends its functions to the event's group, or starts the group when the event is new |
| Triggers.MergedFailure | packages/amplify-category-auth/provider-utils/awscloudformation/service-walkthroughs/auth-questions.js:173-180 | the first previous event that throws ends the merge with its error |
| Triggers.MergePrevious | packages/amplify-category-auth/provider-utils/awscloudformation/service-walkthroughs/auth-questions.js:169-181 | the `forEach` over the previous events computes `MergedWith` |
| Triggers.MergedEvents | packages/amplify-category-auth/provider-utils/awscloudformation/service-walkthroughs/auth-questions.js:173-180 | an event absent from the previous triggers is unchanged; a present one becomes `uniq(new ++ previous)` when it has new functions, and the previous value otherwise |
| Triggers.MergeOneField | packages/amplify-category-auth/provider-utils/awscloudformation/service-walkthroughs/auth-questions.js:173-180 | merging one previous event succeeds on an array or falsy group, changes that event to the merged value and leaves every other event as it was |
| Triggers.DependsOn | packages/amplify-category-auth/provider-utils/awscloudformation/service-walkthroughs/auth-questions.js:197-204 | the `forEach` computes `Dependencies`: one `function` dependency with attributes `Arn` and `Name` per created function, in order |
| Triggers.WithTriggers | packages/amplify-category-auth/provider-utils/awscloudformation/service-walkthroughs/auth-questions.js:151-207 | the trigger step keeps the presence of an update context |
| Triggers.ManualFlow | packages/amplify-category-auth/provider-utils/awscloudformation/service-walkthroughs/auth-questions.js:168-187 | the manual branch computes `ManualTriggers`: previous triggers are merged, then `triggerFlow`'s result is taken when truthy |
| Triggers.ChooseTriggers | packages/amplify-category-auth/provider-utils/awscloudformation/service-walkthroughs/auth-questions.js:152-187 | grouping followed by the manual branch computes `WithTriggersChosen` |
| Triggers.CreateTriggers | packages/amplify-category-auth/provider-utils/awscloudformation/service-walkthroughs/auth-questions.js:189-206 | creation computes `Created`: the collaborator gets the update context merged with the answers, its result is assigned, dependencies are added, and the triggers are serialised |
| Triggers.ConfigureTriggers | packages/amplify-category-auth/provider-utils/awscloudformation/service-walkthroughs/auth-questions.js:151-207 | the whole trigger step computes `WithTriggers` |
| HostedUI.MappedFailure | packages/amplify-category-auth/provider-utils/awscloudformation/service-walkthroughs/auth-questions.js:285-298 | the first attribute that throws ends the mapping with its error |
| HostedUI.MapAttributes | packages/amplify-category-auth/provider-utils/awscloudformation/service-walkthroughs/auth-questions.js:283-298 | the `forEach` over the attributes, with its `push`, `unshift` and map writes, computes `Mapped` |
| HostedUI.MappedTotal | packages/amplify-category-auth/provider-utils/awscloudformation/service-walkthroughs/auth-questions.js:285-298 | for a text provider name the mapping never throws, and each attribute's turn reads the table under the lower-cased name |
| HostedUI.ScopesDistinct | packages/amplify-category-auth/provider-utils/awscloudformation/service-walkthroughs/auth-questions.js:288-290 | the requested scopes hold no duplicates |
| HostedUI.GoogleOpenIdFirst | packages/amplify-category-auth/provider-utils/awscloudformation/service-walkthroughs/auth-questions.js:292-294 | for Google, with at least one attribute, the scopes start with `openid` |
| HostedUI.ScopesRequested | packages/amplify-category-auth/provider-utils/awscloudformation/service-walkthroughs/auth-questions.js:287-294 | a scope is requested exactly when some attribute's table entry asks for it, or it is Google's `openid` |
| HostedUI.ScopesInOrder | packages/amplify-category-auth/provider-utils/awscloudformation/service-walkthroughs/auth-questions.js:288-290 | outside Google the scopes are the requested ones de-duplicated in order of first request |
| HostedUI.GoogleScopesInOrder | packages/amplify-category-auth/provider-utils/awscloudformation/service-walkthroughs/auth-questions.js:287-294 | for Google the scopes are `openid` followed by the other requested scopes de-duplicated in order of first request |
| HostedUI.DedupIsUniq | packages/amplify-category-auth/provider-utils/awscloudformation/service-walkthroughs/auth-questions.js:288-290 | the order-keeping de-duplication used for the scopes is lodash `uniq` on the scope texts |
| HostedUI.MappingLastWins | packages/amplify-category-auth/provider-utils/awscloudformation/service-walkthroughs/auth-questions.js:295-297 | an attribute's mapping is the provider attribute given by its last table entry that names one |
| HostedUI.AttributesForMapping | packages/amplify-category-auth/provider-utils/awscloudformation/service-walkthroughs/auth-questions.js:277 | the required attributes round-trip through JSON and gain `username` at the end; undefined required attributes make the parse throw |
| HostedUI.Metas | packages/amplify-category-auth/provider-utils/awscloudformation/service-walkthroughs/auth-questions.js:280-304 | one metadata entry per provider, in order, and the step fails exactly when some provider's entry does |
| HostedUI.Creds | packages/amplify-category-auth/provider-utils/awscloudformation/service-walkthroughs/auth-questions.js:305-306 | one credentials entry per provider, in order, read from the answers under the lower-cased name; fails exactly when a name is not text |
| HostedUI.MetasFailure | packages/amplify-category-auth/provider-utils/awscloudformation/service-walkthroughs/auth-questions.js:280-304 | the first provider that throws ends the metadata with its error |
| HostedUI.CredsFailure | packages/amplify-category-auth/provider-utils/awscloudformation/service-walkthroughs/auth-questions.js:305-306 | the first provider that throws ends the credentials with its error |
| HostedUI.ProviderMetas | packages/amplify-category-auth/provider-utils/awscloudformation/service-walkthroughs/auth-questions.js:280-304 | the `map` over the providers computes `Metas` |
| HostedUI.ProviderCredentials | packages/amplify-category-auth/provider-utils/awscloudformation/service-walkthroughs/auth-questions.js:305-306 | the `map` over the providers computes `Creds` |
| HostedUI.WithUserPoolProviders | packages/amplify-category-auth/provider-utils/awscloudformation/service-walkthroughs/auth-questions.js:272-309 | the default choice changes nothing; otherwise only `hostedUIProviderMeta` and `hostedUIProviderCreds` change; the presence of an update context is kept |
| HostedUI.UserPoolProviders | packages/amplify-category-auth/provider-utils/awscloudformation/service-walkthroughs/auth-questions.js:210-214 | the hosted UI step, run when user pool providers were chosen, computes `WithUserPoolProviders` |
| HostedUI.HostedUIRoundTrip | packages/amplify-category-auth/provider-utils/awscloudformation/service-walkthroughs/auth-questions.js:280-306 | reading the stored metadata and credentials back as a later update does gives every provider its id, its secret and its joined scopes split on commas |
| HostedUI.ScopesComeBack | packages/amplify-category-auth/provider-utils/awscloudformation/service-walkthroughs/auth-questions.js:299-303 | the comma split on read-back restores Facebook's scopes, but gives other providers' space-joined scopes back as one element |
| OAuth.MergedUrls | packages/amplify-category-auth/provider-utils/awscloudformation/service-walkthroughs/auth-questions.js:327-336 | new URLs are appended to known ones or replace missing ones; no new URLs keeps the known ones; a known value with no `concat` throws |
| OAuth.WithOAuthMetadata | packages/amplify-category-auth/provider-utils/awscloudformation/service-walkthroughs/auth-questions.js:314-363 | the default update choice only drops the stored metadata; otherwise the step fails exactly when the settings do, absorbs the answers into the update context, and writes the metadata only once all four settings are present; no other answer changes |
| OAuth.FlowsAsList | packages/amplify-category-auth/provider-utils/awscloudformation/service-walkthroughs/auth-questions.js:338-351 | with both kinds of URL, a single flow is wrapped in an array, missing flows and scopes come from the defaults, and given ones are kept |
| OAuth.NoUrlsNoDefaults | packages/amplify-category-auth/provider-utils/awscloudformation/service-walkthroughs/auth-questions.js:338-353 | without both kinds of URL the defaults are not used and no metadata is written |
| OAuth.MetadataRoundTrip | packages/amplify-category-auth/provider-utils/awscloudformation/service-walkthroughs/auth-questions.js:353-359 | the stored metadata expands back, on a later update, into the same four settings |
| Service.WithoutIdentityPool | packages/amplify-category-auth/provider-utils/awscloudformation/service-walkthroughs/auth-questions.js:133-143 | a user-pool-only choice removes exactly the nine identity pool options from the update context and keeps the rest |
| Service.WithUsernameAttributes | packages/amplify-category-auth/provider-utils/awscloudformation/service-walkthroughs/auth-questions.js:219-225 | `username` removes the attribute; other text becomes a one-element array; only `usernameAttributes` changes; a truthy result is an array |
| Service.AfterLoop | packages/amplify-category-auth/provider-utils/awscloudformation/service-walkthroughs/auth-questions.js:133-225 | the post-loop steps, when they succeed, leave no lone username attribute and keep the presence of an update context |
| Service.FinishWalkthrough | packages/amplify-category-auth/provider-utils/awscloudformation/service-walkthroughs/auth-questions.js:133-225 | the post-loop statements, with their early returns on a thrown error, compute `AfterLoop` |
| Service.ServiceWalkthrough | packages/amplify-category-auth/provider-utils/awscloudformation/service-walkthroughs/auth-questions.js:8-230 | the walkthrough computes `Walk`: preparation, question loop and post-loop steps, in the code's order |
| Service.WalkUsernameAttributes | packages/amplify-category-auth/provider-utils/awscloudformation/service-walkthroughs/auth-questions.js:219-230 | the walkthrough never returns a lone username attribute: a truthy one is an array |
| Service.WalkWithoutUpdate | packages/amplify-category-auth/provider-utils/awscloudformation/service-walkthroughs/auth-questions.js:8-230 | outside update mode no update context is created along the way |
| JsValues.UniqSpec | packages/amplify-category-auth/provider-utils/awscloudformation/service-walkthroughs/auth-questions.js:175-176 | `uniq` leaves no two strictly equal values and keeps a copy of every value |
| JsValues.UniqCovers | packages/amplify-category-auth/provider-utils/awscloudformation/service-walkthroughs/auth-questions.js:175-176 | a value equal to some input value is equal to one that `uniq` keeps |
| JsValues.UniqExtends | packages/amplify-category-auth/provider-utils/awscloudformation/service-walkthroughs/auth-questions.js:175-176 | `uniq(xs.concat(ys))` starts with `uniq(xs)`, and every value after that prefix comes from `ys` and equals nothing in `xs` |
| JsValues.UniqDistinct | packages/amplify-category-auth/provider-utils/awscloudformation/service-walkthroughs/auth-questions.js:175-176 | on values no two of which are equal, `uniq` returns its input unchanged |
| JsValues.SplitJoin | packages/amplify-category-auth/provider-utils/awscloudformation/service-walkthroughs/auth-questions.js:389 | splitting on a separator that no part contains undoes joining with it |
| JsValues.ParseStringify | packages/amplify-category-auth/provider-utils/awscloudformation/service-walkthroughs/auth-questions.js:277 | parsing the JSON text of a defined value gives the value back |

## Left out

- Numbers and `null` are not values of the model. Nothing in the walkthrough's own logic depends on them.
- `JSON.parse` succeeds only on text the model serialised. Any other text is treated as malformed.
- `JSON.stringify` dropping undefined object members, and turning undefined array items into `null`, are not modelled.
- Lower-casing is ASCII-only.
- Arrays and objects are compared by reference in the code. The model treats two of them as never strictly equal.
- Arrays shared between the answers and the update context after `Object.assign` are treated as copies. A later in-place `push` on one is not seen through the other.
- JavaScript's ordering of integer-like object keys, and keys inherited from `Object.prototype`, are not modelled.
- The work done before the prompt is not modelled: `parseInputs`, `inputValidation`, and the `chalk` colouring of the help text. Only the help text itself is modelled.
- A step that throws returns only its error. The partially updated answers it leaves behind are not returned.
- `lambdaFlow` (lines 443-447) is the `triggerFlow` parameter. `createTrigger`, `loadEnvResourceParameters`, `getAllDefaults`/`getProjectDetails` and `getProjectConfig` are parameters too. The `string-maps` tables (`authProviders`, `attributeProviderMap`) are passed in as data.
- Walkthrough.AddAnotherCollects: stated for a first answer that does not carry `updateFlow` during an update, so that the skip test keeps its value across the rounds.
- Walkthrough.VisitsInOrder: stated for catalogs of questions that take none of the special branches (help text, iterator, add-another loop, `updateFlow`) and outside update mode. The special branches are covered by their own lemmas.
- Triggers.WithTriggers: its own contract only keeps the presence of the update context. The trigger contents are stated by `GroupedCollects`, `MergedEvents`, `DependsOn` and `CreateTriggers`.

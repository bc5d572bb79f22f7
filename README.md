# Laravel sandbox: verified model of its rule-carrying units

This project is a Dafny model of the parts of a small Laravel application that carry rules. It has two sides.

**Server side (PHP)**
- The notification status state machine and the priority enum with its manager.
- Mail envelope resolution in the base mailable: address normalisation, the debug redirect, the subject prefix, defaults and the envelope option lookup.
- The base form component's parameter validator and its option preparation.
- Three small components: form method spoofing, button format classes and video iframe orientation.
- The e-mail notification default-merge.

**Client side (JavaScript)**
- The Stardust plugin registry: descriptor lifecycle, orchestrator and event emitter.
- The jQuery helpers in `plugins.js`: `$.ns`, `$.mapify`, `escapeHtml`, the `numberOnly` rule and the `tabIdent` indent transform.

**Modelling choices**
- Code that updates objects in place is modelled as classes with `modifies` frames: the two enum managers, the component initialiser, the descriptor, the orchestrator, the event emitter, and the input and textarea fields that the two jQuery handlers change.
- Each such method is proved against a pure function of the old state.
- Expression-style code is modelled as functions, with lemmas for round trips, idempotence and injectivity.
- PHP strings are `seq<char>`. PHP truthiness treats `""` and `"0"` as falsy. `trim` strips PHP's default character set.
- `config()` values, the adapters' effects, `Arr::toCssClasses` and the dimensions DOMDocument extracts are all parameters of the model.
- One module per source file, plus two shared ones:
  - `Wrappers`: Option and Result.
  - `PhpValues`: PHP arrays as key/value sequences, truthiness, `trim`, `explode`/`implode` and `strtoupper`.

## Model

| member | source | states |
|---|---|---|
| NotificationStatus.TryFrom | app/Enums/NotificationStatus.php:4-8 | a backing value maps back to the case that carries it, and an unknown string to none |
| NotificationStatus.BackingValueRoundTrip | app/Enums/NotificationStatus.php:4-8 | `tryFrom` of a case's backing value gives that case |
| NotificationStatus.Label | app/Enums/NotificationStatus.php:10-17 | every case has a non-empty label |
| NotificationStatus.LabelInjective | app/Enums/NotificationStatus.php:10-17 | distinct cases have distinct labels |
| NotificationStatus.Step | app/Enums/NotificationStatus.php:27-37 | a transition fires only from PENDING, to its target; otherwise the state is unchanged; the result is never PENDING |
| NotificationStatus.StepIdempotent | app/Enums/NotificationStatus.php:27-37 | applying a transition twice equals applying it once |
| NotificationStatus.TerminalStaysPut | app/Enums/NotificationStatus.php:27-37 | from SENT or FAILED no sequence of transitions changes the state |
| NotificationStatus.FirstTransitionWins | app/Enums/NotificationStatus.php:27-37 | from PENDING, the first transition decides the final state, and no transition returns to PENDING |
| NotificationStatus.NotificationStatusManager.constructor | app/Enums/NotificationStatus.php:23-25 | the manager starts in the given state |
| NotificationStatus.NotificationStatusManager.ToSent | app/Enums/NotificationStatus.php:27-31 | PENDING becomes SENT; any other state is left as it was |
| NotificationStatus.NotificationStatusManager.ToFailed | app/Enums/NotificationStatus.php:33-37 | PENDING becomes FAILED; any other state is left as it was |
| NotificationStatus.NotificationStatusManager.GetState | app/Enums/NotificationStatus.php:39-41 | returns the current state |
| PriorityStates.BackingValue | app/Enums/PriorityStates.php:4-10 | every backing value lies in 1..5 |
| PriorityStates.TryFrom | app/Enums/PriorityStates.php:4-10 | an integer maps to a case exactly when it is in 1..5, and to the case that carries it |
| PriorityStates.BackingValuesInOrder | app/Enums/PriorityStates.php:6-10 | URGENT < HIGH < NORMAL < LOW < BULK by backing value |
| PriorityStates.BackingValueRoundTrip | app/Enums/PriorityStates.php:4-10 | `tryFrom` of a case's backing value gives that case |
| PriorityStates.Label | app/Enums/PriorityStates.php:12-21 | every case has a non-empty label |
| PriorityStates.LabelInjective | app/Enums/PriorityStates.php:12-21 | distinct cases have distinct labels |
| PriorityStates.LastSetterWins | app/Enums/PriorityStates.php:31-53 | after a sequence of setters the priority is the last one set, or the constructor argument if none was called |
| PriorityStates.SetterIdempotent | app/Enums/PriorityStates.php:31-49 | calling a setter twice equals calling it once |
| PriorityStates.PriorityStatesManager.constructor | app/Enums/PriorityStates.php:27-29 | the manager starts with the given priority |
| PriorityStates.PriorityStatesManager.ToUrgent | app/Enums/PriorityStates.php:31-33 | sets URGENT, whatever the current priority |
| PriorityStates.PriorityStatesManager.ToHigh | app/Enums/PriorityStates.php:35-37 | sets HIGH, whatever the current priority |
| PriorityStates.PriorityStatesManager.ToNormal | app/Enums/PriorityStates.php:39-41 | sets NORMAL, whatever the current priority |
| PriorityStates.PriorityStatesManager.ToLow | app/Enums/PriorityStates.php:43-45 | sets LOW, whatever the current priority |
| PriorityStates.PriorityStatesManager.ToBulk | app/Enums/PriorityStates.php:47-49 | sets BULK, whatever the current priority |
| PriorityStates.PriorityStatesManager.GetPriority | app/Enums/PriorityStates.php:51-53 | returns the current priority |
| PhpValues.Trim | app/Mail/BaseMailable.php:174 | `trim` removes exactly the leading and trailing run of PHP's default trim characters |
| PhpValues.BlankIffTrimsToEmpty | app/View/Components/Base/BaseComponent.php:82 | `trim($s) === ''` holds exactly when every character is a trim character |
| PhpValues.TrimIdempotent | app/Mail/BaseMailable.php:174 | trimming twice equals trimming once |
| PhpValues.Explode | app/Mail/BaseMailable.php:174 | `explode` gives at least one piece, and no piece holds the separator |
| PhpValues.ExplodeImplode | app/Mail/BaseMailable.php:174 | exploding undoes imploding when no piece holds the separator |
| PhpValues.ImplodeExplode | app/Mail/BaseMailable.php:174 | imploding the pieces of `explode` with the same separator gives back the input |
| PhpValues.Upper | app/View/Components/Form/Form.php:41 | `strtoupper` upper-cases each ASCII letter in place and keeps the length |
| PhpValues.UpperIsUpper | app/View/Components/Form/Form.php:41 | the result of `strtoupper` is upper case, and upper-casing it again changes nothing |
| PhpValues.Lookup | app/View/Components/Base/BaseComponent.php:166-173 | a key is found exactly when some entry has it, and the value found is that entry's |
| BaseMailable.Filter | app/Mail/BaseMailable.php:177-179 | `array_filter` keeps exactly the truthy elements, and never grows the list |
| BaseMailable.FilterSingleton | app/Mail/BaseMailable.php:174-178 | one element survives exactly when it is truthy |
| BaseMailable.FilterConcat | app/Mail/BaseMailable.php:174-178 | filtering distributes over concatenation, so the survivors keep their relative order |
| BaseMailable.FilterIdempotent | app/Mail/BaseMailable.php:177-179 | filtering a filtered list changes nothing |
| BaseMailable.FilterKeepsTruthy | app/Mail/BaseMailable.php:177-179 | a list of truthy elements is kept whole and in order |
| BaseMailable.TrimAll | app/Mail/BaseMailable.php:174 | `array_map('trim', …)` trims each piece in place |
| BaseMailable.NormalizeEmails | app/Mail/BaseMailable.php:167-182 | an empty input gives []. Every result is truthy. A non-empty string gives exactly the truthy trimmed comma-separated pieces, in order, each non-empty and comma-free. An array input gives exactly its truthy elements, in order |
| BaseMailable.NormalizeIdempotent | app/Mail/BaseMailable.php:167-182 | normalising a normalised list changes nothing |
| BaseMailable.CommaJoinedRoundTrip | app/Mail/BaseMailable.php:173-175 | clean addresses joined by commas normalise back to the same list |
| BaseMailable.GetAddresses | app/Mail/BaseMailable.php:190-196 | one address, without a name, per normalised email, in order |
| BaseMailable.GetFrom | app/Mail/BaseMailable.php:205-211 | sender address and name each fall back to the configured default only when null |
| BaseMailable.GetDebugRecipients | app/Mail/BaseMailable.php:266-281 | the debug recipients are the configured debug list, whatever the original recipients |
| BaseMailable.GetRecipients | app/Mail/BaseMailable.php:220-229 | with debug off the normalised `to`, with debug on the configured debug list |
| BaseMailable.DebugRecipientsIgnoreTo | app/Mail/BaseMailable.php:220-229 | in debug mode the recipients do not depend on `to` |
| BaseMailable.GetSubject | app/Mail/BaseMailable.php:238-246 | the subject is unchanged with debug off, and otherwise prefixed by the configured prefix, "[DEBUG]" by default, and a space |
| BaseMailable.GetTemplateName | app/Mail/BaseMailable.php:120-123 | "default" when no template name was given, the given name otherwise |
| BaseMailable.GetTemplateData | app/Mail/BaseMailable.php:110-118 | the resolved subject, plus blocks, content and metadata as given |
| BaseMailable.ReplyTo | app/Mail/BaseMailable.php:137 | empty when the reply-to is null or falsy, otherwise that one address |
| BaseMailable.Get | app/Mail/BaseMailable.php:148-149 | `Arr::get` finds a value exactly for the ten option keys |
| BaseMailable.Options | app/Mail/BaseMailable.php:135-146 | each option is the value its getter resolves; metadata is the mailable's own and the template data is the resolved one |
| BaseMailable.GetEnvelopeOptions | app/Mail/BaseMailable.php:133-153 | one option's value exactly when the option is named and its value is truthy; the whole options array otherwise |
| BaseMailable.BuildEnvelope | app/Mail/BaseMailable.php:64-76 | the envelope goes to the debug list in debug mode and to the normalised `to` otherwise; cc, bcc, sender, reply-to, subject and metadata are the resolved ones |
| BaseComponent.ResolveCssClasses | app/View/Components/Base/BaseComponent.php:111-120 | a string is kept verbatim and an array converted; any other truthy value fails; a falsy value leaves the property unset |
| BaseComponent.ResolveType | app/View/Components/Base/BaseComponent.php:123-138 | truthy allowed types that are not a non-empty array fail. A non-blank type must be among them. A blank type is left unset. With falsy allowed types the type is copied unchecked |
| BaseComponent.Elements | app/View/Components/Base/BaseComponent.php:152-162 | only arrays and objects (cast to arrays) have elements to walk |
| BaseComponent.ElementsAreValues | app/View/Components/Base/BaseComponent.php:152-162 | the elements walked are the array's or object's values, one per entry, in order |
| BaseComponent.PrepareAll | app/View/Components/Base/BaseComponent.php:164-178 | succeeds exactly when every element has a `value` and a `label`; the result has the same length and order, with each option's value and label unchanged |
| BaseComponent.PreparedOptions | app/View/Components/Base/BaseComponent.php:150-179 | non-array, non-object input fails; otherwise the elements are prepared in order |
| BaseComponent.Component.PrepareOptions | app/View/Components/Base/BaseComponent.php:150-179 | the `foreach` loop returns exactly the prepared options, or the first error |
| BaseComponent.Initialize | app/View/Components/Base/BaseComponent.php:78-145 | a blank name fails first, then a blank label when labels are on, then the CSS, type and options steps in that order, each with its own error. It succeeds exactly when every step does. On success: the name, label, value and the noLabel, required, disabled and readonly flags are as given, the id falls back to the name when falsy, and the CSS, type and options are those of the resolving steps |
| BaseComponent.NoLabelKeepsEmptyLabel | app/View/Components/Base/BaseComponent.php:95-103 | with `noLabel` truthy an empty label is accepted and stored as given |
| BaseComponent.CheckedProps | app/View/Components/Base/BaseComponent.php:106-144 | the CSS, type and options steps run in order, the first failing step's error is returned, and it succeeds exactly when all three do, keeping name, label and noLabel |
| BaseComponent.Component.InitializeBaseProperties | app/View/Components/Base/BaseComponent.php:78-145 | the step-by-step assignments succeed exactly when `Initialize` does; they leave its properties, or return its error |
| BaseComponent.Component.StoreChecked | app/View/Components/Base/BaseComponent.php:106-144 | the state, CSS, type and options steps store the properties or report the error of `Initialize` |
| BaseComponent.Component.StoreCssClasses | app/View/Components/Base/BaseComponent.php:111-120 | stores the resolved CSS classes or reports the error |
| BaseComponent.Component.StoreType | app/View/Components/Base/BaseComponent.php:123-138 | stores the resolved type and allowed types or reports the error |
| BaseComponent.Component.constructor | app/View/Components/Base/BaseComponent.php:37-50 | every optional property starts unset |
| BaseComponent.Construct | app/View/Components/Base/BaseComponent.php:37-63 | construction succeeds exactly when `Initialize` does, with its properties, and otherwise fails with its error |
| Form.TransformMethod | app/View/Components/Form/Form.php:39-42 | PUT, PATCH and DELETE, in any case, give POST; any other method gives its upper-case form; the result is upper case |
| Form.TransformIdempotent | app/View/Components/Form/Form.php:39-42 | transforming a transformed method changes nothing |
| Form.NewForm | app/View/Components/Form/Form.php:18-26 | fails exactly on an empty method (including "0"); otherwise it stores the method and its transformed form |
| Form.NeedsSimulation | app/View/Components/Form/Form.php:44-47 | holds exactly when the upper-cased method is PUT, PATCH or DELETE |
| Form.SimulationMeansPost | app/View/Components/Form/Form.php:24-25 | a component that needs simulation submits as POST, and otherwise as its upper-cased method |
| Button.FormatClass | app/View/Components/Button.php:21-25 | the match accepts exactly inline, block and clean, mapping each to `button-` + format |
| Button.NewButton | app/View/Components/Button.php:15-26 | an empty format fails first; an unmatched trimmed format fails the match; otherwise the class of the trimmed format |
| Button.DefaultIsInline | app/View/Components/Button.php:15 | the default format gives `button-inline` |
| Button.NewButtonInjective | app/View/Components/Button.php:21-25 | distinct accepted formats give distinct classes |
| Button.BlankFormatFailsMatch | app/View/Components/Button.php:17-25 | a whitespace-only format passes the emptiness check but fails the match |
| VideoIframe.IsHorizontalIframe | app/View/Components/VideoIframe.php:55-58 | landscape exactly when strictly wider than high, so a square is not landscape |
| VideoIframe.NewVideoIframe | app/View/Components/VideoIframe.php:20-36 | a blank iframe fails first, then one without dimensions, then one with a missing width or height. With both dimensions it succeeds, and the orientation is that of the dimensions |
| VideoIframe.GetContentClasses | app/View/Components/VideoIframe.php:60-63 | `video-content` for landscape, `short-content` otherwise |
| VideoIframe.SquareIsShort | app/View/Components/VideoIframe.php:55-63 | a square frame gets the portrait container |
| EmailNotificationService.CreateNotification | app/Services/EmailNotificationService.php:6-13 | for non-numeric string keys: the keys are those given plus `name` and `id`, every given entry is kept unchanged, a missing name becomes "", and a missing id becomes the name if set, else "" |
| EmailNotificationService.ExplicitNullKept | app/Services/EmailNotificationService.php:9-12 | an explicit null id survives the merge |
| EmailNotificationService.CreateIdempotent | app/Services/EmailNotificationService.php:9-12 | merging the result again changes nothing |
| StardustDescriptor.Registration | resources/js/Stardust/Descriptor.js:17-33 | a new descriptor is `registered`, with null instance and type, its options as given, and a null context when none is given |
| StardustDescriptor.MarkedInitialized | resources/js/Stardust/Descriptor.js:39-42 | state `initialized` with the given instance, active exactly when it is not null, nothing else changed |
| StardustDescriptor.MarkedDestroyed | resources/js/Stardust/Descriptor.js:47-50 | state `destroyed`, null instance, not active, nothing else changed |
| StardustDescriptor.MarkedFailed | resources/js/Stardust/Descriptor.js:56-59 | state `failed` with the error stored, instance untouched, nothing else changed |
| StardustDescriptor.WithAdapterType | resources/js/Stardust/Descriptor.js:65-67 | only the adapter type changes |
| StardustDescriptor.Descriptor.constructor | resources/js/Stardust/Descriptor.js:17-33 | id, name, element and handlers as configured, with missing handlers null, and the registration lifecycle |
| StardustDescriptor.Descriptor.MarkAsInitialized | resources/js/Stardust/Descriptor.js:39-42 | from any state, the lifecycle becomes the initialized one |
| StardustDescriptor.Descriptor.MarkAsDestroyed | resources/js/Stardust/Descriptor.js:47-50 | from any state, the lifecycle becomes the destroyed one, which is not active |
| StardustDescriptor.Descriptor.MarkAsFailed | resources/js/Stardust/Descriptor.js:56-59 | from any state, the lifecycle becomes the failed one |
| StardustDescriptor.Descriptor.SetAdapterType | resources/js/Stardust/Descriptor.js:65-67 | only the adapter type changes |
| StardustDescriptor.Descriptor.Apply | resources/js/Stardust/Orchestrator.js:46 | what an adapter writes into the descriptor becomes its whole lifecycle |
| StardustOrchestrator.AdapterFor | resources/js/Stardust/Orchestrator.js:32 | the adapter is found exactly when one is registered under the plugin's name |
| StardustOrchestrator.InitOutcome | resources/js/Stardust/Orchestrator.js:34-51 | without an adapter: false, and with an `onInit` handler the plugin is marked initialized ("unkown") and inline before the handler runs. With an adapter: true exactly when `adapter.init` does not throw, and the plugin is never marked failed |
| StardustOrchestrator.DestroyOutcome | resources/js/Stardust/Orchestrator.js:58-68 | `adapter.destroy` runs only on an active plugin with an adapter, and the plugin always ends destroyed |
| StardustOrchestrator.DestroyIdempotent | resources/js/Stardust/Orchestrator.js:54-70 | destroying twice leaves the same lifecycle as destroying once |
| StardustOrchestrator.ReloadOutcome | resources/js/Stardust/Orchestrator.js:76-80 | false with no change without an adapter; otherwise the adapter's reload, answering true unless it throws |
| StardustOrchestrator.Select | resources/js/Stardust/Orchestrator.js:84-86 | `filter` keeps exactly the plugins the predicate accepts, without repeats |
| StardustOrchestrator.SelectSingleton | resources/js/Stardust/Orchestrator.js:84-86 | one plugin is kept exactly when the predicate accepts it |
| StardustOrchestrator.SelectConcat | resources/js/Stardust/Orchestrator.js:84-86 | filtering distributes over concatenation, so the kept plugins stay in insertion order |
| StardustOrchestrator.Orchestrator.constructor | resources/js/Stardust/Orchestrator.js:4-7 | empty registry and no adapters |
| StardustOrchestrator.Orchestrator.RegisterAdapter | resources/js/Stardust/Orchestrator.js:10-12 | the adapter replaces any earlier one under the same name |
| StardustOrchestrator.Orchestrator.Register | resources/js/Stardust/Orchestrator.js:15-25 | the new descriptor is stored under its id, even without an adapter, replacing an earlier entry in place or appending in insertion order |
| StardustOrchestrator.Orchestrator.Get | resources/js/Stardust/Orchestrator.js:108-110 | the descriptor under the id, if registered |
| StardustOrchestrator.Orchestrator.GetAll | resources/js/Stardust/Orchestrator.js:112-114 | every registered descriptor once, in insertion order |
| StardustOrchestrator.Orchestrator.Selected | resources/js/Stardust/Orchestrator.js:84-86 | without a filter, every registered plugin in insertion order; with one, `Select` over the insertion order; each plugin once |
| StardustOrchestrator.Orchestrator.Outcome | resources/js/Stardust/Orchestrator.js:28-81 | the answer and new lifecycle of one operation; destroy always answers true |
| StardustOrchestrator.Orchestrator.RunThrows | resources/js/Stardust/Orchestrator.js:83-105 | a batch throws exactly when the operation throws on one of the selected plugins |
| StardustOrchestrator.Orchestrator.RunReturns | resources/js/Stardust/Orchestrator.js:83-105 | a batch that returns answers once per selected plugin, in order, each with that plugin's own answer and new lifecycle |
| StardustOrchestrator.Orchestrator.RunFrame | resources/js/Stardust/Orchestrator.js:83-105 | a batch leaves the plugins it did not select unchanged |
| StardustOrchestrator.Orchestrator.DestroyRunReturns | resources/js/Stardust/Orchestrator.js:91-97 | `destroyAll` never throws |
| StardustOrchestrator.Orchestrator.Init | resources/js/Stardust/Orchestrator.js:28-52 | an unknown id throws; otherwise the answer and lifecycle of `InitOutcome`, with every other plugin unchanged |
| StardustOrchestrator.Orchestrator.Destroy | resources/js/Stardust/Orchestrator.js:54-70 | true exactly for a registered id, which ends destroyed; every other plugin unchanged |
| StardustOrchestrator.Orchestrator.Reload | resources/js/Stardust/Orchestrator.js:72-81 | false for an unknown id; otherwise the answer and lifecycle of `ReloadOutcome`, with every other plugin unchanged |
| StardustOrchestrator.Orchestrator.RunAll | resources/js/Stardust/Orchestrator.js:83-105 | the `map` loop over selected plugins yields the batch's answers and lifecycles, stopping at the first exception |
| StardustOrchestrator.Orchestrator.InitAll | resources/js/Stardust/Orchestrator.js:83-89 | the batch init over the filtered plugins in insertion order |
| StardustOrchestrator.Orchestrator.DestroyAll | resources/js/Stardust/Orchestrator.js:91-97 | the batch destroy over the filtered plugins in insertion order, which always answers |
| StardustOrchestrator.Orchestrator.ReloadAll | resources/js/Stardust/Orchestrator.js:99-105 | the batch reload over the filtered plugins in insertion order |
| StardustOrchestrator.Orchestrator.Perform | resources/js/Stardust/Orchestrator.js:88 | one step of the batch `map`: the operation answers as `Outcome` says and changes only that plugin's lifecycle |
| StardustEventEmitter.Added | resources/js/Stardust/EventEmitter.js:20 | `Set.add` leaves a set that already holds the listener unchanged; otherwise the listener is appended last and the others keep their places. The set stays free of repeats |
| StardustEventEmitter.AddedIdempotent | resources/js/Stardust/EventEmitter.js:20 | adding the same callback twice keeps one copy |
| StardustEventEmitter.RemovedMembers | resources/js/Stardust/EventEmitter.js:33 | `Set.delete` removes exactly that listener and keeps the set free of repeats |
| StardustEventEmitter.SubscribeUnsubscribe | resources/js/Stardust/EventEmitter.js:16-34 | removing a newly added listener restores the set |
| StardustEventEmitter.Fired | resources/js/Stardust/EventEmitter.js:43-50 | one call per listener, in insertion order |
| StardustEventEmitter.RemainingMembers | resources/js/Stardust/EventEmitter.js:60-66 | after an emission, exactly the listeners that did not expire remain, without repeats |
| StardustEventEmitter.OnceFiresOnce | resources/js/Stardust/EventEmitter.js:60-66 | a once-listener whose callback returned is gone after the emission, and `on` listeners stay |
| StardustEventEmitter.LiveIsRemaining | resources/js/Stardust/EventEmitter.js:43-50 | once-wrappers deleting themselves during the walk leave exactly the remaining listeners |
| StardustEventEmitter.EventEmitter.constructor | resources/js/Stardust/EventEmitter.js:5-7 | no listeners |
| StardustEventEmitter.EventEmitter.On | resources/js/Stardust/EventEmitter.js:16-24 | adds the callback to the event's set, creating it if absent; returns the subscription `off` undoes |
| StardustEventEmitter.EventEmitter.Subscribe | resources/js/Stardust/EventEmitter.js:16-20 | adds a listener to the event's set, creating the set if absent |
| StardustEventEmitter.EventEmitter.Off | resources/js/Stardust/EventEmitter.js:31-34 | no-op for an unknown event; otherwise removes only that listener and keeps the (possibly empty) set |
| StardustEventEmitter.EventEmitter.Unsubscribe | resources/js/Stardust/EventEmitter.js:23 | the returned unsubscribe function does what `off` does for that callback |
| StardustEventEmitter.EventEmitter.Emit | resources/js/Stardust/EventEmitter.js:42-51 | calls nothing for an unknown event. Otherwise it calls every listener present at the start once, in order, even after one throws. Afterwards exactly the non-expired listeners remain |
| StardustEventEmitter.EventEmitter.Deliver | resources/js/Stardust/EventEmitter.js:61-64 | a once-wrapper whose callback returned removes itself; a throwing one stays |
| StardustEventEmitter.EventEmitter.Once | resources/js/Stardust/EventEmitter.js:60-66 | registers a fresh wrapper for the callback |
| StardustEventEmitter.EventEmitter.Clear | resources/js/Stardust/EventEmitter.js:72-78 | a non-empty name removes only that event; no name removes every event |
| PluginText.SplitWhitespace | resources/js/plugins.js:11 | `split(/\s+/)` gives at least one token, and no token holds whitespace |
| PluginText.Suffixed | resources/js/plugins.js:11 | each token gets `.` + namespace, keeping order and count |
| PluginText.SplitJoin | resources/js/plugins.js:11 | splitting space-joined tokens gives the tokens back |
| PluginText.Ns | resources/js/plugins.js:10-12 | for a namespace without spaces, the namespaced string splits into exactly the suffixed tokens of the input, in order |
| PluginText.SuffixedTokens | resources/js/plugins.js:10-12 | space-free event names with a space-free suffix join and split back unchanged |
| PluginText.NumberOnlyEvents | resources/js/plugins.js:56-62 | `numberOnly` namespaces only `keydown`, since extra arguments are ignored |
| PluginText.MapSet | resources/js/plugins.js:42-45 | `Map.set` on an existing key writes the new value into that key's entry, in its place, and leaves every other entry as it was; a new key is appended |
| PluginText.KeyIndex | resources/js/plugins.js:42-45 | the place of the first entry holding the key |
| PluginText.Deduplicated | resources/js/plugins.js:45 | the distinct items, each once, all present |
| PluginText.KeyedMapHoldsLast | resources/js/plugins.js:41-43 | with a key, the map has one entry holding the last item |
| PluginText.SelfMapDeduplicates | resources/js/plugins.js:45 | without a key, the map sends each distinct item to itself, in first-seen order |
| PluginText.Mapify | resources/js/plugins.js:36-46 | a non-array or empty array comes back unchanged; with a key, one entry holding the last item; otherwise each distinct item maps to itself, in first-occurrence order |
| PluginText.ReplaceAll | resources/js/plugins.js:331 | a global replace by text without the character leaves none of it |
| PluginText.EscapeHtml | resources/js/plugins.js:330-332 | the output has no `<` and no `>` |
| PluginText.EscapeHtmlIsEscapeEach | resources/js/plugins.js:331 | the three chained replaces escape each character independently |
| PluginText.UnescapeEscapeHtml | resources/js/plugins.js:330-332 | escaping loses nothing: decoding `&amp;`, `&lt;`, `&gt;` gives the input back |
| PluginEditing.NumberRule | resources/js/plugins.js:67-76 | an all-digit value is kept and remembered. Otherwise the value reverts to the remembered one, which stays remembered, or to "" with nothing remembered. Afterwards the value is digits only |
| PluginEditing.NumberRuleStable | resources/js/plugins.js:67-76 | handling again keeps the value, and changes nothing once a value is remembered |
| PluginEditing.NumberField.HandleInput | resources/js/plugins.js:67-76 | the handler updates value and remembered value as the rule says |
| PluginEditing.LastIndexOf | resources/js/plugins.js:257 | -1 for the empty string. Otherwise the search start is clamped into the string, and the result is the last `c` at or before it, or -1 when there is none |
| PluginEditing.Substring | resources/js/plugins.js:259 | `substring` between two positions inside the string, in either order, is the slice between them; a range covering the string gives it whole |
| PluginEditing.LastAt | resources/js/plugins.js:257 | the last occurrence at or before a position, or -1 when there is none |
| PluginEditing.LineStart | resources/js/plugins.js:257 | the start of the line holding the selection start: just after the last newline before it |
| PluginEditing.Outdent | resources/js/plugins.js:264 | removes a prefix: one tab when the line starts with a tab, else its leading spaces up to four, all of them when there are fewer |
| PluginEditing.LeadingSpaces | resources/js/plugins.js:264 | the count covers only spaces and stops at the bound, at the end, or before a non-space |
| PluginEditing.Modified | resources/js/plugins.js:259-266 | Tab grows the selection by one character per line; Shift+Tab never grows it |
| PluginEditing.TabKeyAsWritten | resources/js/plugins.js:257-273 | as written, the text before the new selection start and from the selection end on is kept, and the new selection lies inside the new text |
| PluginEditing.Indented | resources/js/plugins.js:266 | each line gets one leading tab |
| PluginEditing.Outdented | resources/js/plugins.js:264 | each line is outdented on its own |
| PluginEditing.TabKey | resources/js/plugins.js:257-273 | text before the line start and from the selection end on is unchanged. The modified lines sit between them. The new selection covers exactly the modified text |
| PluginEditing.IndentKeepsLines | resources/js/plugins.js:259-266 | indenting keeps the line count, tabs every line and grows the length by the number of lines |
| PluginEditing.IndentedLength | resources/js/plugins.js:266 | joined indented lines are one character per line longer |
| PluginEditing.OutdentKeepsLines | resources/js/plugins.js:259-264 | outdenting keeps the line count and never grows the text |
| PluginEditing.OutdentedLength | resources/js/plugins.js:264 | joined outdented lines are never longer |
| PluginEditing.OutdentUndoesIndent | resources/js/plugins.js:263-266 | outdenting an indented selection restores it |
| PluginEditing.TabThenShiftTab | resources/js/plugins.js:257-273 | Shift+Tab after Tab restores the text, selecting from the line start to the old end |
| PluginEditing.AsWrittenAgrees | resources/js/plugins.js:257-273 | the handler as written agrees with `TabKey` except when the selection starts at 0 before a leading newline |
| PluginEditing.AsWrittenDuplicatesNewline | resources/js/plugins.js:257 | as written, Tab at position 0 of "\nabc" duplicates text; the corrected handler only tabs the first line |
| PluginEditing.TextArea.KeyDown | resources/js/plugins.js:247-273 | a key other than Tab changes nothing. Tab applies the corrected transform `TabKey`, which is the handler as written except when the selection starts at 0 before a leading newline |

## Left out

- `config()`, `Log`, `build` and `savePreview` in the mailable: the configuration values are a parameter record, and logging, rendering and file output are not modelled.
- Laravel `Address`/`Envelope` objects: an address is a string with an optional name. `Arr::get` is looked up on literal option keys, without dot paths.
- Mail metadata is a map from strings to strings, and blocks and content are opaque values carried through unchanged.
- `Arr::toCssClasses` is an opaque function parameter.
- BaseMailable.Filter: `array_filter` keeps the survivors' original keys ("a,,b" gives `[0 => "a", 2 => "b"]`); the model's lists are renumbered from 0.
- `in_array` in the type check compares strings exactly, rather than with PHP's loose comparison.
- `uniqid` option ids are left out (nondeterministic). An Eloquent `Model` or `Collection` passed as options is not told apart from a plain object: any object is held as the entries of its array form.
- `resolveView`, `setModel`, `afterInitialize` and the getters of the base component are framework glue and are not modelled.
- VideoIframe's `DOMDocument` parsing: the extracted dimensions are an input.
- VideoIframe.NewVideoIframe: width and height are integers here. In the source they are attribute strings passed to `isHorizontalIframe(int, int)`, so a non-numeric value such as `width="auto"` throws a TypeError there, and a numeric string is converted. The model cannot express that error.
- Descriptor `#generateId` (hash plus wall-clock milliseconds): the id is a parameter of `Register`. `isAlive` and `getElement` query the DOM and are left out.
- Adapters are seen only through functions from a lifecycle to a new lifecycle and a "threw" flag; handlers only through an identity and whether they throw. A filter sees a descriptor's constant fields.
- The orchestrator query helpers `filter`, `getByName`, `getActive`, `getAlive`, `getByState`, `count` and `toJSON` are not modelled. Once one descriptor is registered, all of the predicate helpers throw a TypeError, because `filter` destructures each descriptor as a `[key, plugin]` pair and a descriptor is not iterable. On an empty registry they return `[]`. `getByName`, `getActive` and `getAlive` also compare booleans with strings.
- `console.warn`/`console.error` output is not modelled. Neither is the `data` argument of `emit`: callbacks are identities, and throwing is a parameter set of callbacks.
- StardustEventEmitter.EventEmitter.Emit: a callback that calls `on`, `off`, `once` or `clear` during the walk changes what `Set.forEach` visits; for example, a listener added to the same event is called in the same emit. Callbacks cannot change the emitter here, so this is not modelled.
- `debounce`, `passwordToggler`, `dragElement`, `editorHtml`, `cssEditor`, `highlightCSS` and `mirrorEditor` are timers, DOM attribute toggling, DOM geometry or rendering, and are not modelled. Only their use of `escapeHtml` and `$.ns` is modelled.
- In `tabIdent`, `preventDefault` and the `afterChange` callback are not modelled.
- PluginEditing.TextArea.KeyDown: the textarea carries the corrected line start of `TabKey`. At selection start 0 before a leading newline it does not reproduce the handler as written; `TabKeyAsWritten` models that case.
- `numberOnly` is bound to `keydown` only. The order of browser events is left to the caller, who calls `Type` and `HandleInput` in the order the browser would. A key's own character is typed after the handler runs, so it is checked at the next key press.
- EmailNotificationService.CreateNotification: keys are strings and the map has no order. `array_merge` renumbers integer keys, and PHP turns numeric string keys such as "5" into integers, so for such keys the given entries are not kept as they were. The order of the result's keys is not modelled either.
- JavaScript strings are sequences of characters, not UTF-16 code units.
- `$.mapify` models a falsy `keyBy` as absent.
- The controller, migrations, models, the duplicate `NotifactionStatus` enum, `ParametersValidationService`, the Input/Select/Textarea subclasses, `TailLogCommand`, the Blade templates and the routes are not part of this model.

## Findings

| source | as written | input that shows it | evidently intended | confidence | as-written member | corrected member |
|---|---|---|---|---|---|---|
| resources/js/plugins.js:257 | `value.lastIndexOf('\n', start - 1) + 1`; `lastIndexOf` clamps a negative start to 0, so at position 0 it finds a newline at index 0 | value "\nabc", selection 0..0, Tab: the selection start becomes 1, past the selection end 0. `substring` swaps its arguments, so the leading newline is tabbed and also kept: "\n\t\n\t\nabc", selection 1..4 | the line containing position 0 starts at 0: "\t\nabc", selection 0..1 | not executed | PluginEditing.AsWrittenDuplicatesNewline | PluginEditing.TabThenShiftTab |

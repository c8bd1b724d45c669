# Formie CRM and email-marketing connectors in Dafny

This project models two connectors of the Formie form builder for Craft CMS.

- **Microsoft Dynamics 365 CRM connector**
  - **Schema discovery.** Attribute metadata is filtered into field descriptors. Lookup handles get the `@odata.bind` suffix, which is the bind annotation of section 8.5 of OData JSON Format Version 4.0. Descriptors are indexed by logical name, and the last one wins. Picklist options are then attached, and the list is sorted by label with `strcmp`.
  - **Reference resolver.** It has a fixed table of nine lookup targets. It fetches each target's collection into a per-connector cache and turns every kept record into a `collection(id)` option (system users with an `applicationid` are skipped). It then merges the cached options of all targets of a lookup field.
  - **Send sequence.** `sendPayload` sends contact, account, lead and opportunity creates in that order, with bind references to earlier ids.
  - **POST header.** The `Prefer: return=representation` header is added to POST requests.
- **MailerLite email-marketing connector**
  - The subscriber payload and the success decision of `sendPayload`.
  - The `fetchConnection` probe.
  - The list and field assembly of `fetchFormSettings`.

Every HTTP reply is an input value. The Dynamics metadata and collection replies are the functions of `References.DynamicsApi`. A create request's reply is a function from the attempted post to a `Php.Reply`: `false`, a decoded body, or an exception. Both connectors compare the reply with `=== false`, and a decoded body `false` passes that comparison too. An exception thrown anywhere becomes the `Threw`/`Raised` alternative of an input, and the model shows how it propagates.

Modules:

- `Php` covers the slice of PHP semantics the connectors rely on: decoded JSON values, truthiness, `??`, the string cast, `strcmp`, and `ArrayHelper::remove`.
- `Schema` covers `_convertFieldType` and the attribute, picklist and sort parts of `_getEntityFields`.
- `References` covers `_getEntityOwnerOptions` and the `_entityOptions` cache.
- `Discovery` covers `_getEntityFields` as a whole and the Dynamics `fetchFormSettings`. It threads the cache through the four entities.
- `Delivery` covers the Dynamics `sendPayload` as a state machine over the four steps, plus the POST-header rule of `request`.
- `MailerLite` covers the MailerLite connector.

## Model

| member | source | states |
|---|---|---|
| Php.Strcmp | src/integrations/crm/MicrosoftDynamics365.php:473-475 | negative, zero or positive exactly when the first string sorts before, equals or sorts after the second, by character code |
| Php.StrcmpIsTotalOrder | src/integrations/crm/MicrosoftDynamics365.php:473-475 | the comparison `usort` is given is antisymmetric and transitive |
| Php.Remove | src/integrations/emailmarketing/MailerLite.php:105-106 | `ArrayHelper::remove` gives the value under the key, or null when it is absent, and the map with exactly that key gone and all other entries unchanged |
| Schema.ConvertFieldType | src/integrations/crm/MicrosoftDynamics365.php:372-385 | the type mapping is total. Decimal, Double and Money map to float. BigInt and Integer map to number. Boolean maps to boolean and DateTime to datetime. Each holds as an if-and-only-if, and every other name maps to string |
| Schema.Describe | src/integrations/crm/MicrosoftDynamics365.php:400-431 | an attribute yields a descriptor iff its label and logical name are PHP-truthy, `IsValidForCreate` is true, and its type is not Virtual, Uniqueidentifier, Customer or EntityName. The descriptor's name is the label and its type is the converted type. `required` is false iff RequiredLevel is `None` (missing reads as `None`). The handle is the logical name, plus `@odata.bind` when the OData type is the lookup metadata type. There are no options yet |
| Schema.BindHandleRoundTrip | src/integrations/crm/MicrosoftDynamics365.php:402-427 | a descriptor's handle ends in `@odata.bind` iff the attribute is a lookup. Stripping the suffix gives back the index key, the unsuffixed logical name |
| Schema.Upsert | src/integrations/crm/MicrosoftDynamics365.php:426-431 | `$fields[$key] = ...` makes the key map to the new descriptor and leaves other keys alone. An existing key keeps its position; a new key is appended at the end |
| Schema.IndexAttributes | src/integrations/crm/MicrosoftDynamics365.php:400-432 | the attribute loop keeps the index free of duplicate keys |
| Schema.IndexIsLastWins | src/integrations/crm/MicrosoftDynamics365.php:426-431 | after the loop, each logical name holds the descriptor of the last passing attribute with that name, as given by the independent `LastDescriptor` reading |
| Schema.IndexHoldsOnlyDescribed | src/integrations/crm/MicrosoftDynamics365.php:416-418 | every indexed descriptor is what the filter made of some attribute with that key, so nothing filtered out is indexed |
| Schema.PicklistOptions | src/integrations/crm/MicrosoftDynamics365.php:450-455 | one option per picklist entry, in source order. The text is the localized label, or "" when missing, and the value is the entry's value |
| Schema.SetOptions | src/integrations/crm/MicrosoftDynamics365.php:458-461 | the field under the key gets an option group titled with the field's own name. Other keys and the key order are unchanged |
| Schema.AttachPicklist | src/integrations/crm/MicrosoftDynamics365.php:438-462 | options are attached iff the logical name is truthy, the option set is non-empty and a descriptor exists under that key. The group holds the entries in source order and is titled with the field name. Nothing else changes |
| Schema.AttachPicklists | src/integrations/crm/MicrosoftDynamics365.php:438-463 | the picklist loop keeps the keys, their order and their distinctness |
| Schema.Values | src/integrations/crm/MicrosoftDynamics365.php:470 | `array_values` keeps the descriptors in index order |
| Schema.SortByName | src/integrations/crm/MicrosoftDynamics365.php:473-475 | the result is a permutation of the input, ascending by `strcmp` of the names |
| References.CollectionDeterminesTarget | src/integrations/crm/MicrosoftDynamics365.php:491-537 | each of the nine known targets is read back from its collection endpoint |
| References.TargetTableIsInjective | src/integrations/crm/MicrosoftDynamics365.php:491-537 | no two targets share a collection |
| References.OptionFor | src/integrations/crm/MicrosoftDynamics365.php:569-575 | an option's text is the record's label field, or "" when missing |
| References.OptionValueWrapsId | src/integrations/crm/MicrosoftDynamics365.php:570-574 | an option's value is the collection name, `(`, the record's id as PHP's string cast prints it ("" when missing), and `)` |
| References.CollectionOptions | src/integrations/crm/MicrosoftDynamics365.php:561-576 | the options are exactly those of the kept records: soundness and completeness. For targets other than systemuser every record is kept |
| References.CollectionOptionsAppend | src/integrations/crm/MicrosoftDynamics365.php:561-576 | the options of a concatenation of records are the concatenation of their options, and one record yields its option iff it is kept, so there is one option per kept record, in record order |
| References.ApplicationUsersExcluded | src/integrations/crm/MicrosoftDynamics365.php:563-567 | every systemuser option comes from a record with no `applicationid` |
| References.SystemUserOptionsExcludeApplications | src/integrations/crm/MicrosoftDynamics365.php:561-575 | an option a faithful cache holds for systemuser was built from a fetched record with no `applicationid` |
| References.FetchTarget | src/integrations/crm/MicrosoftDynamics365.php:544-576 | a collection is requested iff no exception is propagating, the target is one of the nine and it is not cached. The cache only grows, and only by this target. An exception leaves the cache as it was. A new entry holds exactly the options of the collection's kept records, and a fetched target becomes cached iff it produced an option. A cache holding what the collections yield still does afterwards |
| References.FetchTargets | src/integrations/crm/MicrosoftDynamics365.php:544-577 | the targets of one lookup attribute only extend the cache and the request trace |
| References.PopulateCache | src/integrations/crm/MicrosoftDynamics365.php:541-578 | the first loop only extends the cache and the request trace, and does nothing once an exception is propagating |
| References.FetchTargetKeepsDiscipline | src/integrations/crm/MicrosoftDynamics365.php:552-576 | one target keeps the cache discipline: only known targets are requested, and a request is repeated only for a target whose collection yields no option |
| References.FetchTargetsKeepsDiscipline | src/integrations/crm/MicrosoftDynamics365.php:544-577 | the targets loop keeps the cache discipline |
| References.PopulateCacheKeepsDiscipline | src/integrations/crm/MicrosoftDynamics365.php:541-578 | the whole first loop keeps the cache discipline |
| References.FetchTargetsSkipsCached | src/integrations/crm/MicrosoftDynamics365.php:552-555 | a cached target is not requested by the targets loop |
| References.CachedTargetsNotRequested | src/integrations/crm/MicrosoftDynamics365.php:552-555 | a cached target is not requested anywhere in the first loop |
| References.MergedOptions | src/integrations/crm/MicrosoftDynamics365.php:586-591 | an option is in the merge iff it is cached for one of the attribute's targets |
| References.MergedOptionsAppend | src/integrations/crm/MicrosoftDynamics365.php:586-591 | merging is concatenation in target order, and a single target contributes its cached list unchanged (nothing when uncached) |
| References.AttachLookup | src/integrations/crm/MicrosoftDynamics365.php:581-605 | merged options are attached iff the logical name is truthy, a descriptor exists and the merge is non-empty. The group is titled with the field name. Nothing else changes |
| References.AttachLookups | src/integrations/crm/MicrosoftDynamics365.php:581-605 | the assigning loop keeps keys, order and distinctness |
| References.AttachedOptionsFromCollections | src/integrations/crm/MicrosoftDynamics365.php:561-604 | with a faithful cache, a field the assigning loop changes gets only options built from kept records of some target's fetched collection |
| References.FetchTargetsKeepExplained | src/integrations/crm/MicrosoftDynamics365.php:544-577 | the targets loop leaves no request that threw, except a failing last one, and a failure is that last request's exception |
| References.PopulateCacheKeepsExplained | src/integrations/crm/MicrosoftDynamics365.php:541-578 | the same holds across the whole first loop |
| Discovery.PicklistsOnlySetOptions | src/integrations/crm/MicrosoftDynamics365.php:457-462 | the picklist pass changes descriptors only in their options |
| Discovery.LookupsOnlySetOptions | src/integrations/crm/MicrosoftDynamics365.php:600-604 | the lookup pass changes descriptors only in their options |
| Discovery.EntityIndex | src/integrations/crm/MicrosoftDynamics365.php:397-467 | the index built for an entity has distinct keys |
| Discovery.EntityIndexIsLastWins | src/integrations/crm/MicrosoftDynamics365.php:426-467 | each key of the final index holds the last passing attribute's descriptor, apart from options |
| Discovery.EntityFieldList | src/integrations/crm/MicrosoftDynamics365.php:469-477 | the returned list is the index's values, permuted into ascending `strcmp` order of names |
| Discovery.FinishEntity | src/integrations/crm/MicrosoftDynamics365.php:467-477 | after the lookup pass the list is sorted, and the cache and the trace only grow |
| Discovery.GetEntityFields | src/integrations/crm/MicrosoftDynamics365.php:390-478 | the first request is the attribute query. The result is sorted unless an exception propagated. The cache and the trace only grow |
| Discovery.EntityIndexKeys | src/integrations/crm/MicrosoftDynamics365.php:400-467 | the index's keys are exactly the logical names of the attributes that pass the filter |
| Discovery.EntityFieldCount | src/integrations/crm/MicrosoftDynamics365.php:426-470 | the returned list has one entry per distinct passing logical name |
| Discovery.EntityFieldsAreLastDescriptors | src/integrations/crm/MicrosoftDynamics365.php:400-477 | every listed field is, up to options, the last-wins descriptor of some attribute. Every passing attribute's last-wins descriptor is listed. The list has exactly as many entries as there are distinct passing logical names, so each one appears exactly once |
| Discovery.FetchFormSettings | src/integrations/crm/MicrosoftDynamics365.php:160-181 | the settings are empty after an exception, and otherwise have exactly the keys contact, lead, opportunity and account. Every list is sorted, and the connector's cache is only extended |
| Discovery.FetchFormSettingsHoldsEntityFields | src/integrations/crm/MicrosoftDynamics365.php:164-175 | the four entities are discovered in order on one run. The settings fail exactly when that run failed, and otherwise each key holds its own entity's list |
| Discovery.SettingsMap | src/integrations/crm/MicrosoftDynamics365.php:170-175 | each of the four keys maps to the list given for it, and nothing else is present |
| Discovery.GetEntityFieldsKeepsExplained | src/integrations/crm/MicrosoftDynamics365.php:390-578 | one entity's discovery leaves no request that threw, except a failing last one, and a failure is that last request's exception |
| Discovery.FetchFormSettingsFailsOnlyOnException | src/integrations/crm/MicrosoftDynamics365.php:164-178 | a failed discovery ends with a request whose reply was an exception, and a successful one made no such request |
| Discovery.FetchFormSettingsKeepsCacheFaithful | src/integrations/crm/MicrosoftDynamics365.php:164-168 | a cache holding exactly what each collection yields still does so after the discovery |
| Discovery.GetEntityFieldsKeepsDiscipline | src/integrations/crm/MicrosoftDynamics365.php:483-578 | one entity's discovery keeps the cache discipline |
| Discovery.GetEntityFieldsSkipsCached | src/integrations/crm/MicrosoftDynamics365.php:552-555 | a target cached before an entity's discovery is not requested during it |
| Discovery.FetchFormSettingsFetchesOnce | src/integrations/crm/MicrosoftDynamics365.php:164-168 | across the four entities, with the cache persisting between them: only the nine known targets are requested, and targets cached beforehand never are. A target is requested twice only if its collection yields no option |
| Delivery.PayloadBinds | src/integrations/crm/MicrosoftDynamics365.php:220-279 | a payload is the mapped values with only the step's own bind keys written: every other key, bind keys included, keeps its mapped value or stays absent. The account gets `primarycontactid@odata.bind = contacts(id)` and the lead `parentcontactid@odata.bind`, each exactly when a contact id is known. The contact payload is unchanged |
| Delivery.Step | src/integrations/crm/MicrosoftDynamics365.php:199-297 | a disabled step, or one after the send stopped, changes nothing. An enabled step appends exactly one post of its kind |
| Delivery.Send | src/integrations/crm/MicrosoftDynamics365.php:186-305 | the send always ends with a verdict. An exception while mapping values fails it with no post |
| Delivery.StepsExtend | src/integrations/crm/MicrosoftDynamics365.php:199-297 | the steps only append posts, and a stopped send stays as it is |
| Delivery.StepsPostEnabledPrefix | src/integrations/crm/MicrosoftDynamics365.php:199-297 | from a running state, the posts made are a prefix of the enabled kinds, in order, and all of them if still running |
| Delivery.StepsKeepRepliesExplained | src/integrations/crm/MicrosoftDynamics365.php:204-217 | every post but a stopping last one got an id back. A stop is explained by the reply to the last post |
| Delivery.StepsKeepPayloadsLinked | src/integrations/crm/MicrosoftDynamics365.php:221-279 | each payload carries the links read from the replies to the posts before it |
| Delivery.SendFollowsOrder | src/integrations/crm/MicrosoftDynamics365.php:199-297 | posts follow the order contact, account, lead, opportunity among the enabled steps, and stop at the first reply without an id. The send completes iff every enabled step was posted and answered with an id. Otherwise the last reply explains the verdict |
| Delivery.MissingIdAborts | src/integrations/crm/MicrosoftDynamics365.php:208-217 | a post answered with a body other than `false` that lacks a truthy id is the last post, and the verdict is a missing id of that kind, so the call returns false |
| Delivery.SuppressedIsSuccess | src/integrations/crm/MicrosoftDynamics365.php:204-206 | a `false` delivery, whether suppressed or a decoded `false` body, is the last post, and `sendPayload` returns true |
| Delivery.ExceptionIsFailure | src/integrations/crm/MicrosoftDynamics365.php:298-302 | an exception from a request ends the send at once, and `sendPayload` returns false |
| Delivery.PayloadsCarryEarlierIds | src/integrations/crm/MicrosoftDynamics365.php:221-279 | each payload is built from the ids the earlier replies returned |
| Delivery.StepWithId | src/integrations/crm/MicrosoftDynamics365.php:208-233 | a running, enabled step whose reply is a body other than `false` with a truthy id, whatever else the body holds, continues and records the id's string form as the contact or account link |
| Delivery.AllEnabledRun | src/integrations/crm/MicrosoftDynamics365.php:199-297 | for any server whose replies to the four posts each carry a truthy id, with all steps enabled: four posts are made, the send completes, and the opportunity payload is built with the contact and account ids those replies returned |
| Delivery.OpportunityCarriesBinds | src/integrations/crm/MicrosoftDynamics365.php:270-281 | in the corrected send, the opportunity carries `parentcontactid@odata.bind = contacts(C1)` and `parentaccountid@odata.bind = accounts(A1)` |
| Delivery.OpportunityBindsLostAsWritten | src/integrations/crm/MicrosoftDynamics365.php:270-281 | as written, the opportunity body equals the mapped opportunity values unchanged |
| Delivery.RequestHeaders | src/integrations/crm/MicrosoftDynamics365.php:310-320 | a POST's headers become exactly `Prefer: return=representation`, replacing any given. Other verbs pass through unchanged. The rule is one line with no partner lemma: the model's posts are not wrapped in request options, so nothing ties it to `Send` |
| MailerLite.BuildPayload | src/integrations/emailmarketing/MailerLite.php:102-113 | `email` and `name` are the removed values, or null if absent. `fields` is the remaining values without those two keys. `resubscribe` is always true |
| MailerLite.BuildPayloadRoundTrip | src/integrations/emailmarketing/MailerLite.php:104-113 | putting the payload's parts back together gives the mapped values, when neither email nor name was null |
| MailerLite.SubscribersUri | src/integrations/emailmarketing/MailerLite.php:115 | the endpoint is `groups/` + list id + `/subscribers` |
| MailerLite.SubscribersUriRoundTrip | src/integrations/emailmarketing/MailerLite.php:115 | the list id is recovered from the endpoint |
| MailerLite.SendPayload | src/integrations/emailmarketing/MailerLite.php:99-141 | returns true iff mapping did not throw and the delivery answered with a body whose `id` is present and truthy. A `false` delivery, a missing or empty id, or any exception gives false |
| MailerLite.SuppressedSendIsFalse | src/integrations/emailmarketing/MailerLite.php:117-119 | a `false` delivery, whether suppressed or a decoded `false` body, returns false |
| MailerLite.FetchConnection | src/integrations/emailmarketing/MailerLite.php:146-167 | true iff the request did not throw and `account.id` of the reply is present and truthy |
| MailerLite.ToField | src/integrations/emailmarketing/MailerLite.php:72-76 | a field's handle is the string cast of its key, its name the title, and its type the remote type |
| MailerLite.ToFields | src/integrations/emailmarketing/MailerLite.php:71-77 | one field per remote field, in order |
| MailerLite.ListsFrom | src/integrations/emailmarketing/MailerLite.php:67-84 | the loop only appends lists, at most one per remaining group |
| MailerLite.FetchFormSettingsWith | src/integrations/emailmarketing/MailerLite.php:60-94 | an exception from the groups request leaves the settings without lists. A `lists` entry is present only when non-empty |
| MailerLite.ListsFromShape | src/integrations/emailmarketing/MailerLite.php:67-84 | one list per group, up to the first failed fields request. Each list has its group's stringified id and name and the fields its scope prescribes |
| MailerLite.FetchFormSettingsShape | src/integrations/emailmarketing/MailerLite.php:60-94 | settings hold one list per group in group order, with stringified ids, up to the first exception. Lists appended before it are kept |
| MailerLite.ListsAccumulateAsWritten | src/integrations/emailmarketing/MailerLite.php:67-83 | as written, list k carries the fields of the first k+1 fetches |
| MailerLite.ListsCarryOwnFields | src/integrations/emailmarketing/MailerLite.php:67-83 | as corrected, list k carries only the fields of its own fetch |
| MailerLite.AccumulatedIsRunningConcatenation | src/integrations/emailmarketing/MailerLite.php:72 | the accumulated field list of list k is that of list k-1 followed by list k's own fields |
| MailerLite.FirstListAgrees | src/integrations/emailmarketing/MailerLite.php:72-82 | the first list's fields are the same with or without the reset |
| MailerLite.SecondListRepeatsFieldsAsWritten | src/integrations/emailmarketing/MailerLite.php:67-83 | with two groups and a one-field reply, the second list offers the field twice as written and once as corrected |

## Left out

- OAuth provider configuration, `getClient`'s probe request and its refresh on 401, and Guzzle client construction, base URLs and API-key headers are left out. These are network and token-store I/O.
- `getFieldMappingValues`, `deliverPayload`, `Integration::error` and `Integration::apiError` belong to host classes and are not part of this model. The mapped values and delivery replies are inputs, and a logged error shows only through the returned verdict.
- The model assumes that `Integration::error(..., true)` and `Integration::apiError` return normally. If either throws, the model's verdicts and empty settings do not describe the outcome.
- `defineRules`, `Craft::t` and `Json::encode` of log messages are left out. They are host validation and message formatting, which do not affect outcomes.
- `Snaptcha.php` is not part of this model. It is an adapter for an external plugin.
- The URI query strings of the metadata requests are not modelled. Each request is identified by its kind and entity, and a collection request by its target.
- Replies are taken as already shaped: sequences of records with optional fields. A reply whose `value` or `Attributes` is not an array, and PHP notices on undefined indexes, are not modelled.
- Floats in JSON are not modelled: `Json` has integers only.
- References.FetchTarget: the cache entry of a target is created only when its collection produced at least one option, because options are appended one by one. A target whose collection yields no option is therefore requested again for the next lookup attribute or entity. The code is followed here, not the weaker "each collection at most once" reading. `FetchFormSettingsFetchesOnce` proves the precise statement: a repeat happens only when the collection yields nothing.
- Schema.BindHandleRoundTrip: requires that the logical name contains no `@`, so that the bind suffix is recognised unambiguously. Dynamics logical names are identifiers, which meets this.
- References.CacheFaithful: the cache kept from an earlier discovery is assumed to hold exactly what each collection yields now. The collection replies are one fixed `DynamicsApi` for the connector's lifetime, so records added remotely between discoveries are not modelled.
- Schema.SortByName: PHP's `usort` before PHP 8 is not stable. The contract therefore states only sortedness and permutation, which every `usort` result meets. The concrete insertion order used to build the list is one of the allowed results.
- MailerLite.ListsFrom: `$listFields` stays undefined until a fields reply with at least one field arrives, so every list appended before then gets null, with a notice. The model gives those lists an empty field list.
- MailerLite.SendPayload: a reply body that is not an object reads as having no `id`. PHP string offsets with a non-numeric key behave the same under `??`.

## Findings

| source | as written | input that shows it | evidently intended | confidence | as-written member | corrected member |
|---|---|---|---|---|---|---|
| src/integrations/crm/MicrosoftDynamics365.php:273-279 | the opportunity step writes the contact and account binds to `$accountPayload`, after the account was already sent, and posts `$opportunityPayload` unchanged | all four steps enabled; the contact reply carries `contactid` C1 and the account reply `accountid` A1 | the opportunity payload carries `parentcontactid@odata.bind = contacts(C1)` and `parentaccountid@odata.bind = accounts(A1)` | high; not executed | Delivery.OpportunityBindsLostAsWritten | Delivery.OpportunityCarriesBinds |
| src/integrations/emailmarketing/MailerLite.php:72 | `$listFields` is never reset between groups, so each list carries the fields of every earlier fetch as well | two groups, and a `fields` reply holding the single field `city` | each list carries the fields of its own fetch, so the second list offers `city` once | medium; not executed | MailerLite.ListsAccumulateAsWritten | MailerLite.ListsCarryOwnFields |

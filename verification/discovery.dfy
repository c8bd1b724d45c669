/**
 Form-settings discovery of the Dynamics 365 connector: the field list of each entity
 (`_getEntityFields`) and the four lists of `fetchFormSettings`, with the option cache
 threaded from one entity to the next.
 */
module Discovery {
  import opened Php
  import opened Schema
  import opened References

  /** Two descriptors that differ at most in their options. */
  predicate SameButOptions(x: Option<FieldDescriptor>, y: Option<FieldDescriptor>) {
    x.Some? == y.Some? && (x.Some? ==> x.value.(options := None) == y.value.(options := None))
  }

  lemma {:induction false} PicklistsOnlySetOptions(index: seq<Entry>, picklists: seq<PicklistMetadata>, key: string)
    ensures SameButOptions(Lookup(AttachPicklists(index, picklists), key), Lookup(index, key))
    decreases |picklists|
  {
    if |picklists| > 0 {
      PicklistsOnlySetOptions(AttachPicklist(index, picklists[0]), picklists[1..], key);
    }
  }

  lemma {:induction false} LookupsOnlySetOptions(index: seq<Entry>, cache: Cache, lookups: seq<LookupMetadata>, key: string)
    ensures SameButOptions(Lookup(AttachLookups(index, cache, lookups), key), Lookup(index, key))
    decreases |lookups|
  {
    if |lookups| > 0 {
      LookupsOnlySetOptions(AttachLookup(index, cache, lookups[0]), cache, lookups[1..], key);
    }
  }

  /** With distinct keys, each entry is what a lookup of its key finds. */
  lemma {:induction false} EntriesAreLookups(index: seq<Entry>, i: nat)
    requires DistinctKeys(index) && i < |index|
    ensures Lookup(index, index[i].key) == Some(index[i].field)
    decreases i
  {
    if i > 0 {
      assert DistinctKeys(index[1..]) by {
        forall p, q | 0 <= p < q < |index[1..]| ensures index[1..][p].key != index[1..][q].key {
          assert index[1..][p] == index[p + 1] && index[1..][q] == index[q + 1];
        }
      }
      EntriesAreLookups(index[1..], i - 1);
    }
  }

  /** The keys of an index. */
  function KeySet(index: seq<Entry>): set<string> {
    set i | 0 <= i < |index| :: index[i].key
  }

  /** An index with distinct keys has as many keys as entries. */
  lemma {:induction false} DistinctKeysCount(index: seq<Entry>)
    requires DistinctKeys(index)
    ensures |KeySet(index)| == |index|
    decreases |index|
  {
    if |index| > 0 {
      var rest := index[1..];
      assert DistinctKeys(rest) by {
        forall p, q | 0 <= p < q < |rest| ensures rest[p].key != rest[q].key {
          assert rest[p] == index[p + 1] && rest[q] == index[q + 1];
        }
      }
      DistinctKeysCount(rest);
      assert KeySet(index) == {index[0].key} + KeySet(rest) by {
        forall k | k in KeySet(index) ensures k in {index[0].key} + KeySet(rest) {
          var i :| 0 <= i < |index| && index[i].key == k;
          if i > 0 {
            assert rest[i - 1] == index[i];
          }
        }
        forall k | k in KeySet(rest) ensures k in KeySet(index) {
          var i :| 0 <= i < |rest| && rest[i].key == k;
          assert index[i + 1] == rest[i];
        }
      }
      assert index[0].key !in KeySet(rest) by {
        forall i | 0 <= i < |rest| ensures rest[i].key != index[0].key {
          assert rest[i] == index[i + 1];
        }
      }
    }
  }

  /** The logical names of the attributes that pass the filter. */
  function PassingKeys(attributes: seq<AttributeMetadata>): set<string> {
    set a | a in attributes && Describe(a).Some? :: KeyOf(a)
  }

  /** The index an entity's three metadata replies build, before `array_values`. */
  function EntityIndex(attributes: seq<AttributeMetadata>, picklists: seq<PicklistMetadata>,
                       lookups: seq<LookupMetadata>, cache: Cache): (r: seq<Entry>)
    ensures DistinctKeys(r)
  {
    AttachLookups(AttachPicklists(IndexAttributes(attributes, []), picklists), cache, lookups)
  }

  /** The final index holds, under each logical name, the last passing attribute's descriptor,
      with options possibly attached. */
  lemma EntityIndexIsLastWins(attributes: seq<AttributeMetadata>, picklists: seq<PicklistMetadata>,
                              lookups: seq<LookupMetadata>, cache: Cache, key: string)
    ensures SameButOptions(Lookup(EntityIndex(attributes, picklists, lookups, cache), key), LastDescriptor(attributes, key))
  {
    var base := IndexAttributes(attributes, []);
    IndexIsLastWins(attributes, [], key);
    PicklistsOnlySetOptions(base, picklists, key);
    LookupsOnlySetOptions(AttachPicklists(base, picklists), cache, lookups, key);
  }

  /** The final index is keyed by exactly the passing logical names. */
  lemma EntityIndexKeys(attributes: seq<AttributeMetadata>, picklists: seq<PicklistMetadata>,
                        lookups: seq<LookupMetadata>, cache: Cache)
    ensures KeySet(EntityIndex(attributes, picklists, lookups, cache)) == PassingKeys(attributes)
  {
    var index := EntityIndex(attributes, picklists, lookups, cache);
    forall k | k in KeySet(index) ensures k in PassingKeys(attributes) {
      var i :| 0 <= i < |index| && index[i].key == k;
      EntriesAreLookups(index, i);
      EntityIndexIsLastWins(attributes, picklists, lookups, cache, k);
      LastDescriptorFrom(attributes, k);
    }
    forall k | k in PassingKeys(attributes) ensures k in KeySet(index) {
      var a :| a in attributes && Describe(a).Some? && KeyOf(a) == k;
      LastDescriptorSome(attributes, a);
      EntityIndexIsLastWins(attributes, picklists, lookups, cache, k);
      LookupNoneIffAbsent(index, k);
    }
  }

  /** The list has one entry per passing logical name. */
  lemma EntityFieldCount(attributes: seq<AttributeMetadata>, picklists: seq<PicklistMetadata>,
                         lookups: seq<LookupMetadata>, cache: Cache)
    ensures |EntityFieldList(attributes, picklists, lookups, cache)| == |PassingKeys(attributes)|
  {
    var index := EntityIndex(attributes, picklists, lookups, cache);
    var fields := EntityFieldList(attributes, picklists, lookups, cache);
    assert |fields| == |multiset(fields)| == |multiset(Values(index))| == |index|;
    DistinctKeysCount(index);
    EntityIndexKeys(attributes, picklists, lookups, cache);
  }

  /** `_getEntityFields` with its exception: the run after it and, if it did not fail, the list. */
  datatype EntityFields = EntityFields(run: Run, fields: seq<FieldDescriptor>)

  /** The list `_getEntityFields` returns once all three metadata replies are in. */
  function EntityFieldList(attributes: seq<AttributeMetadata>, picklists: seq<PicklistMetadata>,
                           lookups: seq<LookupMetadata>, cache: Cache): (r: seq<FieldDescriptor>)
    ensures SortedByName(r)
    ensures multiset(r) == multiset(Values(EntityIndex(attributes, picklists, lookups, cache)))
  {
    SortByName(Values(EntityIndex(attributes, picklists, lookups, cache)))
  }

  /** The lookup part of `_getEntityFields`: fill the cache, then build the list. */
  function FinishEntity(api: DynamicsApi, run: Run, attributes: seq<AttributeMetadata>,
                        picklists: seq<PicklistMetadata>, lookups: seq<LookupMetadata>): (r: EntityFields)
    ensures run.failed ==> r.run == run
    ensures !r.run.failed ==> SortedByName(r.fields)
    ensures Extends(run.cache, r.run.cache)
    ensures |run.requests| <= |r.run.requests| && r.run.requests[..|run.requests|] == run.requests
    ensures CacheFaithful(api, run.cache) ==> CacheFaithful(api, r.run.cache)
  {
    var populated := PopulateCache(api, run, lookups);
    if populated.failed then EntityFields(populated, [])
    else EntityFields(populated, EntityFieldList(attributes, picklists, lookups, populated.cache))
  }

  /** Record one metadata request; `throws` marks it as the one that raised. */
  function Issue(run: Run, request: Request, throws: bool): (r: Run)
    ensures r.cache == run.cache && r.requests == run.requests + [request]
    ensures r.failed == throws
  {
    Run(run.cache, run.requests + [request], throws)
  }

  function GetEntityFields(api: DynamicsApi, run: Run, entity: string): (r: EntityFields)
    ensures run.failed ==> r.run == run
    ensures !r.run.failed ==> SortedByName(r.fields)
    ensures Extends(run.cache, r.run.cache)
    ensures |run.requests| <= |r.run.requests| && r.run.requests[..|run.requests|] == run.requests
    ensures !run.failed ==> |r.run.requests| > |run.requests| && r.run.requests[|run.requests|] == AttributesOf(entity)
    ensures CacheFaithful(api, run.cache) ==> CacheFaithful(api, r.run.cache)
  {
    if run.failed then EntityFields(run, [])
    else
      var afterAttributes := Issue(run, AttributesOf(entity), api.attributes(entity).Threw?);
      if afterAttributes.failed then EntityFields(afterAttributes, [])
      else
        var afterPicklists := Issue(afterAttributes, PicklistsOf(entity), api.picklists(entity).Threw?);
        if afterPicklists.failed then EntityFields(afterPicklists, [])
        else
          var afterLookups := Issue(afterPicklists, LookupsOf(entity), api.lookups(entity).Threw?);
          if afterLookups.failed then EntityFields(afterLookups, [])
          else
            var r := FinishEntity(api, afterLookups, api.attributes(entity).value,
                                  api.picklists(entity).value, api.lookups(entity).value);
            assert r.run.requests[..|run.requests|] == afterLookups.requests[..|run.requests|];
            r
  }

  /** The returned list is, up to order, one descriptor per passing logical name: the last one,
      with options possibly attached. Nothing excluded by the filter appears. */
  lemma EntityFieldsAreLastDescriptors(api: DynamicsApi, run: Run, entity: string)
    requires !run.failed && !GetEntityFields(api, run, entity).run.failed
    ensures api.attributes(entity).Done?
    ensures var fields := GetEntityFields(api, run, entity).fields;
      var attributes := api.attributes(entity).value;
      && (forall f :: f in fields ==> exists a :: a in attributes && SameButOptions(Some(f), LastDescriptor(attributes, KeyOf(a))))
      && (forall a :: a in attributes && Describe(a).Some? ==>
            exists f :: f in fields && SameButOptions(Some(f), LastDescriptor(attributes, KeyOf(a))))
      && |fields| == |PassingKeys(attributes)|
  {
    var r := GetEntityFields(api, run, entity);
    var attributes := api.attributes(entity).value;
    var picklists := api.picklists(entity).value;
    var lookups := api.lookups(entity).value;
    var afterLookups := run.(requests := run.requests + [AttributesOf(entity)] + [PicklistsOf(entity)] + [LookupsOf(entity)]);
    var cache := PopulateCache(api, afterLookups, lookups).cache;
    var index := EntityIndex(attributes, picklists, lookups, cache);
    var values := Values(index);
    assert r.fields == SortByName(values);
    assert multiset(r.fields) == multiset(values);
    EntityFieldCount(attributes, picklists, lookups, cache);
    forall f | f in r.fields
      ensures exists a :: a in attributes && SameButOptions(Some(f), LastDescriptor(attributes, KeyOf(a)))
    {
      assert f in multiset(values);
      var i :| 0 <= i < |values| && values[i] == f;
      var key := index[i].key;
      EntriesAreLookups(index, i);
      EntityIndexIsLastWins(attributes, picklists, lookups, cache, key);
      LastDescriptorFrom(attributes, key);
    }
    forall a | a in attributes && Describe(a).Some?
      ensures exists f :: f in r.fields && SameButOptions(Some(f), LastDescriptor(attributes, KeyOf(a)))
    {
      var key := KeyOf(a);
      LastDescriptorSome(attributes, a);
      EntityIndexIsLastWins(attributes, picklists, lookups, cache, key);
      LookupNoneIffAbsent(index, key);
      var i :| 0 <= i < |index| && index[i].key == key;
      EntriesAreLookups(index, i);
      assert values[i] in multiset(r.fields);
    }
  }

  lemma {:induction false} LastDescriptorSome(attributes: seq<AttributeMetadata>, a: AttributeMetadata)
    requires a in attributes && Describe(a).Some?
    ensures LastDescriptor(attributes, KeyOf(a)).Some?
    decreases |attributes|
  {
    if attributes[0] != a {
      LastDescriptorSome(attributes[1..], a);
    }
  }

  /** The entities `fetchFormSettings` discovers, in the order it asks for them. */
  const SettingsEntities: seq<string> := ["contact", "lead", "opportunity", "account"]

  /** The settings map, whether an exception ended the discovery, the cache left on the
      connector, and every request made. */
  datatype FormSettings = FormSettings(
    settings: map<string, seq<FieldDescriptor>>,
    failed: bool,
    cache: Cache,
    requests: seq<Request>)

  /** `fetchFormSettings`: the four entity discoveries in order, sharing the cache. After an
      exception the settings are empty; otherwise each entity key holds that entity's list. */
  function FetchFormSettings(api: DynamicsApi, cache: Cache): (r: FormSettings)
    ensures r.failed ==> r.settings == map[]
    ensures !r.failed ==> r.settings.Keys == {"contact", "lead", "opportunity", "account"}
    ensures forall e :: e in r.settings ==> SortedByName(r.settings[e])
    ensures Extends(cache, r.cache)
  {
    var contact := GetEntityFields(api, Run(cache, [], false), "contact");
    var lead := GetEntityFields(api, contact.run, "lead");
    var opportunity := GetEntityFields(api, lead.run, "opportunity");
    var account := GetEntityFields(api, opportunity.run, "account");
    var settings := if account.run.failed then map[] else SettingsMap(contact.fields, lead.fields, opportunity.fields, account.fields);
    FormSettings(settings, account.run.failed, account.run.cache, account.run.requests)
  }

  /** The discovery asks for the four entities in order, on one run: it fails when that run
      failed, and otherwise each key holds what its entity's discovery returned. */
  lemma FetchFormSettingsHoldsEntityFields(api: DynamicsApi, cache: Cache)
    ensures var r := FetchFormSettings(api, cache);
      var contact := GetEntityFields(api, Run(cache, [], false), "contact");
      var lead := GetEntityFields(api, contact.run, "lead");
      var opportunity := GetEntityFields(api, lead.run, "opportunity");
      var account := GetEntityFields(api, opportunity.run, "account");
      && r.failed == account.run.failed && r.cache == account.run.cache && r.requests == account.run.requests
      && (!r.failed ==>
            && r.settings["contact"] == contact.fields && r.settings["lead"] == lead.fields
            && r.settings["opportunity"] == opportunity.fields && r.settings["account"] == account.fields)
  {
  }

  /** The `$settings` array of a discovery that did not throw: each key holds its entity's list. */
  function SettingsMap(contact: seq<FieldDescriptor>, lead: seq<FieldDescriptor>,
                       opportunity: seq<FieldDescriptor>, account: seq<FieldDescriptor>): (m: map<string, seq<FieldDescriptor>>)
    requires SortedByName(contact) && SortedByName(lead) && SortedByName(opportunity) && SortedByName(account)
    ensures m.Keys == {"contact", "lead", "opportunity", "account"}
    ensures m["contact"] == contact && m["lead"] == lead && m["opportunity"] == opportunity && m["account"] == account
    ensures forall e :: e in m ==> SortedByName(m[e])
  {
    map["contact" := contact, "lead" := lead, "opportunity" := opportunity, "account" := account]
  }

  // ---------------------------------------------------------------------------
  // The cache across the four entities

  lemma AppendMetadataKeepsDiscipline(api: DynamicsApi, run: Run, request: Request, failed: bool)
    requires CacheDiscipline(api, run) && !request.Collection?
    requires failed || !run.failed
    ensures CacheDiscipline(api, Run(run.cache, run.requests + [request], failed))
  {
  }

  lemma GetEntityFieldsKeepsDiscipline(api: DynamicsApi, run: Run, entity: string)
    requires CacheDiscipline(api, run)
    ensures CacheDiscipline(api, GetEntityFields(api, run, entity).run)
  {
    if !run.failed {
      var afterAttributes := run.(requests := run.requests + [AttributesOf(entity)]);
      AppendMetadataKeepsDiscipline(api, run, AttributesOf(entity), false);
      AppendMetadataKeepsDiscipline(api, run, AttributesOf(entity), true);
      if api.attributes(entity).Done? {
        var afterPicklists := afterAttributes.(requests := afterAttributes.requests + [PicklistsOf(entity)]);
        AppendMetadataKeepsDiscipline(api, afterAttributes, PicklistsOf(entity), false);
        AppendMetadataKeepsDiscipline(api, afterAttributes, PicklistsOf(entity), true);
        if api.picklists(entity).Done? {
          var afterLookups := afterPicklists.(requests := afterPicklists.requests + [LookupsOf(entity)]);
          AppendMetadataKeepsDiscipline(api, afterPicklists, LookupsOf(entity), false);
          AppendMetadataKeepsDiscipline(api, afterPicklists, LookupsOf(entity), true);
          if api.lookups(entity).Done? {
            PopulateCacheKeepsDiscipline(api, afterLookups, api.lookups(entity).value);
          }
        }
      }
    }
  }

  /** Requests added on top of a prefix that all avoid `Collection(t)` leave the whole
      sequence free of it. */
  lemma ExtendAvoiding(a: seq<Request>, b: seq<Request>, t: string)
    requires |a| <= |b| && b[..|a|] == a
    requires forall i :: 0 <= i < |a| ==> a[i] != Collection(t)
    requires forall i :: |a| <= i < |b| ==> b[i] != Collection(t)
    ensures forall i :: 0 <= i < |b| ==> b[i] != Collection(t)
  {
    forall i | 0 <= i < |a| ensures b[i] != Collection(t) {
      assert b[i] == b[..|a|][i];
    }
  }

  lemma GetEntityFieldsSkipsCached(api: DynamicsApi, run: Run, entity: string, t: string)
    requires t in run.cache
    requires forall i :: 0 <= i < |run.requests| ==> run.requests[i] != Collection(t)
    ensures var r := GetEntityFields(api, run, entity).run;
      forall i :: 0 <= i < |r.requests| ==> r.requests[i] != Collection(t)
  {
    if !run.failed {
      var afterAttributes := Issue(run, AttributesOf(entity), api.attributes(entity).Threw?);
      if !afterAttributes.failed {
        var afterPicklists := Issue(afterAttributes, PicklistsOf(entity), api.picklists(entity).Threw?);
        if !afterPicklists.failed {
          var afterLookups := Issue(afterPicklists, LookupsOf(entity), api.lookups(entity).Threw?);
          if !afterLookups.failed {
            var lookups := api.lookups(entity).value;
            var populated := PopulateCache(api, afterLookups, lookups);
            assert GetEntityFields(api, run, entity).run == populated;
            CachedTargetsNotRequested(api, afterLookups, lookups, t);
            ExtendAvoiding(afterLookups.requests, populated.requests, t);
          }
        }
      }
    }
  }

  /** Across the four entity discoveries of one `fetchFormSettings`: only the nine known targets
      are requested, a target cached beforehand is not requested, and a target is requested a
      second time only if its collection produced no option. */
  lemma FetchFormSettingsFetchesOnce(api: DynamicsApi, cache: Cache)
    ensures var r := FetchFormSettings(api, cache);
      && (forall i :: 0 <= i < |r.requests| && r.requests[i].Collection? ==>
            r.requests[i].target in TargetSchemas && r.requests[i].target !in cache)
      && (forall i, j :: 0 <= i < j < |r.requests| && r.requests[i].Collection? && r.requests[j] == r.requests[i] ==>
            YieldsNothing(api, r.requests[i].target))
  {
    var start := Run(cache, [], false);
    var contact := GetEntityFields(api, start, "contact");
    var lead := GetEntityFields(api, contact.run, "lead");
    var opportunity := GetEntityFields(api, lead.run, "opportunity");
    var account := GetEntityFields(api, opportunity.run, "account");
    GetEntityFieldsKeepsDiscipline(api, start, "contact");
    GetEntityFieldsKeepsDiscipline(api, contact.run, "lead");
    GetEntityFieldsKeepsDiscipline(api, lead.run, "opportunity");
    GetEntityFieldsKeepsDiscipline(api, opportunity.run, "account");
    forall t | t in cache
      ensures forall i :: 0 <= i < |account.run.requests| ==> account.run.requests[i] != Collection(t)
    {
      GetEntityFieldsSkipsCached(api, start, "contact", t);
      GetEntityFieldsSkipsCached(api, contact.run, "lead", t);
      GetEntityFieldsSkipsCached(api, lead.run, "opportunity", t);
      GetEntityFieldsSkipsCached(api, opportunity.run, "account", t);
    }
  }

  // ---------------------------------------------------------------------------
  // Exceptions and cache contents across the four entities

  /** Recording a metadata request that throws exactly when its reply is an exception. */
  lemma IssueKeepsExplained(api: DynamicsApi, run: Run, request: Request)
    requires FailureExplained(api, run) && !run.failed
    ensures FailureExplained(api, Issue(run, request, Throws(api, request)))
  {
  }

  lemma GetEntityFieldsKeepsExplained(api: DynamicsApi, run: Run, entity: string)
    requires FailureExplained(api, run)
    ensures FailureExplained(api, GetEntityFields(api, run, entity).run)
  {
    if !run.failed {
      var afterAttributes := Issue(run, AttributesOf(entity), api.attributes(entity).Threw?);
      IssueKeepsExplained(api, run, AttributesOf(entity));
      if !afterAttributes.failed {
        var afterPicklists := Issue(afterAttributes, PicklistsOf(entity), api.picklists(entity).Threw?);
        IssueKeepsExplained(api, afterAttributes, PicklistsOf(entity));
        if !afterPicklists.failed {
          var afterLookups := Issue(afterPicklists, LookupsOf(entity), api.lookups(entity).Threw?);
          IssueKeepsExplained(api, afterPicklists, LookupsOf(entity));
          if !afterLookups.failed {
            PopulateCacheKeepsExplained(api, afterLookups, api.lookups(entity).value);
            assert GetEntityFields(api, run, entity).run == PopulateCache(api, afterLookups, api.lookups(entity).value);
          }
        }
      }
    }
  }

  /** The settings are empty only because a request threw: a failed discovery ends with the
      request whose reply was an exception, and a successful one made no request that threw. */
  lemma FetchFormSettingsFailsOnlyOnException(api: DynamicsApi, cache: Cache)
    ensures var r := FetchFormSettings(api, cache);
      && (r.failed ==> |r.requests| > 0 && Throws(api, r.requests[|r.requests| - 1]))
      && (!r.failed ==> forall i :: 0 <= i < |r.requests| ==> !Throws(api, r.requests[i]))
  {
    var account := FourEntitiesKeepExplained(api, cache);
    FetchFormSettingsHoldsEntityFields(api, cache);
    SettingsOfExplainedRun(api, FetchFormSettings(api, cache), account);
  }

  /** Settings that report an explained run inherit its explanation. */
  lemma SettingsOfExplainedRun(api: DynamicsApi, r: FormSettings, account: Run)
    requires r.failed == account.failed && r.requests == account.requests && FailureExplained(api, account)
    ensures r.failed ==> |r.requests| > 0 && Throws(api, r.requests[|r.requests| - 1])
    ensures !r.failed ==> forall i :: 0 <= i < |r.requests| ==> !Throws(api, r.requests[i])
  {
  }

  /** The run after the four entities is explained; it is returned so that the caller need
      not unfold the chain again. */
  lemma FourEntitiesKeepExplained(api: DynamicsApi, cache: Cache) returns (account: Run)
    ensures account == GetEntityFields(api, GetEntityFields(api, GetEntityFields(api,
              GetEntityFields(api, Run(cache, [], false), "contact").run, "lead").run, "opportunity").run, "account").run
    ensures FailureExplained(api, account)
  {
    var start := Run(cache, [], false);
    var contact := GetEntityFields(api, start, "contact");
    var lead := GetEntityFields(api, contact.run, "lead");
    var opportunity := GetEntityFields(api, lead.run, "opportunity");
    GetEntityFieldsKeepsExplained(api, start, "contact");
    GetEntityFieldsKeepsExplained(api, contact.run, "lead");
    GetEntityFieldsKeepsExplained(api, lead.run, "opportunity");
    GetEntityFieldsKeepsExplained(api, opportunity.run, "account");
    account := GetEntityFields(api, opportunity.run, "account").run;
  }

  /** A cache holding what the collections yield still does so after a discovery. */
  lemma FetchFormSettingsKeepsCacheFaithful(api: DynamicsApi, cache: Cache)
    requires CacheFaithful(api, cache)
    ensures CacheFaithful(api, FetchFormSettings(api, cache).cache)
  {
  }
}

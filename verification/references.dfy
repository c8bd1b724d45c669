/**
 The reference resolver of the Dynamics 365 connector: lookup attributes are given the
 records of their target entities as options, with a per-connector cache of the options
 of each target so that a collection which produced options is not requested again.
 */
module References {
  import opened Php
  import opened Schema

  /** Which collection to query for a target, and which record keys give label and value. */
  datatype TargetSchema = TargetSchema(collection: string, labelKey: string, valueKey: string)

  /** The nine lookup targets the connector knows; any other target is skipped. */
  const TargetSchemas: map<string, TargetSchema> := map[
    "businessunit" := TargetSchema("businessunits", "name", "businessunitid"),
    "systemuser" := TargetSchema("systemusers", "fullname", "systemuserid"),
    "account" := TargetSchema("accounts", "name", "accountid"),
    "contact" := TargetSchema("contacts", "fullname", "contactid"),
    "lead" := TargetSchema("leads", "fullname", "leadid"),
    "transactioncurrency" := TargetSchema("transactioncurrencies", "currencyname", "transactioncurrencyid"),
    "team" := TargetSchema("teams", "name", "teamid"),
    "campaign" := TargetSchema("campaigns", "fullname", "campaignid"),
    "pricelevel" := TargetSchema("pricelevels", "name", "pricelevelid")]

  /** The target whose collection a `GET` endpoint reads, if any. */
  function CollectionTarget(collection: string): Option<string> {
    match collection
    case "businessunits" => Some("businessunit")
    case "systemusers" => Some("systemuser")
    case "accounts" => Some("account")
    case "contacts" => Some("contact")
    case "leads" => Some("lead")
    case "transactioncurrencies" => Some("transactioncurrency")
    case "teams" => Some("team")
    case "campaigns" => Some("campaign")
    case "pricelevels" => Some("pricelevel")
    case _ => None
  }

  /** Each known target reads its own collection: the endpoint determines the target. */
  lemma CollectionDeterminesTarget()
    ensures forall t :: t in TargetSchemas ==> CollectionTarget(TargetSchemas[t].collection) == Some(t)
  {
  }

  /** No two targets share a collection, so "each target at most once" is the same as
      "each collection endpoint at most once". */
  lemma TargetTableIsInjective(t: string, u: string)
    requires t in TargetSchemas && u in TargetSchemas && t != u
    ensures TargetSchemas[t].collection != TargetSchemas[u].collection
  {
    CollectionDeterminesTarget();
  }

  /** A record of a target collection, as decoded JSON. */
  type Record = map<string, Json>

  /** One record of the lookup-attribute query. */
  datatype LookupMetadata = LookupMetadata(logicalName: Option<string>, targets: Option<seq<string>>)

  /** `_entityOptions`: options per target, kept for the connector's lifetime. */
  type Cache = map<string, seq<FieldOption>>

  /** System users that are application (service) accounts are never offered. */
  predicate Kept(target: string, record: Record) {
    !(target == "systemuser" && Get(record, "applicationid").Some?)
  }

  /** The option for one record: its label and a `collection(id)` bind value. */
  function OptionFor(schema: TargetSchema, record: Record): (o: FieldOption)
    ensures o.text == (if schema.labelKey in record && record[schema.labelKey] != Null
                       then record[schema.labelKey] else Str(""))
    ensures o.value.Str?
  {
    var id := ToPhpString(Get(record, schema.valueKey).GetOr(Str("")));
    FieldOption(Get(record, schema.labelKey).GetOr(Str("")), Str(schema.collection + "(" + id + ")"))
  }

  /** An option's value is the collection name, then the record's id (as PHP prints it, ""
      when missing) in parentheses. */
  lemma OptionValueWrapsId(schema: TargetSchema, record: Record)
    ensures var v := OptionFor(schema, record).value.s;
      && |v| >= |schema.collection| + 2
      && v[..|schema.collection|] == schema.collection
      && v[|schema.collection|..|schema.collection| + 1] == "("
      && v[|v| - 1] == ')'
      && v[|schema.collection| + 1..|v| - 1] == ToPhpString(Get(record, schema.valueKey).GetOr(Str("")))
  {
    var id := ToPhpString(Get(record, schema.valueKey).GetOr(Str("")));
    var v := schema.collection + "(" + id + ")";
    assert v[|schema.collection| + 1..|v| - 1] == id;
  }

  /** The options a fetched collection contributes, in record order. */
  function CollectionOptions(target: string, schema: TargetSchema, records: seq<Record>): (r: seq<FieldOption>)
    ensures forall o :: o in r ==> exists rec :: rec in records && Kept(target, rec) && o == OptionFor(schema, rec)
    ensures forall rec :: rec in records && Kept(target, rec) ==> OptionFor(schema, rec) in r
    ensures target != "systemuser" ==> |r| == |records|
    ensures |r| <= |records|
    decreases |records|
  {
    if |records| == 0 then []
    else
      var rest := CollectionOptions(target, schema, records[1..]);
      assert forall rec :: rec in records[1..] ==> rec in records;
      assert forall rec :: rec in records ==> rec == records[0] || rec in records[1..];
      if Kept(target, records[0]) then [OptionFor(schema, records[0])] + rest else rest
  }

  /** Options follow the records: one per kept record, in record order. */
  lemma {:induction false} CollectionOptionsAppend(target: string, schema: TargetSchema, a: seq<Record>, b: seq<Record>)
    ensures CollectionOptions(target, schema, a + b) ==
            CollectionOptions(target, schema, a) + CollectionOptions(target, schema, b)
    ensures |a| == 1 ==>
      CollectionOptions(target, schema, a) == if Kept(target, a[0]) then [OptionFor(schema, a[0])] else []
    decreases |a|
  {
    if |a| > 0 {
      assert (a + b)[0] == a[0] && (a + b)[1..] == a[1..] + b;
      CollectionOptionsAppend(target, schema, a[1..], b);
    } else {
      assert a + b == b;
    }
  }

  /** A system user with an application id never becomes an option. */
  lemma ApplicationUsersExcluded(records: seq<Record>, o: FieldOption)
    requires o in CollectionOptions("systemuser", TargetSchemas["systemuser"], records)
    ensures exists rec :: (rec in records && Get(rec, "applicationid").None? &&
                           o == OptionFor(TargetSchemas["systemuser"], rec))
  {
  }

  // ---------------------------------------------------------------------------
  // Requests and the state threaded through one discovery

  /** The GET requests discovery issues. A `Collection(t)` request reads the collection
      `TargetSchemas[t].collection`. */
  datatype Request =
    | AttributesOf(entity: string)
    | PicklistsOf(entity: string)
    | LookupsOf(entity: string)
    | Collection(target: string)

  /** The remote API as a value: what each GET returns, or that it throws. */
  datatype DynamicsApi = DynamicsApi(
    attributes: string -> Attempt<seq<AttributeMetadata>>,
    picklists: string -> Attempt<seq<PicklistMetadata>>,
    lookups: string -> Attempt<seq<LookupMetadata>>,
    collections: string -> Attempt<seq<Record>>)

  /** The cache, the requests made so far, and whether an exception is propagating. */
  datatype Run = Run(cache: Cache, requests: seq<Request>, failed: bool)

  /** The second map holds every entry of the first unchanged: the cache is never invalidated. */
  predicate Extends(before: Cache, after: Cache) {
    forall t :: t in before ==> t in after && after[t] == before[t]
  }

  /** The reply to the collection request of a known target. */
  function Fetched(api: DynamicsApi, target: string): Attempt<seq<Record>>
    requires target in TargetSchemas
  {
    api.collections(TargetSchemas[target].collection)
  }

  /** The options a known target's collection yields when it is fetched without error. */
  function TargetOptions(api: DynamicsApi, target: string): seq<FieldOption>
    requires target in TargetSchemas && Fetched(api, target).Done?
  {
    CollectionOptions(target, TargetSchemas[target], Fetched(api, target).value)
  }

  /** Every cache entry holds exactly the options its target's collection yields. */
  predicate CacheFaithful(api: DynamicsApi, cache: Cache) {
    forall t :: t in cache ==> t in TargetSchemas && Fetched(api, t).Done? && cache[t] == TargetOptions(api, t)
  }

  /** One target of one lookup attribute: fetch its collection unless it is unknown or cached.
      Options are appended one by one, so an empty result leaves the target uncached. */
  function FetchTarget(api: DynamicsApi, run: Run, target: string): (r: Run)
    ensures r.requests ==
      if !run.failed && target in TargetSchemas && target !in run.cache
      then run.requests + [Collection(target)] else run.requests
    ensures Extends(run.cache, r.cache)
    ensures r.cache.Keys <= run.cache.Keys + {target}
    ensures run.failed ==> r == run
    ensures r.failed != run.failed ==>
              (target in TargetSchemas && api.collections(TargetSchemas[target].collection).Threw? && r.cache == run.cache)
    ensures target in r.cache && target !in run.cache ==>
              target in TargetSchemas && Fetched(api, target).Done? && r.cache[target] == TargetOptions(api, target)
    ensures !run.failed && target in TargetSchemas && target !in run.cache && Fetched(api, target).Done? ==>
              (target in r.cache <==> |TargetOptions(api, target)| > 0)
    ensures CacheFaithful(api, run.cache) ==> CacheFaithful(api, r.cache)
  {
    if run.failed || target !in TargetSchemas || target in run.cache then run
    else
      var schema := TargetSchemas[target];
      var requests := run.requests + [Collection(target)];
      match api.collections(schema.collection)
      case Threw => Run(run.cache, requests, true)
      case Done(records) =>
        var options := CollectionOptions(target, schema, records);
        Run(if |options| > 0 then run.cache[target := options] else run.cache, requests, false)
  }

  function FetchTargets(api: DynamicsApi, run: Run, targets: seq<string>): (r: Run)
    ensures Extends(run.cache, r.cache)
    ensures CacheFaithful(api, run.cache) ==> CacheFaithful(api, r.cache)
    ensures |run.requests| <= |r.requests| && r.requests[..|run.requests|] == run.requests
    ensures run.failed ==> r == run
    decreases |targets|
  {
    if |targets| == 0 then run
    else FetchTargets(api, FetchTarget(api, run, targets[0]), targets[1..])
  }

  /** The first loop of `_getEntityOwnerOptions`: fill the cache for every lookup attribute. */
  function PopulateCache(api: DynamicsApi, run: Run, lookups: seq<LookupMetadata>): (r: Run)
    ensures Extends(run.cache, r.cache)
    ensures CacheFaithful(api, run.cache) ==> CacheFaithful(api, r.cache)
    ensures |run.requests| <= |r.requests| && r.requests[..|run.requests|] == run.requests
    ensures run.failed ==> r == run
    decreases |lookups|
  {
    if |lookups| == 0 then run
    else PopulateCache(api, FetchTargets(api, run, lookups[0].targets.GetOr([])), lookups[1..])
  }

  // ---------------------------------------------------------------------------
  // At most one fetch per target, unless the fetch produced nothing

  /** The target's collection is fetched without error and yields no option. */
  predicate YieldsNothing(api: DynamicsApi, target: string) {
    && target in TargetSchemas
    && api.collections(TargetSchemas[target].collection).Done?
    && |CollectionOptions(target, TargetSchemas[target], api.collections(TargetSchemas[target].collection).value)| == 0
  }

  /** What the cache guarantees about the collection requests made so far. */
  predicate CacheDiscipline(api: DynamicsApi, run: Run) {
    && (forall i :: 0 <= i < |run.requests| && run.requests[i].Collection? ==>
          run.requests[i].target in TargetSchemas)
    && (forall i :: 0 <= i < |run.requests| && run.requests[i].Collection? ==>
          run.requests[i].target in run.cache || YieldsNothing(api, run.requests[i].target) || run.failed)
    && (forall i, j :: 0 <= i < j < |run.requests| && run.requests[i].Collection? && run.requests[j] == run.requests[i] ==>
          YieldsNothing(api, run.requests[i].target))
  }

  lemma FetchTargetKeepsDiscipline(api: DynamicsApi, run: Run, target: string)
    requires CacheDiscipline(api, run)
    ensures CacheDiscipline(api, FetchTarget(api, run, target))
  {
    var r := FetchTarget(api, run, target);
    if !run.failed && target in TargetSchemas && target !in run.cache {
      var n := |run.requests|;
      assert r.requests[n] == Collection(target);
      forall i | 0 <= i < n && r.requests[i] == r.requests[n]
        ensures YieldsNothing(api, target)
      {
        assert run.requests[i] == Collection(target);
      }
      if !r.failed && !YieldsNothing(api, target) {
        assert target in r.cache;
      }
    }
  }

  lemma {:induction false} FetchTargetsKeepsDiscipline(api: DynamicsApi, run: Run, targets: seq<string>)
    requires CacheDiscipline(api, run)
    ensures CacheDiscipline(api, FetchTargets(api, run, targets))
    decreases |targets|
  {
    if |targets| > 0 {
      FetchTargetKeepsDiscipline(api, run, targets[0]);
      FetchTargetsKeepsDiscipline(api, FetchTarget(api, run, targets[0]), targets[1..]);
    }
  }

  lemma {:induction false} PopulateCacheKeepsDiscipline(api: DynamicsApi, run: Run, lookups: seq<LookupMetadata>)
    requires CacheDiscipline(api, run)
    ensures CacheDiscipline(api, PopulateCache(api, run, lookups))
    decreases |lookups|
  {
    if |lookups| > 0 {
      FetchTargetsKeepsDiscipline(api, run, lookups[0].targets.GetOr([]));
      PopulateCacheKeepsDiscipline(api, FetchTargets(api, run, lookups[0].targets.GetOr([])), lookups[1..]);
    }
  }

  /** A target already in the cache is never requested again. */
  lemma {:induction false} CachedTargetsNotRequested(api: DynamicsApi, run: Run, lookups: seq<LookupMetadata>, t: string)
    requires t in run.cache
    ensures forall i :: |run.requests| <= i < |PopulateCache(api, run, lookups).requests| ==>
      PopulateCache(api, run, lookups).requests[i] != Collection(t)
    decreases |lookups|
  {
    if |lookups| > 0 {
      var mid := FetchTargets(api, run, lookups[0].targets.GetOr([]));
      FetchTargetsSkipsCached(api, run, lookups[0].targets.GetOr([]), t);
      CachedTargetsNotRequested(api, mid, lookups[1..], t);
    }
  }

  lemma {:induction false} FetchTargetsSkipsCached(api: DynamicsApi, run: Run, targets: seq<string>, t: string)
    requires t in run.cache
    ensures forall i :: |run.requests| <= i < |FetchTargets(api, run, targets).requests| ==>
      FetchTargets(api, run, targets).requests[i] != Collection(t)
    decreases |targets|
  {
    if |targets| > 0 {
      var mid := FetchTarget(api, run, targets[0]);
      var r := FetchTargets(api, mid, targets[1..]);
      FetchTargetsSkipsCached(api, mid, targets[1..], t);
      forall i | |run.requests| <= i < |mid.requests|
        ensures r.requests[i] != Collection(t)
      {
        assert r.requests[i] == r.requests[..|mid.requests|][i] == mid.requests[i];
      }
    }
  }

  // ---------------------------------------------------------------------------
  // An exception propagates only from a request that threw

  /** The reply to this request is an exception. */
  predicate Throws(api: DynamicsApi, request: Request) {
    match request
    case AttributesOf(e) => api.attributes(e).Threw?
    case PicklistsOf(e) => api.picklists(e).Threw?
    case LookupsOf(e) => api.lookups(e).Threw?
    case Collection(t) => t in TargetSchemas && Fetched(api, t).Threw?
  }

  /** No request but a failing last one threw, and a failure is the last request's exception. */
  predicate FailureExplained(api: DynamicsApi, run: Run) {
    && (forall i :: 0 <= i < |run.requests| && (i < |run.requests| - 1 || !run.failed) ==> !Throws(api, run.requests[i]))
    && (run.failed ==> |run.requests| > 0 && Throws(api, run.requests[|run.requests| - 1]))
  }

  lemma FetchTargetKeepsExplained(api: DynamicsApi, run: Run, target: string)
    requires FailureExplained(api, run)
    ensures FailureExplained(api, FetchTarget(api, run, target))
  {
  }

  lemma {:induction false} FetchTargetsKeepExplained(api: DynamicsApi, run: Run, targets: seq<string>)
    requires FailureExplained(api, run)
    ensures FailureExplained(api, FetchTargets(api, run, targets))
    decreases |targets|
  {
    if |targets| > 0 {
      FetchTargetKeepsExplained(api, run, targets[0]);
      FetchTargetsKeepExplained(api, FetchTarget(api, run, targets[0]), targets[1..]);
    }
  }

  lemma {:induction false} PopulateCacheKeepsExplained(api: DynamicsApi, run: Run, lookups: seq<LookupMetadata>)
    requires FailureExplained(api, run)
    ensures FailureExplained(api, PopulateCache(api, run, lookups))
    decreases |lookups|
  {
    if |lookups| > 0 {
      FetchTargetsKeepExplained(api, run, lookups[0].targets.GetOr([]));
      PopulateCacheKeepsExplained(api, FetchTargets(api, run, lookups[0].targets.GetOr([])), lookups[1..]);
    }
  }

  // ---------------------------------------------------------------------------
  // Assigning the cached options to lookup fields

  /** The cached options of every target of an attribute, concatenated in target order. */
  function MergedOptions(cache: Cache, targets: seq<string>): (r: seq<FieldOption>)
    ensures forall o :: o in r ==> exists t :: t in targets && t in cache && o in cache[t]
    ensures forall t, o :: t in targets && t in cache && o in cache[t] ==> o in r
    decreases |targets|
  {
    if |targets| == 0 then []
    else
      var rest := MergedOptions(cache, targets[1..]);
      assert forall t :: t in targets[1..] ==> t in targets;
      assert forall t :: t in targets ==> t == targets[0] || t in targets[1..];
      (if targets[0] in cache then cache[targets[0]] else []) + rest
  }

  /** Merging keeps target order: the options of earlier targets come first, and a single
      target contributes its cached list as it is. */
  lemma {:induction false} MergedOptionsAppend(cache: Cache, a: seq<string>, b: seq<string>)
    ensures MergedOptions(cache, a + b) == MergedOptions(cache, a) + MergedOptions(cache, b)
    ensures |a| == 1 ==> MergedOptions(cache, a) == if a[0] in cache then cache[a[0]] else []
    decreases |a|
  {
    if |a| > 0 {
      assert (a + b)[0] == a[0] && (a + b)[1..] == a[1..] + b;
      MergedOptionsAppend(cache, a[1..], b);
    } else {
      assert a + b == b;
    }
  }

  /** One iteration of the assigning loop. */
  function AttachLookup(index: seq<Entry>, cache: Cache, l: LookupMetadata): (r: seq<Entry>)
    ensures var key := l.logicalName.GetOr("");
      var options := MergedOptions(cache, l.targets.GetOr([]));
      if key in {"", "0"} || Lookup(index, key).None? || |options| == 0 then r == index
      else
        var f := Lookup(index, key).value;
        && Lookup(r, key) == Some(f.(options := Some(OptionGroup(f.name, options))))
        && forall k :: k != key ==> Lookup(r, k) == Lookup(index, k)
    ensures |r| == |index| && forall i :: 0 <= i < |r| ==> r[i].key == index[i].key
    ensures DistinctKeys(index) ==> DistinctKeys(r)
  {
    var key := l.logicalName.GetOr("");
    var options := MergedOptions(cache, l.targets.GetOr([]));
    if !TruthyString(key) || Lookup(index, key).None? || |options| == 0 then index
    else SetOptions(index, key, options)
  }

  function AttachLookups(index: seq<Entry>, cache: Cache, lookups: seq<LookupMetadata>): (r: seq<Entry>)
    ensures |r| == |index| && forall i :: 0 <= i < |r| ==> r[i].key == index[i].key
    ensures DistinctKeys(index) ==> DistinctKeys(r)
    decreases |lookups|
  {
    if |lookups| == 0 then index
    else AttachLookups(AttachLookup(index, cache, lookups[0]), cache, lookups[1..])
  }

  /** The option `o` is one the collection of the known target `t` yields. */
  predicate OptionOf(api: DynamicsApi, t: string, o: FieldOption) {
    t in TargetSchemas && Fetched(api, t).Done? && o in TargetOptions(api, t)
  }

  /** With a faithful cache, every option the assigning loop gives a field was built from a
      kept record of one of the targets' collections: a system user with an application id
      never reaches a field. */
  lemma {:induction false} AttachedOptionsFromCollections(api: DynamicsApi, index: seq<Entry>, cache: Cache,
                                                          lookups: seq<LookupMetadata>, key: string)
    requires CacheFaithful(api, cache)
    ensures var before := Lookup(index, key);
      var after := Lookup(AttachLookups(index, cache, lookups), key);
      || after == before
      || (&& after.Some? && after.value.options.Some?
          && forall o :: o in after.value.options.value.options ==> exists t :: OptionOf(api, t, o))
    decreases |lookups|
  {
    if |lookups| > 0 {
      var next := AttachLookup(index, cache, lookups[0]);
      AttachedOptionsFromCollections(api, next, cache, lookups[1..], key);
      var l := lookups[0];
      var merged := MergedOptions(cache, l.targets.GetOr([]));
      forall o | o in merged ensures exists t :: OptionOf(api, t, o) {
        var t :| t in l.targets.GetOr([]) && t in cache && o in cache[t];
        assert OptionOf(api, t, o);
      }
    }
  }

  /** An option of the system-user collection comes from a record with no `applicationid`. */
  lemma SystemUserOptionsExcludeApplications(api: DynamicsApi, o: FieldOption)
    requires OptionOf(api, "systemuser", o)
    ensures exists rec :: rec in Fetched(api, "systemuser").value && Get(rec, "applicationid").None? &&
                          o == OptionFor(TargetSchemas["systemuser"], rec)
  {
    ApplicationUsersExcluded(Fetched(api, "systemuser").value, o);
  }
}

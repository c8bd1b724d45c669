/**
 Schema discovery of the Dynamics 365 connector: attribute metadata is filtered into
 field descriptors, indexed by logical name, given picklist options, and sorted by label.
 */
module Schema {
  import opened Php

  /** The field types a descriptor can carry (the host's TYPE_* constants). */
  datatype FieldType = StringType | NumberType | FloatType | BooleanType | DateTimeType

  /** One selectable choice; picklists carry a number, lookups a `collection(id)` reference. */
  datatype FieldOption = FieldOption(text: Json, value: Json)

  /** The `options` of a descriptor: a group labelled with the field's name. */
  datatype OptionGroup = OptionGroup(title: string, options: seq<FieldOption>)

  /** An IntegrationField as the discovery builds it. */
  datatype FieldDescriptor = FieldDescriptor(
    handle: string,
    name: string,
    fieldType: FieldType,
    required: bool,
    options: Option<OptionGroup>)

  /** One record of the `Attributes` expansion; `None` is a missing key or a null. */
  datatype AttributeMetadata = AttributeMetadata(
    displayLabel: Option<string>,   // DisplayName.UserLocalizedLabel.Label
    logicalName: Option<string>,    // LogicalName
    isValidForCreate: Option<bool>, // IsValidForCreate
    requiredLevel: Option<string>,  // RequiredLevel.Value
    attributeType: Option<string>,  // AttributeType
    odataType: Option<string>)      // @odata.type

  /** One record of the picklist query, with its global option set. */
  datatype PicklistOption = PicklistOption(text: Option<string>, value: Json)
  datatype PicklistMetadata = PicklistMetadata(
    logicalName: Option<string>,
    options: Option<seq<PicklistOption>>)

  /** The bind annotation of OData JSON Format Version 4.0, section 8.5. */
  const BindSuffix := "@odata.bind"
  const LookupODataType := "#Microsoft.Dynamics.CRM.LookupAttributeMetadata"

  /** Attribute types that never become a form field. */
  const ExcludedTypes: seq<string> := ["Virtual", "Uniqueidentifier", "Customer", "EntityName"]

  /** Remote attribute type to field type; every other type reads as a string. */
  const FieldTypes: map<string, FieldType> := map[
    "Decimal" := FloatType,
    "Double" := FloatType,
    "BigInt" := NumberType,
    "Integer" := NumberType,
    "Boolean" := BooleanType,
    "Money" := FloatType,
    "DateTime" := DateTimeType]

  function ConvertFieldType(attributeType: string): (r: FieldType)
    ensures r == FloatType <==> attributeType in {"Decimal", "Double", "Money"}
    ensures r == NumberType <==> attributeType in {"BigInt", "Integer"}
    ensures r == BooleanType <==> attributeType == "Boolean"
    ensures r == DateTimeType <==> attributeType == "DateTime"
    ensures r == StringType <==>
      attributeType !in {"Decimal", "Double", "BigInt", "Integer", "Boolean", "Money", "DateTime"}
  {
    if attributeType in FieldTypes then FieldTypes[attributeType] else StringType
  }

  /** The index key of an attribute: its unsuffixed logical name. */
  function KeyOf(a: AttributeMetadata): string {
    a.logicalName.GetOr("")
  }

  predicate IsLookup(a: AttributeMetadata) {
    a.odataType.GetOr("") == LookupODataType
  }

  /** The descriptor an attribute yields, if it passes the filter. */
  function Describe(a: AttributeMetadata): (r: Option<FieldDescriptor>)
    ensures r.Some? <==>
      && a.displayLabel.GetOr("") !in {"", "0"}
      && a.logicalName.GetOr("") !in {"", "0"}
      && a.isValidForCreate == Some(true)
      && a.attributeType.GetOr("") !in {"Virtual", "Uniqueidentifier", "Customer", "EntityName"}
    ensures r.Some? ==> r.value.name == a.displayLabel.value
    ensures r.Some? ==> r.value.fieldType == ConvertFieldType(a.attributeType.GetOr(""))
    ensures r.Some? ==> (r.value.required <==> a.requiredLevel.GetOr("None") != "None")
    ensures r.Some? && a.odataType == Some("#Microsoft.Dynamics.CRM.LookupAttributeMetadata") ==>
              r.value.handle == a.logicalName.value + "@odata.bind"
    ensures r.Some? && a.odataType != Some("#Microsoft.Dynamics.CRM.LookupAttributeMetadata") ==>
              r.value.handle == a.logicalName.value
    ensures r.Some? ==> r.value.options.None?
  {
    var caption := a.displayLabel.GetOr("");
    var key := KeyOf(a);
    var canCreate := a.isValidForCreate.GetOr(false);
    var requiredLevel := a.requiredLevel.GetOr("None");
    var attributeType := a.attributeType.GetOr("");
    if !TruthyString(caption) || !TruthyString(key) || !canCreate || attributeType in ExcludedTypes then
      None
    else
      var handle := if IsLookup(a) then key + BindSuffix else key;
      Some(FieldDescriptor(handle, caption, ConvertFieldType(attributeType), requiredLevel != "None", None))
  }

  predicate EndsWithBind(handle: string) {
    |handle| >= |BindSuffix| && handle[|handle| - |BindSuffix|..] == BindSuffix
  }

  /** The handle with a trailing bind suffix removed. */
  function StripBind(handle: string): (r: string)
    ensures EndsWithBind(handle) ==> r + BindSuffix == handle
    ensures !EndsWithBind(handle) ==> r == handle
  {
    if EndsWithBind(handle) then handle[..|handle| - |BindSuffix|] else handle
  }

  /** A logical name is a plain identifier: it never contains '@'. */
  predicate PlainName(s: string) {
    forall i :: 0 <= i < |s| ==> s[i] != '@'
  }

  /** A descriptor's handle ends with the bind suffix exactly when its attribute is a lookup,
      and stripping the suffix gives back the index key. */
  lemma BindHandleRoundTrip(a: AttributeMetadata)
    requires Describe(a).Some?
    requires PlainName(KeyOf(a))
    ensures EndsWithBind(Describe(a).value.handle) <==> IsLookup(a)
    ensures StripBind(Describe(a).value.handle) == KeyOf(a)
  {
    var key := KeyOf(a);
    var h := Describe(a).value.handle;
    if IsLookup(a) {
      assert h[|h| - |BindSuffix|..] == BindSuffix;
    } else {
      assert h == key;
      assert !EndsWithBind(h) by {
        if |h| >= |BindSuffix| {
          assert h[|h| - |BindSuffix|..][0] == h[|h| - |BindSuffix|] != '@';
        }
      }
    }
  }

  // ---------------------------------------------------------------------------
  // The `$fields` array: keyed by logical name, insertion ordered.

  datatype Entry = Entry(key: string, field: FieldDescriptor)

  function Lookup(index: seq<Entry>, key: string): Option<FieldDescriptor> {
    if |index| == 0 then None
    else if index[0].key == key then Some(index[0].field)
    else Lookup(index[1..], key)
  }

  predicate DistinctKeys(index: seq<Entry>) {
    forall i, j :: 0 <= i < j < |index| ==> index[i].key != index[j].key
  }

  lemma {:induction false} LookupNoneIffAbsent(index: seq<Entry>, key: string)
    ensures Lookup(index, key).None? <==> forall i :: 0 <= i < |index| ==> index[i].key != key
  {
    if |index| > 0 {
      LookupNoneIffAbsent(index[1..], key);
      assert forall i :: 1 <= i < |index| ==> index[i] == index[1..][i - 1];
    }
  }

  /** `$fields[$key] = $field`: overwrites in place, or appends a new key at the end. */
  function Upsert(index: seq<Entry>, key: string, field: FieldDescriptor): (r: seq<Entry>)
    ensures Lookup(r, key) == Some(field)
    ensures forall k :: k != key ==> Lookup(r, k) == Lookup(index, k)
    ensures Lookup(index, key).Some? ==> |r| == |index| && forall i :: 0 <= i < |r| ==> r[i].key == index[i].key
    ensures Lookup(index, key).None? ==> r == index + [Entry(key, field)]
  {
    if |index| == 0 then [Entry(key, field)]
    else if index[0].key == key then [Entry(key, field)] + index[1..]
    else [index[0]] + Upsert(index[1..], key, field)
  }

  lemma UpsertKeepsKeysDistinct(index: seq<Entry>, key: string, field: FieldDescriptor)
    ensures DistinctKeys(index) ==> DistinctKeys(Upsert(index, key, field))
  {
    LookupNoneIffAbsent(index, key);
  }

  /** The attribute loop of `_getEntityFields`, starting from the array built so far. */
  function IndexAttributes(attributes: seq<AttributeMetadata>, index: seq<Entry>): (r: seq<Entry>)
    ensures DistinctKeys(index) ==> DistinctKeys(r)
    decreases |attributes|
  {
    if |attributes| == 0 then index
    else
      var a := attributes[0];
      UpsertKeepsKeysDistinct(index, KeyOf(a), Describe(a).GetOr(FieldDescriptor("", "", StringType, false, None)));
      var next := match Describe(a)
        case Some(f) => Upsert(index, KeyOf(a), f)
        case None => index;
      IndexAttributes(attributes[1..], next)
  }

  /** Reference reading of "last one wins": the descriptor of the latest passing attribute
      with that logical name. */
  function LastDescriptor(attributes: seq<AttributeMetadata>, key: string): Option<FieldDescriptor>
    decreases |attributes|
  {
    if |attributes| == 0 then None
    else
      var later := LastDescriptor(attributes[1..], key);
      if later.Some? then later
      else if Describe(attributes[0]).Some? && KeyOf(attributes[0]) == key then Describe(attributes[0])
      else None
  }

  /** Duplicate logical names keep the last descriptor; keys are exactly the passing logical names. */
  lemma {:induction false} IndexIsLastWins(attributes: seq<AttributeMetadata>, index: seq<Entry>, key: string)
    ensures Lookup(IndexAttributes(attributes, index), key) ==
      if LastDescriptor(attributes, key).Some? then LastDescriptor(attributes, key) else Lookup(index, key)
    decreases |attributes|
  {
    if |attributes| > 0 {
      var a := attributes[0];
      var next := match Describe(a)
        case Some(f) => Upsert(index, KeyOf(a), f)
        case None => index;
      IndexIsLastWins(attributes[1..], next, key);
    }
  }

  /** Every descriptor in the index comes out of the filter: no excluded, unlabelled,
      non-creatable attribute is ever indexed. */
  lemma {:induction false} IndexHoldsOnlyDescribed(attributes: seq<AttributeMetadata>, key: string)
    requires Lookup(IndexAttributes(attributes, []), key).Some?
    ensures exists a :: a in attributes && KeyOf(a) == key && Describe(a) == Lookup(IndexAttributes(attributes, []), key)
  {
    IndexIsLastWins(attributes, [], key);
    LastDescriptorFrom(attributes, key);
  }

  lemma {:induction false} LastDescriptorFrom(attributes: seq<AttributeMetadata>, key: string)
    requires LastDescriptor(attributes, key).Some?
    ensures exists a :: a in attributes && KeyOf(a) == key && Describe(a) == LastDescriptor(attributes, key)
    decreases |attributes|
  {
    if LastDescriptor(attributes[1..], key).Some? {
      LastDescriptorFrom(attributes[1..], key);
      var a :| a in attributes[1..] && KeyOf(a) == key && Describe(a) == LastDescriptor(attributes[1..], key);
      assert a in attributes;
    } else {
      assert attributes[0] in attributes;
    }
  }

  // ---------------------------------------------------------------------------
  // Picklists

  /** `$options` of one picklist field, in source order. */
  function PicklistOptions(pickList: seq<PicklistOption>): (r: seq<FieldOption>)
    ensures |r| == |pickList|
    ensures forall i :: 0 <= i < |r| ==> r[i].value == pickList[i].value
    ensures forall i :: 0 <= i < |r| ==> r[i].text == Str(pickList[i].text.GetOr(""))
  {
    seq(|pickList|, i requires 0 <= i < |pickList| => FieldOption(Str(pickList[i].text.GetOr("")), pickList[i].value))
  }

  /** `$field->options = [...]` on the indexed descriptor (objects are shared, so the index sees it). */
  function SetOptions(index: seq<Entry>, key: string, options: seq<FieldOption>): (r: seq<Entry>)
    requires Lookup(index, key).Some?
    ensures var f := Lookup(index, key).value;
      Lookup(r, key) == Some(f.(options := Some(OptionGroup(f.name, options))))
    ensures forall k :: k != key ==> Lookup(r, k) == Lookup(index, k)
    ensures |r| == |index| && forall i :: 0 <= i < |r| ==> r[i].key == index[i].key
    ensures DistinctKeys(index) ==> DistinctKeys(r)
  {
    var f := Lookup(index, key).value;
    Upsert(index, key, f.(options := Some(OptionGroup(f.name, options))))
  }

  /** One iteration of the picklist loop. */
  function AttachPicklist(index: seq<Entry>, p: PicklistMetadata): (r: seq<Entry>)
    ensures var key := p.logicalName.GetOr("");
      var pickList := p.options.GetOr([]);
      if key in {"", "0"} || |pickList| == 0 || Lookup(index, key).None? then r == index
      else
        var f := Lookup(index, key).value;
        && Lookup(r, key) == Some(f.(options := Some(OptionGroup(f.name, PicklistOptions(pickList)))))
        && forall k :: k != key ==> Lookup(r, k) == Lookup(index, k)
    ensures |r| == |index| && forall i :: 0 <= i < |r| ==> r[i].key == index[i].key
    ensures DistinctKeys(index) ==> DistinctKeys(r)
  {
    var key := p.logicalName.GetOr("");
    var pickList := p.options.GetOr([]);
    if !TruthyString(key) || |pickList| == 0 || Lookup(index, key).None? then index
    else SetOptions(index, key, PicklistOptions(pickList))
  }

  function AttachPicklists(index: seq<Entry>, picklists: seq<PicklistMetadata>): (r: seq<Entry>)
    ensures |r| == |index| && forall i :: 0 <= i < |r| ==> r[i].key == index[i].key
    ensures DistinctKeys(index) ==> DistinctKeys(r)
    decreases |picklists|
  {
    if |picklists| == 0 then index
    else AttachPicklists(AttachPicklist(index, picklists[0]), picklists[1..])
  }

  // ---------------------------------------------------------------------------
  // `array_values` and `usort` by `strcmp` of the names

  function Values(index: seq<Entry>): (r: seq<FieldDescriptor>)
    ensures |r| == |index|
    ensures forall i :: 0 <= i < |r| ==> r[i] == index[i].field
  {
    seq(|index|, i requires 0 <= i < |index| => index[i].field)
  }

  predicate SortedByName(fields: seq<FieldDescriptor>) {
    forall i, j :: 0 <= i < j < |fields| ==> Strcmp(fields[i].name, fields[j].name) <= 0
  }

  function InsertByName(f: FieldDescriptor, sorted: seq<FieldDescriptor>): (r: seq<FieldDescriptor>)
    requires SortedByName(sorted)
    ensures SortedByName(r)
    ensures multiset(r) == multiset(sorted) + multiset{f}
    decreases |sorted|
  {
    if |sorted| == 0 then [f]
    else if Strcmp(f.name, sorted[0].name) <= 0 then
      InsertAtFront(f, sorted);
      [f] + sorted
    else
      var rest := InsertByName(f, sorted[1..]);
      assert sorted == [sorted[0]] + sorted[1..];
      InsertBehind(f, sorted, rest);
      [sorted[0]] + rest
  }

  lemma InsertAtFront(f: FieldDescriptor, sorted: seq<FieldDescriptor>)
    requires SortedByName(sorted) && |sorted| > 0
    requires Strcmp(f.name, sorted[0].name) <= 0
    ensures SortedByName([f] + sorted)
  {
    var r := [f] + sorted;
    forall i, j | 0 <= i < j < |r|
      ensures Strcmp(r[i].name, r[j].name) <= 0
    {
      if i == 0 && j > 1 {
        StrcmpIsTotalOrder(f.name, sorted[0].name, sorted[j - 1].name);
      }
    }
  }

  lemma InsertBehind(f: FieldDescriptor, sorted: seq<FieldDescriptor>, rest: seq<FieldDescriptor>)
    requires SortedByName(sorted) && |sorted| > 0
    requires Strcmp(f.name, sorted[0].name) > 0
    requires SortedByName(rest)
    requires multiset(rest) == multiset(sorted[1..]) + multiset{f}
    ensures SortedByName([sorted[0]] + rest)
  {
    var r := [sorted[0]] + rest;
    forall j | 1 <= j < |r|
      ensures Strcmp(sorted[0].name, r[j].name) <= 0
    {
      assert r[j] in multiset(rest);
      if r[j] == f {
        StrcmpIsTotalOrder(f.name, sorted[0].name, f.name);
      } else {
        assert r[j] in multiset(sorted[1..]);
        var k :| 0 <= k < |sorted[1..]| && sorted[1..][k] == r[j];
        assert sorted[k + 1] == r[j];
      }
    }
  }

  /** `usort($fields, fn => strcmp($a->name, $b->name))` */
  function SortByName(fields: seq<FieldDescriptor>): (r: seq<FieldDescriptor>)
    ensures SortedByName(r)
    ensures multiset(r) == multiset(fields)
    decreases |fields|
  {
    if |fields| == 0 then []
    else
      assert fields == [fields[0]] + fields[1..];
      InsertByName(fields[0], SortByName(fields[1..]))
  }
}

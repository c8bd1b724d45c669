/**
 The MailerLite email-marketing connector: the subscriber payload and the verdict of
 `sendPayload`, the connection probe of `fetchConnection`, and the list/field assembly of
 `fetchFormSettings`. Replies of the MailerLite API are inputs.
 */
module MailerLite {
  import opened Php

  // ---------------------------------------------------------------------------
  // sendPayload

  /** The body posted to `groups/{listId}/subscribers`. */
  datatype SubscriberPayload = SubscriberPayload(email: Json, name: Json, fields: map<string, Json>, resubscribe: bool)

  /** `email` and `name` are pulled out of the mapped values to the top level; the rest
      become custom fields, and the subscriber is always resubscribed. */
  function BuildPayload(values: map<string, Json>): (r: SubscriberPayload)
    ensures r.email == (if "email" in values then values["email"] else Null)
    ensures r.name == (if "name" in values then values["name"] else Null)
    ensures r.fields.Keys == values.Keys - {"email", "name"}
    ensures forall k :: k in r.fields ==> r.fields[k] == values[k]
    ensures r.resubscribe
  {
    var (email, rest) := Remove(values, "email");
    var (name, fields) := Remove(rest, "name");
    SubscriberPayload(email, name, fields, true)
  }

  /** The mapped values a payload was built from, when `email` and `name` were given. */
  function MergeBack(p: SubscriberPayload): map<string, Json> {
    var withEmail := if p.email != Null then p.fields["email" := p.email] else p.fields;
    if p.name != Null then withEmail["name" := p.name] else withEmail
  }

  /** No value is lost: the payload's parts put back together give the mapped values, as long
      as neither `email` nor `name` was mapped to null (a null and a missing value both
      become null). */
  lemma BuildPayloadRoundTrip(values: map<string, Json>)
    requires "email" in values ==> values["email"] != Null
    requires "name" in values ==> values["name"] != Null
    ensures MergeBack(BuildPayload(values)) == values
  {
    var r := MergeBack(BuildPayload(values));
    assert r.Keys == values.Keys;
  }

  /** The URI subscribers of a list are posted to. */
  function SubscribersUri(listId: string): (r: string)
    ensures |r| == |listId| + |"groups/"| + |"/subscribers"|
    ensures r[..|"groups/"|] == "groups/" && r[|r| - |"/subscribers"|..] == "/subscribers"
  {
    "groups/" + listId + "/subscribers"
  }

  /** The list id read back out of a subscribers URI. */
  function ListIdOf(uri: string): string
    requires |uri| >= |"groups/"| + |"/subscribers"|
  {
    uri[|"groups/"|..|uri| - |"/subscribers"|]
  }

  /** Distinct lists post to distinct URIs. */
  lemma SubscribersUriRoundTrip(listId: string)
    ensures ListIdOf(SubscribersUri(listId)) == listId
  {
    var u := SubscribersUri(listId);
    assert u == "groups/" + listId + "/subscribers";
    assert u[|"groups/"|..|u| - |"/subscribers"|] == listId;
  }

  /** `sendPayload`. Computing the mapped values may throw; the delivery is asked for the post
      of the built payload to the list's URI. It returns true exactly when the reply carries
      a truthy `id`. */
  function SendPayload(values: Attempt<map<string, Json>>, listId: string,
                       deliver: (string, SubscriberPayload) -> Reply): (r: bool)
    ensures values.Threw? ==> !r
    ensures values.Done? ==>
      var reply := deliver(SubscribersUri(listId), BuildPayload(values.value));
      (r <==> reply.Responded? && reply.body.Object? && "id" in reply.body.entries && Truthy(reply.body.entries["id"]))
  {
    match values
    case Threw => false
    case Done(v) =>
      match deliver(SubscribersUri(listId), BuildPayload(v))
      case Suppressed => false
      case Raised => false
      case Responded(body) => Truthy(Coalesce(body, "id", Str("")))
  }

  /** A `false` delivery is reported as not sent, unlike the Dynamics 365 connector. */
  lemma SuppressedSendIsFalse(values: map<string, Json>, listId: string, deliver: (string, SubscriberPayload) -> Reply)
    requires IsFalse(deliver(SubscribersUri(listId), BuildPayload(values)))
    ensures !SendPayload(Done(values), listId, deliver)
  {
  }

  // ---------------------------------------------------------------------------
  // fetchConnection

  /** `$response['account']['id'] ?? ''` */
  function AccountId(body: Json): Json {
    match At(body, "account")
    case None => Str("")
    case Some(account) => Coalesce(account, "id", Str(""))
  }

  /** `fetchConnection`: the `me` request succeeds and its reply names an account with a
      truthy id. */
  function FetchConnection(reply: Attempt<Json>): (r: bool)
    ensures r <==> && reply.Done? && reply.value.Object?
                   && "account" in reply.value.entries
                   && reply.value.entries["account"].Object?
                   && "id" in reply.value.entries["account"].entries
                   && Truthy(reply.value.entries["account"].entries["id"])
  {
    match reply
    case Threw => false
    case Done(body) => Truthy(AccountId(body))
  }

  // ---------------------------------------------------------------------------
  // fetchFormSettings

  /** An entry of the `groups` reply. */
  datatype Group = Group(id: Json, name: Json)

  /** An entry of the `fields` reply. */
  datatype RemoteField = RemoteField(key: Json, title: Json, fieldType: Json)

  datatype IntegrationField = IntegrationField(handle: string, name: Json, fieldType: Json)

  datatype EmailList = EmailList(id: string, name: Json, fields: seq<IntegrationField>)

  /** The settings array: `lists` is absent until a list is appended. */
  datatype Settings = Settings(lists: Option<seq<EmailList>>)

  function ToField(f: RemoteField): (r: IntegrationField)
    ensures r.handle == ToPhpString(f.key) && r.name == f.title && r.fieldType == f.fieldType
  {
    IntegrationField(ToPhpString(f.key), f.title, f.fieldType)
  }

  function ToFields(fs: seq<RemoteField>): (r: seq<IntegrationField>)
    ensures |r| == |fs| && forall i :: 0 <= i < |fs| ==> r[i] == ToField(fs[i])
  {
    seq(|fs|, i requires 0 <= i < |fs| => ToField(fs[i]))
  }

  /** How the field list of each email list is formed: from every fetch so far, as the source
      does since `$listFields` is never reset, or from the list's own fetch, as evidently
      intended. */
  datatype FieldScope = Accumulated | PerList

  /** The loop over the groups from index `i`: `fetched` holds the fields of the fetches so far
      and `lists` the lists appended so far. The `n`-th `fields` request is answered by
      `fields(n)`; an exception ends the loop, keeping what was appended. */
  function ListsFrom(groups: seq<Group>, fields: nat -> Attempt<seq<RemoteField>>, scope: FieldScope,
                     i: nat, fetched: seq<IntegrationField>, lists: seq<EmailList>): (r: seq<EmailList>)
    requires i <= |groups|
    ensures |lists| <= |r| <= |lists| + |groups| - i && r[..|lists|] == lists
    decreases |groups| - i
  {
    if i == |groups| then lists
    else
      match fields(i)
      case Threw => lists
      case Done(fs) =>
        var own := ToFields(fs);
        var listFields := if scope == Accumulated then fetched + own else own;
        var list := EmailList(ToPhpString(groups[i].id), groups[i].name, listFields);
        ListsFrom(groups, fields, scope, i + 1, fetched + own, lists + [list])
  }

  function Settle(lists: seq<EmailList>): Settings {
    if |lists| == 0 then Settings(None) else Settings(Some(lists))
  }

  function FetchFormSettingsWith(groups: Attempt<seq<Group>>, fields: nat -> Attempt<seq<RemoteField>>,
                                 scope: FieldScope): (r: Settings)
    ensures groups.Threw? ==> r == Settings(None)
    ensures r.lists.Some? ==> |r.lists.value| > 0
  {
    match groups
    case Threw => Settings(None)
    case Done(gs) => Settle(ListsFrom(gs, fields, scope, 0, [], []))
  }

  /** `fetchFormSettings` as written: each list carries the fields of every fetch so far. */
  function FetchFormSettingsAsWritten(groups: Attempt<seq<Group>>, fields: nat -> Attempt<seq<RemoteField>>): Settings {
    FetchFormSettingsWith(groups, fields, Accumulated)
  }

  /** `fetchFormSettings` as evidently intended: each list carries the fields of its own fetch. */
  function FetchFormSettings(groups: Attempt<seq<Group>>, fields: nat -> Attempt<seq<RemoteField>>): Settings {
    FetchFormSettingsWith(groups, fields, PerList)
  }

  /** The number of leading `fields` requests, below `bound`, that did not throw. */
  function Answered(fields: nat -> Attempt<seq<RemoteField>>, bound: nat): (r: nat)
    ensures r <= bound
    ensures forall n :: 0 <= n < r ==> fields(n).Done?
    ensures r < bound ==> fields(r).Threw?
    decreases bound
  {
    if bound == 0 then 0
    else
      var k := Answered(fields, bound - 1);
      if k == bound - 1 && fields(bound - 1).Done? then bound else k
  }

  /** The fields of fetches `0 .. k-1`, in order. */
  function FetchedUpTo(fields: nat -> Attempt<seq<RemoteField>>, k: nat): seq<IntegrationField>
    requires forall n :: 0 <= n < k ==> fields(n).Done?
    decreases k
  {
    if k == 0 then [] else FetchedUpTo(fields, k - 1) + ToFields(fields(k - 1).value)
  }

  /** The field list of the `k`-th email list under a scope. */
  function ExpectedFields(fields: nat -> Attempt<seq<RemoteField>>, scope: FieldScope, k: nat): seq<IntegrationField>
    requires forall n :: 0 <= n <= k ==> fields(n).Done?
  {
    if scope == Accumulated then FetchedUpTo(fields, k + 1) else ToFields(fields(k).value)
  }

  /** List `k` of `lists` is what group `k` and its fetch give under the scope. */
  predicate ListMatches(groups: seq<Group>, fields: nat -> Attempt<seq<RemoteField>>, scope: FieldScope,
                        lists: seq<EmailList>, k: nat)
    requires k < |lists| && k < |groups|
  {
    && (forall n :: 0 <= n <= k ==> fields(n).Done?)
    && lists[k] == EmailList(ToPhpString(groups[k].id), groups[k].name, ExpectedFields(fields, scope, k))
  }

  /** The loop appends one list per group until the first failed fetch; list `k` has the id
      and name of group `k` and the field list its scope prescribes. */
  lemma {:induction false} ListsFromShape(groups: seq<Group>, fields: nat -> Attempt<seq<RemoteField>>, scope: FieldScope,
                                          i: nat, lists: seq<EmailList>)
    requires i <= |groups| && |lists| == i
    requires forall n :: 0 <= n < i ==> fields(n).Done?
    ensures var r := ListsFrom(groups, fields, scope, i, FetchedUpTo(fields, i), lists);
      && |r| == Answered(fields, |groups|)
      && r[..i] == lists
      && forall k :: i <= k < |r| ==> ListMatches(groups, fields, scope, r, k)
    decreases |groups| - i
  {
    var r := ListsFrom(groups, fields, scope, i, FetchedUpTo(fields, i), lists);
    if i == |groups| {
      AnsweredAll(fields, |groups|);
    } else if fields(i).Threw? {
      AnsweredStopsAt(fields, i, |groups|);
    } else {
      var own := ToFields(fields(i).value);
      var list := EmailList(ToPhpString(groups[i].id), groups[i].name, ExpectedFields(fields, scope, i));
      assert FetchedUpTo(fields, i + 1) == FetchedUpTo(fields, i) + own;
      var next := lists + [list];
      assert r == ListsFrom(groups, fields, scope, i + 1, FetchedUpTo(fields, i + 1), next);
      ListsFromShape(groups, fields, scope, i + 1, next);
      assert r[..i + 1] == next;
      assert r[..i] == lists by {
        assert r[..i] == r[..i + 1][..i];
      }
      assert ListMatches(groups, fields, scope, r, i) by {
        assert r[i] == next[i] == list;
      }
    }
  }

  lemma {:induction false} AnsweredAll(fields: nat -> Attempt<seq<RemoteField>>, bound: nat)
    requires forall n :: 0 <= n < bound ==> fields(n).Done?
    ensures Answered(fields, bound) == bound
    decreases bound
  {
    if bound > 0 {
      AnsweredAll(fields, bound - 1);
    }
  }

  lemma {:induction false} AnsweredStopsAt(fields: nat -> Attempt<seq<RemoteField>>, i: nat, bound: nat)
    requires i < bound && fields(i).Threw?
    requires forall n :: 0 <= n < i ==> fields(n).Done?
    ensures Answered(fields, bound) == i
    decreases bound
  {
    if bound - 1 == i {
      AnsweredAll(fields, i);
    } else {
      AnsweredStopsAt(fields, i, bound - 1);
    }
  }

  /** `fetchFormSettings` under either scope: nothing when the `groups` request throws or no
      list was appended; otherwise one list per group up to the first failed `fields`
      request, each with its group's id and name and the fields its scope prescribes. */
  lemma FetchFormSettingsShape(groups: Attempt<seq<Group>>, fields: nat -> Attempt<seq<RemoteField>>, scope: FieldScope)
    ensures var r := FetchFormSettingsWith(groups, fields, scope);
      && (groups.Threw? ==> r.lists.None?)
      && (groups.Done? ==>
            var count := Answered(fields, |groups.value|);
            && (r.lists.None? <==> count == 0)
            && (r.lists.Some? ==>
                  && |r.lists.value| == count
                  && forall k :: 0 <= k < count ==> ListMatches(groups.value, fields, scope, r.lists.value, k)))
  {
    if groups.Done? {
      ListsFromShape(groups.value, fields, scope, 0, []);
    }
  }

  /** As written, list `k` carries the fields of the first `k + 1` fetches. */
  lemma ListsAccumulateAsWritten(groups: seq<Group>, fields: nat -> Attempt<seq<RemoteField>>, k: nat)
    requires FetchFormSettingsAsWritten(Done(groups), fields).lists.Some?
    requires k < |FetchFormSettingsAsWritten(Done(groups), fields).lists.value|
    ensures forall n :: 0 <= n <= k ==> fields(n).Done?
    ensures FetchFormSettingsAsWritten(Done(groups), fields).lists.value[k].fields == FetchedUpTo(fields, k + 1)
  {
    FetchFormSettingsShape(Done(groups), fields, Accumulated);
    assert ListMatches(groups, fields, Accumulated, FetchFormSettingsAsWritten(Done(groups), fields).lists.value, k);
  }

  /** As intended, list `k` carries exactly the fields of its own fetch. */
  lemma ListsCarryOwnFields(groups: seq<Group>, fields: nat -> Attempt<seq<RemoteField>>, k: nat)
    requires FetchFormSettings(Done(groups), fields).lists.Some?
    requires k < |FetchFormSettings(Done(groups), fields).lists.value|
    ensures fields(k).Done?
    ensures FetchFormSettings(Done(groups), fields).lists.value[k].fields == ToFields(fields(k).value)
  {
    FetchFormSettingsShape(Done(groups), fields, PerList);
    assert ListMatches(groups, fields, PerList, FetchFormSettings(Done(groups), fields).lists.value, k);
  }

  /** What the source does: the field list of list `k` is the concatenation of the field
      lists the intended version gives lists `0 .. k`. */
  lemma {:induction false} AccumulatedIsRunningConcatenation(fields: nat -> Attempt<seq<RemoteField>>, k: nat)
    requires forall n :: 0 <= n <= k ==> fields(n).Done?
    ensures ExpectedFields(fields, Accumulated, k) ==
      (if k == 0 then [] else ExpectedFields(fields, Accumulated, k - 1)) + ExpectedFields(fields, PerList, k)
    ensures |ExpectedFields(fields, Accumulated, k)| >= |ExpectedFields(fields, PerList, k)|
  {
  }

  /** The first list is the same either way. */
  lemma FirstListAgrees(fields: nat -> Attempt<seq<RemoteField>>)
    requires fields(0).Done?
    ensures ExpectedFields(fields, Accumulated, 0) == ExpectedFields(fields, PerList, 0)
  {
    assert FetchedUpTo(fields, 0) == [];
  }

  /** Two groups, and a `fields` reply with a single field: as written, the second list offers
      that field twice. */
  lemma SecondListRepeatsFieldsAsWritten()
    ensures var field := RemoteField(Str("city"), Str("City"), Str("TEXT"));
      var fields := (n: nat) => Done([field]);
      var groups := Done([Group(Num(1), Str("News")), Group(Num(2), Str("Offers"))]);
      var asWritten := FetchFormSettingsAsWritten(groups, fields);
      var intended := FetchFormSettings(groups, fields);
      && asWritten.lists.Some? && |asWritten.lists.value| == 2
      && asWritten.lists.value[1].fields == [ToField(field), ToField(field)]
      && intended.lists.Some? && |intended.lists.value| == 2
      && intended.lists.value[1].fields == [ToField(field)]
  {
    var field := RemoteField(Str("city"), Str("City"), Str("TEXT"));
    var fields := (n: nat) => Done([field]);
    var gs := [Group(Num(1), Str("News")), Group(Num(2), Str("Offers"))];
    FetchFormSettingsShape(Done(gs), fields, Accumulated);
    FetchFormSettingsShape(Done(gs), fields, PerList);
    AnsweredAll(fields, 2);
    assert FetchedUpTo(fields, 2) == FetchedUpTo(fields, 1) + ToFields([field]);
    assert FetchedUpTo(fields, 1) == [] + ToFields([field]);
  }
}

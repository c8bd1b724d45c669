/**
 Submission delivery of the Dynamics 365 connector (`sendPayload`): up to four create
 requests in the fixed order contact, account, lead, opportunity, with later records
 bound to the ids returned for earlier ones. Modelled as a state machine over that order
 that records every POST it attempts.
 */
module Delivery {
  import opened Php

  datatype EntityKind = Contact | Account | Lead | Opportunity

  /** The order the steps run in. */
  const SendOrder: seq<EntityKind> := [Contact, Account, Lead, Opportunity]

  /** The URI each create request is posted to. */
  function Endpoint(kind: EntityKind): string {
    match kind
    case Contact => "contacts?$select=contactid"
    case Account => "accounts?$select=accountid"
    case Lead => "leads?$select=leadid"
    case Opportunity => "opportunities?$select=opportunityid"
  }

  /** The key of the new record's id in the response body. */
  function IdKey(kind: EntityKind): string {
    match kind
    case Contact => "contactid"
    case Account => "accountid"
    case Lead => "leadid"
    case Opportunity => "opportunityid"
  }

  const PrimaryContactBind := "primarycontactid@odata.bind"
  const ParentContactBind := "parentcontactid@odata.bind"
  const ParentAccountBind := "parentaccountid@odata.bind"

  type Payload = map<string, Json>

  /** The mapped submission values of each entity, as the host computes them. */
  datatype MappedValues = MappedValues(contact: Payload, account: Payload, lead: Payload, opportunity: Payload)

  /** The `mapTo*` switches of the integration. */
  datatype SendConfig = SendConfig(mapToContact: bool, mapToAccount: bool, mapToLead: bool, mapToOpportunity: bool)

  function Enabled(config: SendConfig, kind: EntityKind): bool {
    match kind
    case Contact => config.mapToContact
    case Account => config.mapToAccount
    case Lead => config.mapToLead
    case Opportunity => config.mapToOpportunity
  }

  function ValuesFor(values: MappedValues, kind: EntityKind): Payload {
    match kind
    case Contact => values.contact
    case Account => values.account
    case Lead => values.lead
    case Opportunity => values.opportunity
  }

  /** One attempted create request. */
  datatype Post = Post(kind: EntityKind, payload: Payload)

  /** Why the send ended. `MissingId` is the logged "Missing return ..." error. */
  datatype Verdict = Completed | SuppressedSend | MissingId(kind: EntityKind) | Failed

  /** The boolean `sendPayload` returns for a verdict. */
  function Returns(verdict: Verdict): bool {
    verdict == Completed || verdict == SuppressedSend
  }

  /** The references later steps bind to: the string form of the contact and account ids. */
  datatype Links = Links(contact: Option<string>, account: Option<string>)

  /** Where the opportunity step writes its bind references: onto the account payload, as the
      source does, or onto the opportunity payload, as evidently intended. */
  datatype OpportunityBinding = OntoAccountPayload | OntoOpportunityPayload

  /** The bind keys a step writes onto its mapped values, given the links known so far. */
  function StepBinds(kind: EntityKind, links: Links, binding: OpportunityBinding): set<string> {
    match kind
    case Contact => {}
    case Account => if links.contact.Some? then {PrimaryContactBind} else {}
    case Lead => if links.contact.Some? then {ParentContactBind} else {}
    case Opportunity =>
      if binding == OntoAccountPayload then {}
      else (if links.contact.Some? then {ParentContactBind} else {}) +
           (if links.account.Some? then {ParentAccountBind} else {})
  }

  /** The payload a step sends. */
  function PayloadFor(kind: EntityKind, values: MappedValues, links: Links, binding: OpportunityBinding): Payload {
    var contactRef := if links.contact.Some? then Str("contacts(" + links.contact.value + ")") else Null;
    match kind
    case Contact => values.contact
    case Account => if links.contact.Some? then values.account[PrimaryContactBind := contactRef] else values.account
    case Lead => if links.contact.Some? then values.lead[ParentContactBind := contactRef] else values.lead
    case Opportunity =>
      if binding == OntoAccountPayload then values.opportunity
      else
        var withContact := if links.contact.Some? then values.opportunity[ParentContactBind := contactRef] else values.opportunity;
        if links.account.Some? then withContact[ParentAccountBind := Str("accounts(" + links.account.value + ")")] else withContact
  }

  /** A payload is the mapped values plus bind references: every key but the step's own binds
      is untouched, and a reference is added exactly where the step binds to an earlier record. */
  lemma PayloadBinds(kind: EntityKind, values: MappedValues, links: Links, binding: OpportunityBinding)
    ensures var r := PayloadFor(kind, values, links, binding);
      && (forall key :: key in StepBinds(kind, links, binding) ==> key in r)
      && (forall key :: key !in StepBinds(kind, links, binding) ==>
            (key in r <==> key in ValuesFor(values, kind)) && (key in r ==> r[key] == ValuesFor(values, kind)[key]))
      && (kind == Contact ==> r == values.contact)
      && (kind == Account && links.contact.Some? ==>
            PrimaryContactBind in r && r[PrimaryContactBind] == Str("contacts(" + links.contact.value + ")"))
      && (kind == Account && links.contact.None? ==> r == values.account)
      && (kind == Lead && links.contact.Some? ==>
            ParentContactBind in r && r[ParentContactBind] == Str("contacts(" + links.contact.value + ")"))
      && (kind == Lead && links.contact.None? ==> r == values.lead)
      && (kind == Opportunity && binding == OntoAccountPayload ==> r == values.opportunity)
      && (kind == Opportunity && binding == OntoOpportunityPayload && links.contact.Some? ==>
            ParentContactBind in r && r[ParentContactBind] == Str("contacts(" + links.contact.value + ")"))
      && (kind == Opportunity && binding == OntoOpportunityPayload && links.account.Some? ==>
            ParentAccountBind in r && r[ParentAccountBind] == Str("accounts(" + links.account.value + ")"))
      && (kind == Opportunity && links.contact.None? && links.account.None? ==> r == values.opportunity)
  {
  }

  /** The machine's state: still sending, or ended with a verdict; both carry the posts so far. */
  datatype SendState =
    | Running(links: Links, posts: seq<Post>)
    | Stopped(verdict: Verdict, posts: seq<Post>)

  /** `$response[idKey] ?? ''` of a reply body. */
  function IdIn(body: Json, kind: EntityKind): Json {
    Coalesce(body, IdKey(kind), Str(""))
  }

  /** One `if ($this->mapTo...)` block. */
  function Step(state: SendState, kind: EntityKind, config: SendConfig, values: MappedValues,
                server: Post -> Reply, binding: OpportunityBinding): (r: SendState)
    ensures state.Stopped? || !Enabled(config, kind) ==> r == state
    ensures state.Running? && Enabled(config, kind) ==>
      r.posts == state.posts + [Post(kind, PayloadFor(kind, values, state.links, binding))]
  {
    match state
    case Stopped(_, _) => state
    case Running(links, posts) =>
      if !Enabled(config, kind) then state
      else
        var post := Post(kind, PayloadFor(kind, values, links, binding));
        var sent := posts + [post];
        var reply := server(post);
        if IsFalse(reply) then Stopped(SuppressedSend, sent)
        else if reply.Raised? then Stopped(Failed, sent)
        else
          var id := IdIn(reply.body, kind);
          if !Truthy(id) then Stopped(MissingId(kind), sent)
          else if kind == Contact then Running(links.(contact := Some(ToPhpString(id))), sent)
          else if kind == Account then Running(links.(account := Some(ToPhpString(id))), sent)
          else Running(links, sent)
  }

  function Steps(state: SendState, kinds: seq<EntityKind>, config: SendConfig, values: MappedValues,
                 server: Post -> Reply, binding: OpportunityBinding): SendState
    decreases |kinds|
  {
    if |kinds| == 0 then state
    else Steps(Step(state, kinds[0], config, values, server, binding), kinds[1..], config, values, server, binding)
  }

  /** `sendPayload`: mapping the values may throw, then the four steps run in order. */
  function Send(config: SendConfig, values: Attempt<MappedValues>, server: Post -> Reply,
                binding: OpportunityBinding): (r: SendState)
    ensures r.Stopped?
    ensures values.Threw? ==> r == Stopped(Failed, [])
  {
    match values
    case Threw => Stopped(Failed, [])
    case Done(v) =>
      match Steps(Running(Links(None, None), []), SendOrder, config, v, server, binding)
      case Running(_, posts) => Stopped(Completed, posts)
      case stopped => stopped
  }

  /** The source as written: the opportunity binds land on the account payload. */
  function SendPayloadAsWritten(config: SendConfig, values: Attempt<MappedValues>, server: Post -> Reply): SendState {
    Send(config, values, server, OntoAccountPayload)
  }

  /** The evidently intended behaviour: the opportunity carries the contact and account binds. */
  function SendPayload(config: SendConfig, values: Attempt<MappedValues>, server: Post -> Reply): SendState {
    Send(config, values, server, OntoOpportunityPayload)
  }

  // ---------------------------------------------------------------------------
  // Reference readings of a trace

  /** The enabled kinds among `kinds`, in order. */
  function EnabledKinds(config: SendConfig, kinds: seq<EntityKind>): seq<EntityKind>
    decreases |kinds|
  {
    if |kinds| == 0 then []
    else (if Enabled(config, kinds[0]) then [kinds[0]] else []) + EnabledKinds(config, kinds[1..])
  }

  /** How a single reply ends or continues the send: `false` (also as a decoded body) is a
      suppressed send, an exception a failure, and a body needs a truthy id to go on. */
  function Reading(server: Post -> Reply, post: Post): Verdict {
    var reply := server(post);
    if IsFalse(reply) then SuppressedSend
    else if reply.Raised? then Failed
    else if Truthy(IdIn(reply.body, post.kind)) then Completed
    else MissingId(post.kind)
  }

  /** The id the reply to the first post of `kind` carried, as a string. */
  function IdFrom(server: Post -> Reply, posts: seq<Post>, kind: EntityKind): Option<string>
    decreases |posts|
  {
    if |posts| == 0 then None
    else if posts[0].kind == kind && server(posts[0]).Responded? then Some(ToPhpString(IdIn(server(posts[0]).body, kind)))
    else IdFrom(server, posts[1..], kind)
  }

  function LinksFrom(server: Post -> Reply, posts: seq<Post>): Links {
    Links(IdFrom(server, posts, Contact), IdFrom(server, posts, Account))
  }

  // ---------------------------------------------------------------------------
  // Invariants of the machine

  /** The posts so far are a prefix of the posts made from here on. */
  predicate PostsExtend(before: seq<Post>, after: seq<Post>) {
    |before| <= |after| && after[..|before|] == before
  }

  /** Steps only append posts, and once stopped nothing changes. */
  lemma {:induction false} StepsExtend(state: SendState, kinds: seq<EntityKind>, config: SendConfig,
                                       values: MappedValues, server: Post -> Reply, binding: OpportunityBinding)
    ensures var r := Steps(state, kinds, config, values, server, binding);
      PostsExtend(state.posts, r.posts) && (state.Stopped? ==> r == state)
    decreases |kinds|
  {
    if |kinds| > 0 {
      StepsExtend(Step(state, kinds[0], config, values, server, binding), kinds[1..], config, values, server, binding);
    }
  }

  /** The posts from position `n` on are of the kinds `kinds`, in order. */
  predicate KindsFrom(posts: seq<Post>, n: nat, kinds: seq<EntityKind>) {
    n <= |posts| && |posts| - n <= |kinds| && forall i :: n <= i < |posts| ==> posts[i].kind == kinds[i - n]
  }

  /** From a running state the steps post a prefix of the enabled kinds, in order, and all of
      them if still running at the end. */
  lemma {:induction false} StepsPostEnabledPrefix(state: SendState, kinds: seq<EntityKind>, config: SendConfig,
                                                   values: MappedValues, server: Post -> Reply, binding: OpportunityBinding)
    requires state.Running?
    ensures var r := Steps(state, kinds, config, values, server, binding);
      && KindsFrom(r.posts, |state.posts|, EnabledKinds(config, kinds))
      && (r.Running? ==> |r.posts| - |state.posts| == |EnabledKinds(config, kinds)|)
    decreases |kinds|
  {
    var r := Steps(state, kinds, config, values, server, binding);
    var n := |state.posts|;
    if |kinds| == 0 {
      assert r == state;
    } else {
      var next := Step(state, kinds[0], config, values, server, binding);
      var enabled := EnabledKinds(config, kinds);
      var rest := EnabledKinds(config, kinds[1..]);
      assert r == Steps(next, kinds[1..], config, values, server, binding);
      StepsExtend(next, kinds[1..], config, values, server, binding);
      if !Enabled(config, kinds[0]) {
        assert next == state;
        assert enabled == rest;
        StepsPostEnabledPrefix(next, kinds[1..], config, values, server, binding);
        assert KindsFrom(r.posts, n, enabled);
      } else {
        assert enabled == [kinds[0]] + rest;
        assert |next.posts| == n + 1 && next.posts[n].kind == kinds[0];
        if next.Running? {
          StepsPostEnabledPrefix(next, kinds[1..], config, values, server, binding);
          assert KindsFrom(r.posts, n + 1, rest);
          assert r.posts[n] == next.posts[n];
          forall i | n <= i < |r.posts| ensures r.posts[i].kind == enabled[i - n] {
            if i > n {
              assert enabled[i - n] == rest[i - (n + 1)];
            }
          }
          assert KindsFrom(r.posts, n, enabled);
        } else {
          assert r == next;
          assert KindsFrom(r.posts, n, enabled);
        }
      }
    }
  }

  /** All posts but a stopping last one were answered with an id, and a stop is explained by
      the reply to the last post. */
  predicate RepliesExplain(server: Post -> Reply, state: SendState) {
    var posts := state.posts;
    && (forall i :: 0 <= i < |posts| && (state.Running? || i < |posts| - 1) ==> Reading(server, posts[i]) == Completed)
    && (state.Stopped? ==> |posts| > 0 && state.verdict != Completed && Reading(server, posts[|posts| - 1]) == state.verdict)
  }

  lemma {:induction false} StepsKeepRepliesExplained(state: SendState, kinds: seq<EntityKind>, config: SendConfig,
                                                     values: MappedValues, server: Post -> Reply, binding: OpportunityBinding)
    requires RepliesExplain(server, state)
    ensures RepliesExplain(server, Steps(state, kinds, config, values, server, binding))
    decreases |kinds|
  {
    if |kinds| > 0 {
      var next := Step(state, kinds[0], config, values, server, binding);
      assert RepliesExplain(server, next);
      StepsKeepRepliesExplained(next, kinds[1..], config, values, server, binding);
    }
  }

  lemma {:induction false} IdFromSnoc(server: Post -> Reply, posts: seq<Post>, post: Post, kind: EntityKind)
    ensures IdFrom(server, posts + [post], kind) ==
      if IdFrom(server, posts, kind).Some? then IdFrom(server, posts, kind)
      else if post.kind == kind && server(post).Responded? then Some(ToPhpString(IdIn(server(post).body, kind)))
      else None
    decreases |posts|
  {
    if |posts| == 0 {
      assert posts + [post] == [post];
    } else {
      assert (posts + [post])[1..] == posts[1..] + [post];
      IdFromSnoc(server, posts[1..], post, kind);
    }
  }

  predicate KindNotSent(posts: seq<Post>, kind: EntityKind) {
    forall i :: 0 <= i < |posts| ==> posts[i].kind != kind
  }

  lemma {:induction false} NoIdForUnsentKind(server: Post -> Reply, posts: seq<Post>, kind: EntityKind)
    requires KindNotSent(posts, kind)
    ensures IdFrom(server, posts, kind).None?
    decreases |posts|
  {
    if |posts| > 0 {
      NoIdForUnsentKind(server, posts[1..], kind);
    }
  }

  /** The links are the ids the replies gave, and each payload carries the links of the posts
      before it. */
  predicate PayloadsLinked(server: Post -> Reply, values: MappedValues, binding: OpportunityBinding, state: SendState) {
    && (state.Running? ==> state.links == LinksFrom(server, state.posts))
    && (forall i :: 0 <= i < |state.posts| ==>
          state.posts[i].payload == PayloadFor(state.posts[i].kind, values, LinksFrom(server, state.posts[..i]), binding))
  }

  lemma StepKeepsPayloadsLinked(server: Post -> Reply, values: MappedValues, binding: OpportunityBinding,
                                state: SendState, kind: EntityKind, config: SendConfig)
    requires PayloadsLinked(server, values, binding, state)
    requires KindNotSent(state.posts, kind)
    ensures PayloadsLinked(server, values, binding, Step(state, kind, config, values, server, binding))
  {
    var r := Step(state, kind, config, values, server, binding);
    if state.Running? && Enabled(config, kind) {
      var post := Post(kind, PayloadFor(kind, values, state.links, binding));
      var posts := state.posts;
      assert r.posts == posts + [post];
      forall i | 0 <= i < |r.posts|
        ensures r.posts[i].payload == PayloadFor(r.posts[i].kind, values, LinksFrom(server, r.posts[..i]), binding)
      {
        if i < |posts| {
          assert r.posts[..i] == posts[..i];
        } else {
          assert r.posts[..i] == posts;
        }
      }
      if r.Running? {
        IdFromSnoc(server, posts, post, Contact);
        IdFromSnoc(server, posts, post, Account);
        NoIdForUnsentKind(server, posts, kind);
      }
    }
  }

  /** Kinds in `kinds` are distinct and none has been posted yet. */
  predicate Fresh(posts: seq<Post>, kinds: seq<EntityKind>) {
    && (forall j :: 0 <= j < |kinds| ==> KindNotSent(posts, kinds[j]))
    && (forall j, k :: 0 <= j < k < |kinds| ==> kinds[j] != kinds[k])
  }

  lemma {:induction false} StepsKeepPayloadsLinked(server: Post -> Reply, values: MappedValues, binding: OpportunityBinding,
                                                   state: SendState, kinds: seq<EntityKind>, config: SendConfig)
    requires PayloadsLinked(server, values, binding, state)
    requires Fresh(state.posts, kinds)
    ensures PayloadsLinked(server, values, binding, Steps(state, kinds, config, values, server, binding))
    decreases |kinds|
  {
    if |kinds| > 0 {
      var next := Step(state, kinds[0], config, values, server, binding);
      StepKeepsPayloadsLinked(server, values, binding, state, kinds[0], config);
      assert Fresh(next.posts, kinds[1..]) by {
        forall j | 0 <= j < |kinds[1..]| ensures KindNotSent(next.posts, kinds[1..][j]) {
          assert kinds[1..][j] == kinds[j + 1] != kinds[0];
        }
      }
      StepsKeepPayloadsLinked(server, values, binding, next, kinds[1..], config);
    }
  }

  // ---------------------------------------------------------------------------
  // Properties of `sendPayload`

  /** The steps the send runs from its start state. */
  function Trace(config: SendConfig, values: MappedValues, server: Post -> Reply, binding: OpportunityBinding): SendState {
    Steps(Running(Links(None, None), []), SendOrder, config, values, server, binding)
  }

  lemma SendIsTrace(config: SendConfig, values: MappedValues, server: Post -> Reply, binding: OpportunityBinding)
    ensures var r := Send(config, Done(values), server, binding);
      var t := Trace(config, values, server, binding);
      r.posts == t.posts && (r.verdict == Completed <==> t.Running?) && (t.Stopped? ==> r == t)
  {
    var t := Trace(config, values, server, binding);
    RepliesOfTrace(config, values, server, binding);
  }

  lemma RepliesOfTrace(config: SendConfig, values: MappedValues, server: Post -> Reply, binding: OpportunityBinding)
    ensures RepliesExplain(server, Trace(config, values, server, binding))
  {
    StepsKeepRepliesExplained(Running(Links(None, None), []), SendOrder, config, values, server, binding);
  }

  /** The posts are the enabled kinds in the order contact, account, lead, opportunity, cut
      short where the send stopped; a send completes only after every enabled kind was posted
      and answered with an id; a stop is explained by the reply to the last post. */
  lemma SendFollowsOrder(config: SendConfig, values: MappedValues, server: Post -> Reply, binding: OpportunityBinding)
    ensures var r := Send(config, Done(values), server, binding);
      var enabled := EnabledKinds(config, SendOrder);
      && KindsFrom(r.posts, 0, enabled)
      && (r.verdict == Completed <==> (|r.posts| == |enabled| &&
            forall i :: 0 <= i < |r.posts| ==> Reading(server, r.posts[i]) == Completed))
      && (r.verdict != Completed ==> |r.posts| > 0 && Reading(server, r.posts[|r.posts| - 1]) == r.verdict)
      && (forall i :: 0 <= i < |r.posts| - 1 ==> Reading(server, r.posts[i]) == Completed)
  {
    var start := Running(Links(None, None), []);
    var t := Trace(config, values, server, binding);
    SendIsTrace(config, values, server, binding);
    RepliesOfTrace(config, values, server, binding);
    StepsPostEnabledPrefix(start, SendOrder, config, values, server, binding);
  }

  /** A reply that is a body without a truthy id makes the call return false, and no later
      step is attempted. */
  lemma MissingIdAborts(config: SendConfig, values: MappedValues, server: Post -> Reply,
                        binding: OpportunityBinding, i: nat)
    requires i < |Send(config, Done(values), server, binding).posts|
    requires var post := Send(config, Done(values), server, binding).posts[i];
      server(post).Responded? && !IsFalse(server(post)) && !Truthy(IdIn(server(post).body, post.kind))
    ensures var r := Send(config, Done(values), server, binding);
      && r.verdict == MissingId(r.posts[i].kind) && !Returns(r.verdict) && i == |r.posts| - 1
  {
    var r := Send(config, Done(values), server, binding);
    ReadsMissingId(server, r.posts[i]);
    StopsAtReading(config, values, server, binding, i);
  }

  /** A body without a truthy id reads as a missing id. */
  lemma ReadsMissingId(server: Post -> Reply, post: Post)
    requires server(post).Responded? && !IsFalse(server(post)) && !Truthy(IdIn(server(post).body, post.kind))
    ensures Reading(server, post) == MissingId(post.kind)
  {}

  /** A post whose reply does not let the send go on is the last one, and its reading is the verdict. */
  lemma StopsAtReading(config: SendConfig, values: MappedValues, server: Post -> Reply,
                       binding: OpportunityBinding, i: nat)
    requires i < |Send(config, Done(values), server, binding).posts|
    requires Reading(server, Send(config, Done(values), server, binding).posts[i]) != Completed
    ensures var r := Send(config, Done(values), server, binding);
      && r.verdict == Reading(server, r.posts[i]) && i == |r.posts| - 1
  {
    SendFollowsOrder(config, values, server, binding);
  }

  /** A `false` delivery, whether suppressed or a decoded `false` body, ends the send
      successfully at once. */
  lemma SuppressedIsSuccess(config: SendConfig, values: MappedValues, server: Post -> Reply,
                            binding: OpportunityBinding, i: nat)
    requires i < |Send(config, Done(values), server, binding).posts|
    requires IsFalse(server(Send(config, Done(values), server, binding).posts[i]))
    ensures var r := Send(config, Done(values), server, binding);
      && r.verdict == SuppressedSend && Returns(r.verdict) && i == |r.posts| - 1
  {
    SendFollowsOrder(config, values, server, binding);
  }

  /** An exception, from the value mapping or from any request, makes `sendPayload` return false. */
  lemma ExceptionIsFailure(config: SendConfig, values: MappedValues, server: Post -> Reply,
                           binding: OpportunityBinding, i: nat)
    requires i < |Send(config, Done(values), server, binding).posts|
    requires server(Send(config, Done(values), server, binding).posts[i]).Raised?
    ensures var r := Send(config, Done(values), server, binding);
      && r.verdict == Failed && !Returns(r.verdict) && i == |r.posts| - 1
  {
    SendFollowsOrder(config, values, server, binding);
  }

  /** Each payload carries the references of the records created before it. */
  lemma PayloadsCarryEarlierIds(config: SendConfig, values: MappedValues, server: Post -> Reply, binding: OpportunityBinding)
    ensures var r := Send(config, Done(values), server, binding);
      forall i :: 0 <= i < |r.posts| ==>
        r.posts[i].payload == PayloadFor(r.posts[i].kind, values, LinksFrom(server, r.posts[..i]), binding)
  {
    SendIsTrace(config, values, server, binding);
    StepsKeepPayloadsLinked(server, values, binding, Running(Links(None, None), []), SendOrder, config);
  }

  /** A server that answers every create with an id: C1 for the contact, A1 for the account. */
  function IdServer(contactId: string, accountId: string): Post -> Reply {
    (p: Post) =>
      match p.kind
      case Contact => Responded(Object(map["contactid" := Str(contactId)]))
      case Account => Responded(Object(map["accountid" := Str(accountId)]))
      case Lead => Responded(Object(map["leadid" := Str("L1")]))
      case Opportunity => Responded(Object(map["opportunityid" := Str("O1")]))
  }

  const AllEnabled := SendConfig(true, true, true, true)

  /** The reply to a post is a body, not `false`, carrying a truthy id. */
  predicate CarriesId(server: Post -> Reply, post: Post) {
    var reply := server(post);
    reply.Responded? && !IsFalse(reply) && Truthy(IdIn(reply.body, post.kind))
  }

  /** ... and the id's string form is `id`. */
  predicate AnswersWithId(server: Post -> Reply, post: Post, id: string) {
    CarriesId(server, post) && ToPhpString(IdIn(server(post).body, post.kind)) == id
  }

  /** A running, enabled step whose reply carries a truthy id continues, recording the id's
      string form for a contact or an account. */
  lemma StepWithId(state: SendState, kind: EntityKind, config: SendConfig, values: MappedValues,
                   server: Post -> Reply, binding: OpportunityBinding)
    requires state.Running? && Enabled(config, kind)
    requires CarriesId(server, Post(kind, PayloadFor(kind, values, state.links, binding)))
    ensures var id := ToPhpString(IdIn(server(Post(kind, PayloadFor(kind, values, state.links, binding))).body, kind));
      Step(state, kind, config, values, server, binding) ==
      Running(if kind == Contact then state.links.(contact := Some(id))
              else if kind == Account then state.links.(account := Some(id))
              else state.links,
              state.posts + [Post(kind, PayloadFor(kind, values, state.links, binding))])
  {
  }

  /** With every step enabled and each of the four replies carrying a truthy id, four posts are
      made, the send completes, and the opportunity sees the contact and account ids. */
  lemma AllEnabledRun(values: MappedValues, server: Post -> Reply, binding: OpportunityBinding,
                      contactId: string, accountId: string)
    requires AnswersWithId(server, Post(Contact, PayloadFor(Contact, values, Links(None, None), binding)), contactId)
    requires AnswersWithId(server, Post(Account, PayloadFor(Account, values, Links(Some(contactId), None), binding)), accountId)
    requires CarriesId(server, Post(Lead, PayloadFor(Lead, values, Links(Some(contactId), Some(accountId)), binding)))
    requires CarriesId(server, Post(Opportunity, PayloadFor(Opportunity, values, Links(Some(contactId), Some(accountId)), binding)))
    ensures var r := Send(AllEnabled, Done(values), server, binding);
      && r.verdict == Completed && |r.posts| == 4 && r.posts[3].kind == Opportunity
      && r.posts[3].payload == PayloadFor(Opportunity, values, Links(Some(contactId), Some(accountId)), binding)
  {
    var s0 := Running(Links(None, None), []);
    var s1 := Step(s0, Contact, AllEnabled, values, server, binding);
    StepWithId(s0, Contact, AllEnabled, values, server, binding);
    var s2 := Step(s1, Account, AllEnabled, values, server, binding);
    StepWithId(s1, Account, AllEnabled, values, server, binding);
    var s3 := Step(s2, Lead, AllEnabled, values, server, binding);
    StepWithId(s2, Lead, AllEnabled, values, server, binding);
    var s4 := Step(s3, Opportunity, AllEnabled, values, server, binding);
    StepWithId(s3, Opportunity, AllEnabled, values, server, binding);
    assert s4.links == Links(Some(contactId), Some(accountId)) && |s4.posts| == 4;
    assert s4.posts[3] == Post(Opportunity, PayloadFor(Opportunity, values, s4.links, binding));
    assert SendOrder[1..][1..][1..][1..] == [];
    assert Steps(s0, SendOrder, AllEnabled, values, server, binding) == s4;
  }

  /** The id server answers each of the four posts with its id. */
  lemma IdServerAnswers(values: MappedValues, binding: OpportunityBinding)
    ensures var server := IdServer("C1", "A1");
      && AnswersWithId(server, Post(Contact, PayloadFor(Contact, values, Links(None, None), binding)), "C1")
      && AnswersWithId(server, Post(Account, PayloadFor(Account, values, Links(Some("C1"), None), binding)), "A1")
      && CarriesId(server, Post(Lead, PayloadFor(Lead, values, Links(Some("C1"), Some("A1")), binding)))
      && CarriesId(server, Post(Opportunity, PayloadFor(Opportunity, values, Links(Some("C1"), Some("A1")), binding)))
  {
    assert IdIn(Object(map["contactid" := Str("C1")]), Contact) == Str("C1");
    assert IdIn(Object(map["accountid" := Str("A1")]), Account) == Str("A1");
    assert IdIn(Object(map["leadid" := Str("L1")]), Lead) == Str("L1");
    assert IdIn(Object(map["opportunityid" := Str("O1")]), Opportunity) == Str("O1");
  }

  /** With every step enabled and contact and account answered with ids C1 and A1, the
      opportunity payload binds both records. */
  lemma OpportunityCarriesBinds(values: MappedValues)
    ensures var r := SendPayload(AllEnabled, Done(values), IdServer("C1", "A1"));
      && r.verdict == Completed && |r.posts| == 4 && r.posts[3].kind == Opportunity
      && r.posts[3].payload == values.opportunity[ParentContactBind := Str("contacts(C1)")][ParentAccountBind := Str("accounts(A1)")]
  {
    IdServerAnswers(values, OntoOpportunityPayload);
    AllEnabledRun(values, IdServer("C1", "A1"), OntoOpportunityPayload, "C1", "A1");
    assert "contacts(" + "C1" + ")" == "contacts(C1)";
    assert "accounts(" + "A1" + ")" == "accounts(A1)";
  }

  /** As written, the same run sends the opportunity as the bare mapped values. */
  lemma OpportunityBindsLostAsWritten(values: MappedValues)
    ensures var r := SendPayloadAsWritten(AllEnabled, Done(values), IdServer("C1", "A1"));
      && r.verdict == Completed && |r.posts| == 4 && r.posts[3].kind == Opportunity
      && r.posts[3].payload == values.opportunity
      && (ParentContactBind !in values.opportunity ==> ParentContactBind !in r.posts[3].payload)
  {
    IdServerAnswers(values, OntoAccountPayload);
    AllEnabledRun(values, IdServer("C1", "A1"), OntoAccountPayload, "C1", "A1");
  }

  // ---------------------------------------------------------------------------
  // The POST header rule of `request`

  /** The request options' headers: a POST asks for the created record back, replacing any
      headers given; other methods pass through unchanged. */
  function RequestHeaders(verb: string, headers: Option<map<string, string>>): (r: Option<map<string, string>>)
    ensures verb == "POST" ==> r.Some? && r.value.Keys == {"Prefer"} && r.value["Prefer"] == "return=representation"
    ensures verb != "POST" ==> r == headers
  {
    if verb == "POST" then Some(map["Prefer" := "return=representation"]) else headers
  }

}

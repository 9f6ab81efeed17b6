/** The event center: consumers indexed by a string key, looked up in up to three buckets. The
    index is to behave like a scan of all subscribed consumers. */
module EventCenter {
  import opened Events

  type ConsumerId = nat

  /** conversation is the topic, agent the tag; without either the consumer is global. */
  datatype Consumer = Consumer(id: ConsumerId, conversation: Option<string>, agent: Option<string>,
                                 types: Option<set<string>>)

  /** What the center sees of a published event: its class and the classes above it. */
  datatype Published = Published(classes: set<string>)

  function ConversationKey(conversation: string): string {
    "conv:" + conversation
  }

  function AgentPrefix(conversation: string): string {
    "conv:" + conversation + ":agent:"
  }

  function SubscriptionKey(c: Consumer): string {
    match c.conversation
    case None => "global"
    case Some(conversation) =>
      match c.agent
      case None => ConversationKey(conversation)
      case Some(agent) => AgentPrefix(conversation) + agent
  }

  predicate ShouldHandle(c: Consumer, e: Published) {
    c.types.None? || exists t :: t in c.types.value && t in e.classes
  }

  /** Ids are compared as printed; a missing id prints as None. */
  function Printed(id: Option<string>): string {
    match id case None => "None" case Some(s) => s
  }

  predicate MatchEvent(c: Consumer, conversation: Option<string>, agent: Option<string>) {
    c.conversation.None?
    || (c.conversation.value == Printed(conversation) && (c.agent.Some? ==> c.agent.value == Printed(agent)))
  }

  type Index = map<string, seq<Consumer>>

  function Bucket(index: Index, key: string): seq<Consumer> {
    if key in index then index[key] else []
  }

  predicate HasId(consumers: seq<Consumer>, id: ConsumerId) {
    exists i :: 0 <= i < |consumers| && consumers[i].id == id
  }

  function WithoutId(consumers: seq<Consumer>, id: ConsumerId): seq<Consumer> {
    if |consumers| == 0 then []
    else if consumers[0].id == id then consumers[1..]
    else [consumers[0]] + WithoutId(consumers[1..], id)
  }

  /** With no such id before i, the element at i goes, or nothing. */
  lemma {:induction false} WithoutFirst(consumers: seq<Consumer>, id: ConsumerId, i: nat)
    requires i <= |consumers| && (forall k :: 0 <= k < i ==> consumers[k].id != id)
    requires i < |consumers| ==> consumers[i].id == id
    ensures WithoutId(consumers, id) == if i < |consumers| then consumers[..i] + consumers[i + 1..] else consumers
  {
    if i > 0 {
      WithoutFirst(consumers[1..], id, i - 1);
      assert consumers == [consumers[0]] + consumers[1..];
    }
  }

  // ----- what each call does to the index -----------------------------------------------------

  function Subscribed(index: Index, c: Consumer): Index {
    var key := SubscriptionKey(c);
    if HasId(Bucket(index, key), c.id) then index[key := Bucket(index, key)] else index[key := Bucket(index, key) + [c]]
  }

  function AllSubscribed(index: Index, consumers: seq<Consumer>): Index
    decreases |consumers|
  {
    if |consumers| == 0 then index else AllSubscribed(Subscribed(index, consumers[0]), consumers[1..])
  }

  function Unsubscribed(index: Index, c: Consumer): Index {
    var key := SubscriptionKey(c);
    if key in index then index[key := WithoutId(index[key], c.id)] else index
  }

  predicate ClearedKey(key: string, conversation: string) {
    key == ConversationKey(conversation) || AgentPrefix(conversation) <= key
  }

  function ConversationCleared(index: Index, conversation: string): Index {
    map k | k in index && !ClearedKey(k, conversation) :: index[k]
  }

  function AgentCleared(index: Index, conversation: string, agent: string): Index {
    index - {AgentPrefix(conversation) + agent}
  }

  function Targets(index: Index, conversation: Option<string>, agent: Option<string>): seq<Consumer> {
    Bucket(index, "global")
    + (if conversation.Some? then Bucket(index, ConversationKey(conversation.value)) else [])
    + (if conversation.Some? && agent.Some? then Bucket(index, AgentPrefix(conversation.value) + agent.value) else [])
  }

  predicate Accepts(c: Consumer, e: Published, conversation: Option<string>, agent: Option<string>) {
    MatchEvent(c, conversation, agent) && ShouldHandle(c, e)
  }

  function Accepting(consumers: seq<Consumer>, e: Published, conversation: Option<string>,
                     agent: Option<string>): seq<Consumer> {
    if |consumers| == 0 then []
    else Accepting(consumers[..|consumers| - 1], e, conversation, agent)
         + (if Accepts(consumers[|consumers| - 1], e, conversation, agent) then [consumers[|consumers| - 1]] else [])
  }

  /** The consumers whose on_event is called, in order. */
  function Delivered(index: Index, e: Published, conversation: Option<string>, agent: Option<string>): seq<Consumer> {
    Accepting(Targets(index, conversation, agent), e, conversation, agent)
  }

  /** The event center with its dict. */
  class Center {
    var consumers: Index

    constructor ()
      ensures consumers == map[]
    {
      consumers := map[];
    }

    method Subscribe(c: Consumer)
      modifies this
      ensures consumers == Subscribed(old(consumers), c)
    {
      var key := SubscriptionKey(c);
      if key !in consumers {
        consumers := consumers[key := []];
      }
      for i := 0 to |consumers[key]|
        invariant forall k :: 0 <= k < i ==> consumers[key][k].id != c.id
      {
        if consumers[key][i].id == c.id {
          return;
        }
      }
      consumers := consumers[key := consumers[key] + [c]];
    }

    method BatchSubscribe(added: seq<Consumer>)
      modifies this
      ensures consumers == AllSubscribed(old(consumers), added)
    {
      var i := 0;
      assert added[0..] == added;
      while i < |added|
        invariant 0 <= i <= |added|
        invariant AllSubscribed(old(consumers), added) == AllSubscribed(consumers, added[i..])
      {
        assert added[i..][1..] == added[i + 1..];
        Subscribe(added[i]);
        i := i + 1;
      }
    }

    method Unsubscribe(c: Consumer)
      modifies this
      ensures consumers == Unsubscribed(old(consumers), c)
    {
      var key := SubscriptionKey(c);
      var list := if key in consumers then consumers[key] else [];
      for i := 0 to |list|
        invariant consumers == old(consumers)
        invariant forall k :: 0 <= k < i ==> list[k].id != c.id
      {
        if list[i].id == c.id {
          WithoutFirst(list, c.id, i);
          consumers := consumers[key := list[..i] + list[i + 1..]];
          return;
        }
      }
      WithoutFirst(list, c.id, |list|);
    }

    method ClearAll()
      modifies this
      ensures consumers == map[]
    {
      consumers := map[];
    }

    method ClearConversation(conversation: string)
      modifies this
      ensures consumers == ConversationCleared(old(consumers), conversation)
    {
      if ConversationKey(conversation) in consumers {
        consumers := consumers - {ConversationKey(conversation)};
      }
      var doomed := set key | key in consumers && AgentPrefix(conversation) <= key;
      consumers := consumers - doomed;
    }

    method ClearAgent(conversation: string, agent: string)
      modifies this
      ensures consumers == AgentCleared(old(consumers), conversation, agent)
    {
      var key := AgentPrefix(conversation) + agent;
      if key in consumers {
        consumers := consumers - {key};
      }
    }

    method FindTargets(conversation: Option<string>, agent: Option<string>) returns (targets: seq<Consumer>)
      ensures targets == Targets(consumers, conversation, agent)
    {
      targets := if "global" in consumers then consumers["global"] else [];
      if conversation.Some? {
        var conversationKey := ConversationKey(conversation.value);
        targets := targets + if conversationKey in consumers then consumers[conversationKey] else [];
        if agent.Some? {
          var agentKey := AgentPrefix(conversation.value) + agent.value;
          targets := targets + if agentKey in consumers then consumers[agentKey] else [];
        }
      }
    }

    /** Returns the consumers it calls, in order. */
    method Publish(e: Published, conversation: Option<string>, agent: Option<string>) returns (called: seq<Consumer>)
      ensures called == Delivered(consumers, e, conversation, agent)
    {
      var targets := FindTargets(conversation, agent);
      called := [];
      for i := 0 to |targets|
        invariant called == Accepting(targets[..i], e, conversation, agent)
      {
        assert targets[..i + 1][..i] == targets[..i];
        if !MatchEvent(targets[i], conversation, agent) {
          continue;
        }
        if !ShouldHandle(targets[i], e) {
          continue;
        }
        called := called + [targets[i]];
      }
      assert targets[..|targets|] == targets;
    }
  }

  // ----- the reference: a flat set of consumers ---------------------------------------------

  datatype Call =
    | SubscribeCall(consumer: Consumer)
    | BatchCall(consumers: seq<Consumer>)
    | UnsubscribeCall(consumer: Consumer)
    | ClearAllCall
    | ClearConversationCall(conversation: string)
    | ClearAgentCall(conversation: string, agent: string)

  function CallIndex(index: Index, call: Call): Index {
    match call
    case SubscribeCall(c) => Subscribed(index, c)
    case BatchCall(cs) => AllSubscribed(index, cs)
    case UnsubscribeCall(c) => Unsubscribed(index, c)
    case ClearAllCall => map[]
    case ClearConversationCall(v) => ConversationCleared(index, v)
    case ClearAgentCall(v, a) => AgentCleared(index, v, a)
  }

  function CallsIndex(calls: seq<Call>): Index {
    if |calls| == 0 then map[] else CallIndex(CallsIndex(calls[..|calls| - 1]), calls[|calls| - 1])
  }

  /** The same consumer, as far as subscribing goes. */
  predicate SameSubscription(c: Consumer, d: Consumer) {
    c.id == d.id && c.conversation == d.conversation && (c.conversation.Some? ==> c.agent == d.agent)
  }

  function FlatAdd(flat: set<Consumer>, c: Consumer): set<Consumer> {
    if exists d :: d in flat && SameSubscription(c, d) then flat else flat + {c}
  }

  function FlatAddAll(flat: set<Consumer>, cs: seq<Consumer>): set<Consumer>
    decreases |cs|
  {
    if |cs| == 0 then flat else FlatAddAll(FlatAdd(flat, cs[0]), cs[1..])
  }

  function CallFlat(flat: set<Consumer>, call: Call): set<Consumer> {
    match call
    case SubscribeCall(c) => FlatAdd(flat, c)
    case BatchCall(cs) => FlatAddAll(flat, cs)
    case UnsubscribeCall(c) => set d | d in flat && !SameSubscription(c, d)
    case ClearAllCall => {}
    case ClearConversationCall(v) => set d | d in flat && d.conversation != Some(v)
    case ClearAgentCall(v, a) => set d | d in flat && !(d.conversation == Some(v) && d.agent == Some(a))
  }

  function CallsFlat(calls: seq<Call>): set<Consumer> {
    if |calls| == 0 then {} else CallFlat(CallsFlat(calls[..|calls| - 1]), calls[|calls| - 1])
  }

  /** The rule the buckets are to implement: global consumers get everything, the others what is
      published to their conversation and, if they name one, to their agent. */
  predicate Addressed(c: Consumer, conversation: Option<string>, agent: Option<string>) {
    c.conversation.None? || (c.conversation == conversation && (c.agent.Some? ==> c.agent == agent))
  }

  // ----- keys ---------------------------------------------------------------------------------

  predicate NoColon(s: string) {
    ':' !in s
  }

  /** Without colons, the text before the first colon is determined. */
  lemma FirstColon(p: string, q: string, x: string, y: string)
    requires NoColon(p) && NoColon(q)
             && (p + ":agent:" + x <= q + ":agent:" + y || p + ":agent:" + x == q + ":agent:" + y)
    ensures p == q
  {
    var s, t := p + ":agent:" + x, q + ":agent:" + y;
    assert s[|p|] == ':' && t[|q|] == ':';
    forall k | 0 <= k < |p| ensures s[k] != ':' {
      assert s[k] == p[k];
    }
    forall k | 0 <= k < |q| ensures t[k] != ':' {
      assert t[k] == q[k];
    }
    assert forall k :: 0 <= k < |s| ==> s[k] == t[k];
    assert |q| <= |p| && |p| <= |q|;
    assert p == s[..|p|] && q == t[..|q|];
  }

  predicate PlainConsumer(c: Consumer) {
    c.conversation.Some? ==> NoColon(c.conversation.value)
  }

  lemma ConversationKeyVsAgentKey(v: string, d: string, a: string)
    requires NoColon(v)
    ensures ConversationKey(v) != AgentPrefix(d) + a
  {
    var key := ConversationKey(v);
    assert (AgentPrefix(d) + a)[5 + |d|] == ':';
    forall k | 5 <= k < |key| ensures key[k] != ':' {
      assert key[k] == v[k - 5];
    }
  }

  /** A conversation id without colons and an agent id are determined by the key. */
  lemma AgentKeysDiffer(v: string, a: string, w: string, b: string)
    requires NoColon(v) && NoColon(w) && AgentPrefix(v) + a == AgentPrefix(w) + b
    ensures v == w && a == b
  {
    assert AgentPrefix(v) + a == "conv:" + (v + ":agent:" + a);
    assert AgentPrefix(w) + b == "conv:" + (w + ":agent:" + b);
    assert (v + ":agent:" + a) == ("conv:" + (v + ":agent:" + a))[5..];
    assert (w + ":agent:" + b) == ("conv:" + (w + ":agent:" + b))[5..];
    FirstColon(v, w, a, b);
    assert a == (v + ":agent:" + a)[|v| + 7..] && b == (w + ":agent:" + b)[|w| + 7..];
  }

  lemma ConversationKeysDiffer(v: string, w: string)
    requires ConversationKey(v) == ConversationKey(w)
    ensures v == w
  {
    assert v == ConversationKey(v)[5..] && w == ConversationKey(w)[5..];
  }

  /** The key determines conversation and agent. */
  lemma KeyIsInjective(c: Consumer, d: Consumer)
    requires PlainConsumer(c) && PlainConsumer(d) && c.id == d.id
    ensures SubscriptionKey(c) == SubscriptionKey(d) <==> SameSubscription(c, d)
  {
    if SubscriptionKey(c) == SubscriptionKey(d) {
      if c.conversation.None? || d.conversation.None? {
        assert SubscriptionKey(c)[0] == SubscriptionKey(d)[0];
      } else {
        var v, w := c.conversation.value, d.conversation.value;
        if c.agent.None? && d.agent.None? {
          ConversationKeysDiffer(v, w);
        } else if c.agent.None? {
          ConversationKeyVsAgentKey(v, w, d.agent.value);
        } else if d.agent.None? {
          ConversationKeyVsAgentKey(w, v, c.agent.value);
        } else {
          AgentKeysDiffer(v, c.agent.value, w, d.agent.value);
        }
      }
    }
  }

  /** Clearing a conversation clears exactly the keys of its consumers. */
  lemma ClearedKeysAreItsOwn(c: Consumer, v: string)
    requires PlainConsumer(c) && NoColon(v)
    ensures ClearedKey(SubscriptionKey(c), v) <==> c.conversation == Some(v)
  {
    var key := SubscriptionKey(c);
    if c.conversation.None? {
      assert key[0] == 'g' && ConversationKey(v)[0] == 'c' && AgentPrefix(v)[0] == 'c';
    } else {
      var d := c.conversation.value;
      if c.agent.None? {
        assert AgentPrefix(v)[5 + |v|] == ':';
        forall k | 5 <= k < |key| ensures key[k] != ':' {
          assert key[k] == d[k - 5];
        }
        if key == ConversationKey(v) {
          ConversationKeysDiffer(d, v);
        }
      } else {
        var a := c.agent.value;
        ConversationKeyVsAgentKey(v, d, a);
        if AgentPrefix(v) <= key {
          assert key == "conv:" + (d + ":agent:" + a);
          assert AgentPrefix(v) == "conv:" + (v + ":agent:" + "");
          assert (v + ":agent:" + "") == AgentPrefix(v)[5..] && (d + ":agent:" + a) == key[5..];
          FirstColon(v, d, "", a);
        }
      }
    }
  }

  // ----- the index agrees with a scan of the flat set ---------------------------------------

  /** Every bucket holds consumers of its own key only, each id at most once. */
  ghost predicate ValidIndex(index: Index) {
    forall key :: key in index ==> ValidBucket(key, index[key])
  }

  ghost predicate ValidBucket(key: string, bucket: seq<Consumer>) {
    && (forall i :: 0 <= i < |bucket| ==> SubscriptionKey(bucket[i]) == key)
    && forall i, j :: 0 <= i < j < |bucket| ==> bucket[i].id != bucket[j].id
  }

  /** flat is what index holds. */
  ghost predicate Represents(index: Index, flat: set<Consumer>) {
    && ValidIndex(index)
    && (forall c :: c in flat <==> c in Bucket(index, SubscriptionKey(c)))
    && (forall c :: c in flat ==> PlainConsumer(c))
  }

  lemma SubscribedRepresents(index: Index, flat: set<Consumer>, c: Consumer)
    requires Represents(index, flat) && PlainConsumer(c)
    ensures Represents(Subscribed(index, c), FlatAdd(flat, c))
  {
    var key := SubscriptionKey(c);
    var bucket := Bucket(index, key);
    if HasId(bucket, c.id) {
      var i :| 0 <= i < |bucket| && bucket[i].id == c.id;
      assert bucket[i] in flat;
      KeyIsInjective(c, bucket[i]);
    } else {
      forall d | d in flat ensures !SameSubscription(c, d) {
        if d.id == c.id {
          KeyIsInjective(c, d);
          assert d in Bucket(index, SubscriptionKey(d));
        }
      }
    }
  }

  lemma {:induction false} AllSubscribedRepresents(index: Index, flat: set<Consumer>, cs: seq<Consumer>)
    requires Represents(index, flat) && forall c :: c in cs ==> PlainConsumer(c)
    ensures Represents(AllSubscribed(index, cs), FlatAddAll(flat, cs))
    decreases |cs|
  {
    if |cs| > 0 {
      SubscribedRepresents(index, flat, cs[0]);
      AllSubscribedRepresents(Subscribed(index, cs[0]), FlatAdd(flat, cs[0]), cs[1..]);
    }
  }

  lemma WithoutAt(bucket: seq<Consumer>, key: string, i: nat)
    requires ValidBucket(key, bucket) && i < |bucket|
    ensures var w := bucket[..i] + bucket[i + 1..];
            ValidBucket(key, w) && forall d :: d in w <==> d in bucket && d.id != bucket[i].id
  {
    var w := bucket[..i] + bucket[i + 1..];
    assert forall k :: 0 <= k < |w| ==> w[k] == bucket[if k < i then k else k + 1];
    forall d | d in bucket && d.id != bucket[i].id ensures d in w {
      var k :| 0 <= k < |bucket| && bucket[k] == d;
      assert w[if k < i then k else k - 1] == d;
    }
  }

  lemma WithoutIdMembers(bucket: seq<Consumer>, key: string, id: ConsumerId)
    requires ValidBucket(key, bucket)
    ensures ValidBucket(key, WithoutId(bucket, id))
    ensures forall d :: d in WithoutId(bucket, id) <==> d in bucket && d.id != id
  {
    if i :| 0 <= i < |bucket| && bucket[i].id == id {
      WithoutFirst(bucket, id, i);
      WithoutAt(bucket, key, i);
    } else {
      WithoutFirst(bucket, id, |bucket|);
    }
  }

  lemma UnsubscribedRepresents(index: Index, flat: set<Consumer>, c: Consumer)
    requires Represents(index, flat) && PlainConsumer(c)
    ensures Represents(Unsubscribed(index, c), CallFlat(flat, UnsubscribeCall(c)))
  {
    var key := SubscriptionKey(c);
    var after := Unsubscribed(index, c);
    if key in index {
      WithoutIdMembers(index[key], key, c.id);
    }
    forall d ensures d in flat && !SameSubscription(c, d) <==> d in Bucket(after, SubscriptionKey(d)) {
      if d in flat && d.id == c.id {
        KeyIsInjective(c, d);
      }
    }
  }

  lemma ClearedRepresents(index: Index, flat: set<Consumer>, v: string)
    requires Represents(index, flat) && NoColon(v)
    ensures Represents(ConversationCleared(index, v), CallFlat(flat, ClearConversationCall(v)))
  {
    forall d
      ensures d in flat && d.conversation != Some(v) <==> d in Bucket(ConversationCleared(index, v), SubscriptionKey(d))
    {
      if d in flat {
        ClearedKeysAreItsOwn(d, v);
      }
    }
  }

  lemma AgentClearedRepresents(index: Index, flat: set<Consumer>, v: string, a: string)
    requires Represents(index, flat) && NoColon(v)
    ensures Represents(AgentCleared(index, v, a), CallFlat(flat, ClearAgentCall(v, a)))
  {
    var example := Consumer(0, Some(v), Some(a), None);
    forall d
      ensures d in CallFlat(flat, ClearAgentCall(v, a)) <==> d in Bucket(AgentCleared(index, v, a), SubscriptionKey(d))
    {
      if d in flat {
        KeyIsInjective(example, d.(id := 0));
      }
    }
  }

  /** No conversation id of the call contains a colon. */
  ghost predicate PlainCall(call: Call) {
    match call
    case SubscribeCall(c) => PlainConsumer(c)
    case BatchCall(cs) => forall c :: c in cs ==> PlainConsumer(c)
    case UnsubscribeCall(c) => PlainConsumer(c)
    case ClearAllCall => true
    case ClearConversationCall(v) => NoColon(v)
    case ClearAgentCall(v, _) => NoColon(v)
  }

  lemma CallRepresents(index: Index, flat: set<Consumer>, call: Call)
    requires Represents(index, flat) && PlainCall(call)
    ensures Represents(CallIndex(index, call), CallFlat(flat, call))
  {
    match call
    case SubscribeCall(c) => SubscribedRepresents(index, flat, c);
    case BatchCall(cs) => AllSubscribedRepresents(index, flat, cs);
    case UnsubscribeCall(c) => UnsubscribedRepresents(index, flat, c);
    case ClearAllCall =>
    case ClearConversationCall(v) => ClearedRepresents(index, flat, v);
    case ClearAgentCall(v, a) => AgentClearedRepresents(index, flat, v, a);
  }

  /** After any sequence of calls the index holds exactly the flat set. */
  lemma {:induction false} CallsRepresent(calls: seq<Call>)
    requires forall call :: call in calls ==> PlainCall(call)
    ensures Represents(CallsIndex(calls), CallsFlat(calls))
  {
    if |calls| > 0 {
      var before, call := calls[..|calls| - 1], calls[|calls| - 1];
      assert calls == before + [call];
      CallsRepresent(before);
      assert call in calls;
      CallRepresents(CallsIndex(before), CallsFlat(before), call);
    }
  }

  // ----- delivery -----------------------------------------------------------------------------

  /** Accepting keeps order and multiplicity. */
  lemma {:induction false} AcceptingCounts(cs: seq<Consumer>, e: Published, v: Option<string>, a: Option<string>,
                                           c: Consumer)
    ensures multiset(Accepting(cs, e, v, a))[c] == if Accepts(c, e, v, a) then multiset(cs)[c] else 0
  {
    if |cs| > 0 {
      AcceptingCounts(cs[..|cs| - 1], e, v, a, c);
      assert cs == cs[..|cs| - 1] + [cs[|cs| - 1]];
    }
  }

  lemma BucketCounts(index: Index, key: string, c: Consumer)
    requires ValidIndex(index)
    ensures multiset(Bucket(index, key))[c] == if c in Bucket(index, key) then 1 else 0
    ensures c in Bucket(index, key) ==> SubscriptionKey(c) == key
  {
    if key in index {
      assert ValidBucket(key, index[key]);
      DistinctCounts(index[key], c);
    }
  }

  lemma {:induction false} DistinctCounts(bucket: seq<Consumer>, c: Consumer)
    requires forall i, j :: 0 <= i < j < |bucket| ==> bucket[i].id != bucket[j].id
    ensures multiset(bucket)[c] == if c in bucket then 1 else 0
  {
    if |bucket| > 0 {
      var last := bucket[|bucket| - 1];
      assert bucket == bucket[..|bucket| - 1] + [last];
      DistinctCounts(bucket[..|bucket| - 1], c);
      assert last !in bucket[..|bucket| - 1];
    }
  }

  lemma TargetKeysDiffer(conversation: string, agent: string)
    ensures ConversationKey(conversation) != "global" && AgentPrefix(conversation) + agent != "global"
    ensures AgentPrefix(conversation) + agent != ConversationKey(conversation)
  {
    assert ConversationKey(conversation)[0] == 'c' && (AgentPrefix(conversation) + agent)[0] == 'c'
           && "global"[0] == 'g';
    assert |AgentPrefix(conversation) + agent| > |ConversationKey(conversation)|;
  }

  lemma CountInThree(A: seq<Consumer>, B: seq<Consumer>, C: seq<Consumer>, c: Consumer)
    ensures multiset(A + B + C)[c] == multiset(A)[c] + multiset(B)[c] + multiset(C)[c]
  {
  }

  lemma ConversationTargetsCount(index: Index, v: string, c: Consumer)
    requires ValidIndex(index)
    ensures multiset(Targets(index, Some(v), None))[c]
         == if c in Bucket(index, SubscriptionKey(c)) && SubscriptionKey(c) in TargetKeys(Some(v), None) then 1 else 0
  {
    BucketCounts(index, "global", c);
    BucketCounts(index, ConversationKey(v), c);
    TargetKeysDiffer(v, "");
    CountInThree(Bucket(index, "global"), Bucket(index, ConversationKey(v)), [], c);
  }

  lemma AgentTargetsCount(index: Index, v: string, a: string, c: Consumer)
    requires ValidIndex(index)
    ensures multiset(Targets(index, Some(v), Some(a)))[c]
         == if c in Bucket(index, SubscriptionKey(c)) && SubscriptionKey(c) in TargetKeys(Some(v), Some(a)) then 1
            else 0
  {
    BucketCounts(index, "global", c);
    BucketCounts(index, ConversationKey(v), c);
    BucketCounts(index, AgentPrefix(v) + a, c);
    TargetKeysDiffer(v, a);
    CountInThree(Bucket(index, "global"), Bucket(index, ConversationKey(v)), Bucket(index, AgentPrefix(v) + a), c);
  }

  /** The three buckets of a lookup are different. */
  lemma TargetsCount(index: Index, v: Option<string>, a: Option<string>, c: Consumer)
    requires ValidIndex(index)
    ensures multiset(Targets(index, v, a))[c]
         == if c in Bucket(index, SubscriptionKey(c)) && SubscriptionKey(c) in TargetKeys(v, a) then 1 else 0
  {
    match v
    case None =>
      BucketCounts(index, "global", c);
      CountInThree(Bucket(index, "global"), [], [], c);
    case Some(conversation) =>
      match a
      case None => ConversationTargetsCount(index, conversation, c);
      case Some(agent) => AgentTargetsCount(index, conversation, agent, c);
  }

  function TargetKeys(v: Option<string>, a: Option<string>): set<string> {
    {"global"} + (if v.Some? then {ConversationKey(v.value)} else {})
               + (if v.Some? && a.Some? then {AgentPrefix(v.value) + a.value} else {})
  }

  /** A subscribed consumer that the filter accepts is found by the lookup, unless an id it names
      is the word the filter prints for a missing one. */
  lemma AcceptedIsFound(c: Consumer, v: Option<string>, a: Option<string>)
    ensures Addressed(c, v, a) ==> MatchEvent(c, v, a) && SubscriptionKey(c) in TargetKeys(v, a)
    ensures MatchEvent(c, v, a) && !Addressed(c, v, a) ==> c.conversation == Some("None") || c.agent == Some("None")
  {
  }

  lemma FoundAndAcceptedIsAddressed(c: Consumer, v: Option<string>, a: Option<string>)
    requires PlainConsumer(c) && (v.Some? ==> NoColon(v.value))
    requires MatchEvent(c, v, a) && SubscriptionKey(c) in TargetKeys(v, a)
    ensures Addressed(c, v, a)
  {
    if c.conversation.Some? {
      var d := c.conversation.value;
      assert SubscriptionKey(c)[0] == 'c' && "global"[0] == 'g';
      assert v.Some?;
      if c.agent.Some? {
        ConversationKeyVsAgentKey(v.value, d, c.agent.value);
        assert a.Some?;
      }
    }
  }

  /** After any calls with colon-free conversation ids, publishing calls exactly the subscribed
      consumers the event is addressed to and that handle its type, each once. */
  lemma DeliveryIsExact(calls: seq<Call>, e: Published, v: Option<string>, a: Option<string>, c: Consumer)
    requires forall call :: call in calls ==> PlainCall(call)
    requires v.Some? ==> NoColon(v.value)
    ensures multiset(Delivered(CallsIndex(calls), e, v, a))[c]
         == if c in CallsFlat(calls) && Addressed(c, v, a)
              && (c.types.None? || exists t :: t in c.types.value && t in e.classes) then 1 else 0
  {
    var index := CallsIndex(calls);
    CallsRepresent(calls);
    AcceptingCounts(Targets(index, v, a), e, v, a, c);
    TargetsCount(index, v, a, c);
    AcceptedIsFound(c, v, a);
    if c in CallsFlat(calls) && MatchEvent(c, v, a) && SubscriptionKey(c) in TargetKeys(v, a) {
      FoundAndAcceptedIsAddressed(c, v, a);
    }
  }

  /** So delivery is the scan of all subscribed consumers with the filter's rule, except for those the filter
      accepts though the event is not addressed to them: they name the word None where it has no id. */
  lemma DeliveryIsTheScan(calls: seq<Call>, e: Published, v: Option<string>, a: Option<string>, c: Consumer)
    requires (forall call :: call in calls ==> PlainCall(call)) && (v.Some? ==> NoColon(v.value))
    ensures multiset(Delivered(CallsIndex(calls), e, v, a))[c]
            == if c in CallsFlat(calls) && Accepts(c, e, v, a) && !Mistaken(c, v, a) then 1 else 0
    ensures MatchEvent(c, v, a) && !Addressed(c, v, a) <==> Mistaken(c, v, a)
  {
    DeliveryIsExact(calls, e, v, a, c);
    AcceptedIsFound(c, v, a);
  }

  /** The filter compares ids as printed, and a missing one prints as None. */
  predicate Mistaken(c: Consumer, v: Option<string>, a: Option<string>) {
    && MatchEvent(c, v, a) && c.conversation.Some?
    && ((v.None? && c.conversation == Some("None")) || (a.None? && c.agent == Some("None")))
  }

  /** For one: it is found by the filter, but not delivered. */
  lemma NoneIsMistaken(c: Consumer, e: Published)
    requires c == Consumer(1, Some("None"), None, None)
    ensures var calls := [SubscribeCall(c)];
            && c in CallsFlat(calls) && Accepts(c, e, None, None)
            && multiset(Delivered(CallsIndex(calls), e, None, None))[c] == 0
  {
    var calls := [SubscribeCall(c)];
    assert calls[..0] == [];
    assert NoColon("None");
    DeliveryIsTheScan(calls, e, None, None, c);
  }

  // ----- the order of delivery --------------------------------------------------------------------

  /** Global consumers come first, those of an agent last. */
  function Level(c: Consumer): nat {
    if c.conversation.None? then 0 else if c.agent.None? then 1 else 2
  }

  ghost predicate ByLevel(cs: seq<Consumer>) {
    forall i, j :: 0 <= i < j < |cs| ==> Level(cs[i]) <= Level(cs[j])
  }

  ghost predicate AtLevel(cs: seq<Consumer>, level: nat) {
    forall c :: c in cs ==> Level(c) == level
  }

  lemma BucketLevel(index: Index, c: Consumer)
    requires ValidIndex(index) && (forall d :: d in Bucket(index, SubscriptionKey(c)) ==> PlainConsumer(d))
    requires PlainConsumer(c)
    ensures AtLevel(Bucket(index, SubscriptionKey(c)), Level(c))
  {
    forall d | d in Bucket(index, SubscriptionKey(c)) ensures Level(d) == Level(c) {
      BucketCounts(index, SubscriptionKey(c), d);
      KeyIsInjective(c, d.(id := c.id));
    }
  }

  lemma TargetsByLevel(index: Index, v: Option<string>, a: Option<string>)
    requires ValidIndex(index) && (v.Some? ==> NoColon(v.value))
    requires forall key, c :: c in Bucket(index, key) ==> PlainConsumer(c)
    ensures ByLevel(Targets(index, v, a))
  {
    BucketLevel(index, Consumer(0, None, None, None));
    if v.Some? {
      BucketLevel(index, Consumer(0, v, None, None));
      if a.Some? {
        BucketLevel(index, Consumer(0, v, a, None));
      }
    }
  }

  lemma {:induction false} AcceptingByLevel(cs: seq<Consumer>, e: Published, v: Option<string>, a: Option<string>)
    requires ByLevel(cs)
    ensures ByLevel(Accepting(cs, e, v, a)) && forall c :: c in Accepting(cs, e, v, a) ==> c in cs
  {
    if |cs| > 0 {
      var front, last := cs[..|cs| - 1], cs[|cs| - 1];
      AcceptingByLevel(front, e, v, a);
      var r := Accepting(front, e, v, a);
      forall i | 0 <= i < |r| ensures Level(r[i]) <= Level(last) {
        assert r[i] in front;
        var k :| 0 <= k < |front| && front[k] == r[i];
        assert Level(cs[k]) <= Level(cs[|cs| - 1]);
      }
    }
  }

  /** After any calls with colon-free conversation ids, an event goes to the global consumers first, then to
      those of its conversation, then to those of its agent. */
  lemma DeliveryIsByLevel(calls: seq<Call>, e: Published, v: Option<string>, a: Option<string>, i: nat, j: nat)
    requires (forall call :: call in calls ==> PlainCall(call)) && (v.Some? ==> NoColon(v.value))
    requires i < j < |Delivered(CallsIndex(calls), e, v, a)|
    ensures var d := Delivered(CallsIndex(calls), e, v, a);
            && (d[j].conversation.None? ==> d[i].conversation.None?)
            && (d[j].agent.None? ==> d[i].conversation.None? || d[i].agent.None?)
  {
    var index := CallsIndex(calls);
    CallsRepresent(calls);
    forall key, c | c in Bucket(index, key) ensures PlainConsumer(c) {
      BucketCounts(index, key, c);
      assert c in CallsFlat(calls);
    }
    TargetsByLevel(index, v, a);
    AcceptingByLevel(Targets(index, v, a), e, v, a);
  }

  /** Within a bucket consumers are in the order in which they subscribed: a new one comes last, and one
      that is there keeps its place. */
  lemma SubscribingComesLast(index: Index, c: Consumer, key: string)
    ensures var before, after := Bucket(index, key), Bucket(Subscribed(index, c), key);
            if key == SubscriptionKey(c) && (forall d :: d in before ==> d.id != c.id)
            then after == before + [c] else after == before
  {
    var before := Bucket(index, key);
    assert HasId(before, c.id) <==> exists d :: d in before && d.id == c.id;
  }

  // ----- clearing a conversation ----------------------------------------------------------------

  lemma OtherKeysStay(v: string, w: string, a: string)
    requires NoColon(v) && NoColon(w) && v != w
    ensures !ClearedKey(ConversationKey(w), v) && !ClearedKey(AgentPrefix(w) + a, v) && !ClearedKey("global", v)
  {
    ClearedKeysAreItsOwn(Consumer(0, Some(w), None, None), v);
    ClearedKeysAreItsOwn(Consumer(0, Some(w), Some(a), None), v);
    ClearedKeysAreItsOwn(Consumer(0, None, None, None), v);
  }

  /** Clearing one conversation changes nothing for the others, order included, and leaves only
      global consumers for its own. */
  lemma ClearingSparesOthers(index: Index, v: string, e: Published, w: Option<string>, a: Option<string>)
    requires NoColon(v) && (w.Some? ==> NoColon(w.value))
    ensures w != Some(v) ==> Delivered(ConversationCleared(index, v), e, w, a) == Delivered(index, e, w, a)
    ensures w == Some(v) ==> Targets(ConversationCleared(index, v), w, a) == Bucket(index, "global")
  {
    if w.None? {
      OtherKeysStay(v, v + "'", "");
    } else if w != Some(v) {
      OtherKeysStay(v, w.value, if a.Some? then a.value else "");
      assert Targets(ConversationCleared(index, v), w, a) == Targets(index, w, a);
    } else {
      OtherKeysStay(v, v + "'", "");
      assert a.Some? ==> AgentPrefix(v) <= AgentPrefix(v) + a.value;
    }
  }

  // ----- which ids clearing spares ----------------------------------------------------------------

  /** Clearing v removes no key that an event for w and a is looked up by. */
  predicate Spares(v: string, w: string, a: Option<string>) {
    && w != v && !(v + ":agent:" <= w)
    && (a.Some? ==> !(v + ":agent:" <= w + ":agent:" + a.value) && AgentPrefix(w) + a.value != ConversationKey(v))
  }

  lemma PrefixOfKey(v: string, rest: string)
    ensures AgentPrefix(v) <= "conv:" + rest <==> v + ":agent:" <= rest
  {
    var p, k := AgentPrefix(v), "conv:" + rest;
    assert p == "conv:" + (v + ":agent:");
    if v + ":agent:" <= rest {
      assert rest == (v + ":agent:") + rest[|v + ":agent:"|..];
      assert k == p + rest[|v + ":agent:"|..];
    }
    if p <= k {
      assert p[5..] == v + ":agent:" && k[5..] == rest;
      assert k[..|p|][5..] == rest[..|v + ":agent:"|];
    }
  }

  lemma SparedKeys(v: string, w: string, a: Option<string>)
    ensures Spares(v, w, a) <==>
              !ClearedKey(ConversationKey(w), v) && (a.Some? ==> !ClearedKey(AgentPrefix(w) + a.value, v))
  {
    PrefixOfKey(v, w);
    if ConversationKey(w) == ConversationKey(v) {
      ConversationKeysDiffer(w, v);
    }
    if a.Some? {
      assert AgentPrefix(w) + a.value == "conv:" + (w + ":agent:" + a.value);
      PrefixOfKey(v, w + ":agent:" + a.value);
    }
  }

  ghost predicate ClearingChangesNothing(v: string, w: string, a: Option<string>) {
    forall index: Index, e: Published ::
      Delivered(ConversationCleared(index, v), e, Some(w), a) == Delivered(index, e, Some(w), a)
  }

  /** Clearing conversation v leaves every delivery for conversation w and agent a as it was, whoever is
      subscribed, exactly if the ids are so. */
  lemma ClearingSparesExactly(v: string, w: string, a: Option<string>)
    ensures ClearingChangesNothing(v, w, a) <==> Spares(v, w, a)
  {
    SparedKeys(v, w, a);
    OtherKeysStay("", "x", "");
    assert ConversationKey(v)[0] == 'c' && AgentPrefix(v)[0] == 'c' && "global"[0] == 'g';
    if Spares(v, w, a) {
      forall index: Index, e: Published
        ensures Delivered(ConversationCleared(index, v), e, Some(w), a) == Delivered(index, e, Some(w), a)
      {
        assert Targets(ConversationCleared(index, v), Some(w), a) == Targets(index, Some(w), a);
      }
    } else if ClearedKey(ConversationKey(w), v) {
      LosesItsOnlyConsumer(v, w, a, Consumer(0, Some(w), None, None));
    } else {
      LosesItsOnlyConsumer(v, w, a, Consumer(0, Some(w), a, None));
    }
  }

  predicate IsFor(c: Consumer, w: string, a: Option<string>) {
    c == Consumer(0, Some(w), None, None) || (a.Some? && c == Consumer(0, Some(w), a, None))
  }

  lemma OnlyTarget(w: string, a: Option<string>, c: Consumer)
    requires IsFor(c, w, a)
    ensures Targets(map[SubscriptionKey(c) := [c]], Some(w), a) == [c]
  {
    TargetKeysDiffer(w, if a.Some? then a.value else "");
  }

  lemma OnlyDelivered(w: string, a: Option<string>, c: Consumer, e: Published)
    requires IsFor(c, w, a)
    ensures Accepting([c], e, Some(w), a) == [c]
  {
    assert [c][..0] == [] && Accepts(c, e, Some(w), a);
  }

  lemma LosesItsOnlyConsumer(v: string, w: string, a: Option<string>, c: Consumer)
    requires IsFor(c, w, a) && ClearedKey(SubscriptionKey(c), v)
    ensures !ClearingChangesNothing(v, w, a)
  {
    var index: Index := map[SubscriptionKey(c) := [c]];
    var e := Published({});
    OnlyTarget(w, a, c);
    OnlyDelivered(w, a, c, e);
    assert Delivered(index, e, Some(w), a) == [c];
    assert ConversationCleared(index, v) == map[];
    assert Delivered(ConversationCleared(index, v), e, Some(w), a) == [];
  }

  /** For one: clearing conversation a also clears conversation a:agent:b. */
  lemma ColonsBreakClearing(c: Consumer, e: Published)
    requires c == Consumer(1, Some("a:agent:b"), None, None)
    ensures var index := Subscribed(map[], c);
            && Delivered(index, e, Some("a:agent:b"), None) == [c]
            && Delivered(ConversationCleared(index, "a"), e, Some("a:agent:b"), None) == []
  {
    var index := Subscribed(map[], c);
    assert ConversationKey("a:agent:b") == AgentPrefix("a") + "b";
    assert Targets(index, Some("a:agent:b"), None) == [c];
    assert [c][..0] == [] && Accepts(c, e, Some("a:agent:b"), None);
    assert Accepting([c], e, Some("a:agent:b"), None) == [] + [c];
    assert Targets(ConversationCleared(index, "a"), Some("a:agent:b"), None) == [];
  }
}

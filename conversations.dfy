/**
 * The conversation bookkeeping of the chat server (web_server.py): the
 * in-memory store of conversations, the history window sent to the agent, the
 * automatic title and the sorted listing. Time stamps are abstract integers.
 */
module Conversations {
  import opened Wrappers

  datatype Role = User | Assistant

  datatype ChatMessage = ChatMessage(role: Role, content: string, timestamp: int)

  datatype Conversation = Conversation(
    id: string, title: string, messages: seq<ChatMessage>, createdAt: int, updatedAt: int)

  /** The title of a conversation nobody has named yet starts with this. */
  const NewTitle := "新对话"

  /** `f"新对话 {now.strftime('%Y-%m-%d %H:%M')}"`, the formatted time given as `stamp`. */
  function FreshTitle(stamp: string): (t: string)
    ensures NewTitle <= t
  {
    NewTitle + " " + stamp
  }

  function Min(a: int, b: int): int { if a <= b then a else b }

  /**
   * The history sent with a query: for `historyTurns > 0` the last
   * `min(historyTurns, len(messages) // 2)` pairs of messages, otherwise none.
   */
  function HistoryWindow(messages: seq<ChatMessage>, historyTurns: int): (w: seq<ChatMessage>)
    ensures historyTurns <= 0 ==> w == []
    ensures historyTurns > 0 ==> |w| == 2 * Min(historyTurns, |messages| / 2)
    ensures |w| <= |messages| && w == messages[|messages| - |w|..]
  {
    if historyTurns > 0 then
      var turns := Min(historyTurns, |messages| / 2);
      if turns > 0 then messages[|messages| - turns * 2..] else []
    else []
  }

  /** The history window takes as many whole pairs as allowed: no longer even-length suffix fits. */
  lemma HistoryWindowIsLongest(messages: seq<ChatMessage>, historyTurns: int, k: nat)
    requires historyTurns > 0
    requires k % 2 == 0 && k <= |messages| && k <= 2 * historyTurns
    ensures k <= |HistoryWindow(messages, historyTurns)|
  {
  }

  /** The pydantic_ai message a stored message becomes. */
  datatype ModelMessage = UserPrompt(content: string) | ModelText(content: string)

  /** Each stored message becomes a user prompt or a model text, in order, with its content. */
  function ToModelMessages(ms: seq<ChatMessage>): (r: seq<ModelMessage>)
    ensures |r| == |ms|
    ensures forall k :: 0 <= k < |ms| ==> r[k].content == ms[k].content && (r[k].UserPrompt? <==> ms[k].role == User)
  {
    if ms == [] then [] else [ToModelMessage(ms[0])] + ToModelMessages(ms[1..])
  }

  function ToModelMessage(m: ChatMessage): ModelMessage {
    if m.role == User then UserPrompt(m.content) else ModelText(m.content)
  }

  /** The title made from a first question: at most 30 characters of it, "..." marking a cut. */
  function TitleFromQuery(query: string): (t: string)
    ensures |query| <= 30 ==> t == query
    ensures |query| > 30 ==> |t| == 33 && t[..30] == query[..30] && t[30..] == "..."
    ensures |t| <= 33
  {
    if |query| > 30 then query[..30] + "..." else query
  }

  /** The title after a stored reply: renamed from the query only on the first exchange of an unnamed conversation. */
  function AutoTitle(c: Conversation, query: string): (r: Conversation)
    ensures r == c.(title := r.title)
    ensures r.title != c.title ==> NewTitle <= c.title && |c.messages| == 2 && r.title == TitleFromQuery(query)
    ensures NewTitle <= c.title && |c.messages| == 2 ==> r.title == TitleFromQuery(query)
  {
    if NewTitle <= c.title && |c.messages| == 2 then c.(title := TitleFromQuery(query)) else c
  }

  // ---------------------------------------------------------------------------
  // The store: a dict from id to conversation, which also remembers insertion order

  /** `conversation_history`: the keys in insertion order and the entry of each key. */
  datatype Store = Store(order: seq<string>, byId: map<string, Conversation>)

  const EmptyStore := Store([], map[])

  /** Every key is listed once, and every conversation is filed under its own id. */
  ghost predicate Valid(s: Store) {
    && (forall i :: 0 <= i < |s.order| ==> s.order[i] in s.byId)
    && (forall id :: id in s.byId ==> id in s.order)
    && (forall i, j :: 0 <= i < j < |s.order| ==> s.order[i] != s.order[j])
    && (forall id :: id in s.byId ==> s.byId[id].id == id)
  }

  /** `conversation_history[c.id] = c`: a new key goes last, an existing key keeps its place. */
  function Put(s: Store, c: Conversation): (r: Store)
    requires Valid(s)
    ensures Valid(r)
    ensures r.byId == s.byId[c.id := c]
    ensures c.id in s.byId ==> r.order == s.order
    ensures c.id !in s.byId ==> r.order == s.order + [c.id]
  {
    if c.id in s.byId then Store(s.order, s.byId[c.id := c])
    else Store(s.order + [c.id], s.byId[c.id := c])
  }

  /** The keys of `order` other than `x`, in order. */
  function Without(order: seq<string>, x: string): (r: seq<string>)
    ensures forall y :: y in r <==> y in order && y != x
    ensures Distinct(order) ==> Distinct(r)
  {
    if order == [] then []
    else if order[0] == x then Without(order[1..], x)
    else
      var rest := Without(order[1..], x);
      assert forall y :: y in order[1..] ==> y in order;
      DistinctTail(order);
      [order[0]] + rest
  }

  /** No key is listed twice. */
  predicate Distinct(order: seq<string>) {
    forall i, j :: 0 <= i < j < |order| ==> order[i] != order[j]
  }

  lemma DistinctTail(order: seq<string>)
    requires order != []
    ensures Distinct(order) ==> Distinct(order[1..]) && order[0] !in order[1..]
  {
    if Distinct(order) {
      forall i, j | 0 <= i < j < |order[1..]| ensures order[1..][i] != order[1..][j] {
        assert order[1..][i] == order[i + 1] && order[1..][j] == order[j + 1];
      }
      forall k | 0 <= k < |order[1..]| ensures order[1..][k] != order[0] {
        assert order[1..][k] == order[k + 1];
      }
    }
  }

  /** `del conversation_history[id]`: exactly that key goes. */
  function Delete(s: Store, id: string): (r: Store)
    requires Valid(s)
    ensures Valid(r)
    ensures r.byId == s.byId - {id}
    ensures id !in s.byId ==> r == s
  {
    if id !in s.byId then s
    else
      var order := Without(s.order, id);
      var r := Store(order, s.byId - {id});
      assert forall i :: 0 <= i < |order| ==> order[i] in order;
      r
  }

  /** Whether a query's conversation_id names a stored conversation. */
  predicate Names(s: Store, requested: Option<string>) {
    requested.Some? && requested.value != "" && requested.value in s.byId
  }

  /** The id a query works on: the requested one if it names a stored conversation, else a fresh one. */
  function ResolvedId(s: Store, requested: Option<string>, freshId: string): string
  {
    if Names(s, requested) then requested.value else freshId
  }

  /**
   * The store after a query resolved its conversation: when the request names
   * no stored conversation a fresh unnamed one is filed under `freshId`, with
   * the class-level default time stamps.
   */
  function Resolve(s: Store, requested: Option<string>, freshId: string, stamp: string, defaultTime: int): (r: Store)
    requires Valid(s)
    ensures Valid(r)
    ensures ResolvedId(s, requested, freshId) in r.byId
    ensures Names(s, requested) ==> r == s
    ensures !Names(s, requested) ==>
      r.byId == s.byId[freshId := Conversation(freshId, FreshTitle(stamp), [], defaultTime, defaultTime)]
  {
    if Names(s, requested) then s
    else Put(s, Conversation(freshId, FreshTitle(stamp), [], defaultTime, defaultTime))
  }

  // ---------------------------------------------------------------------------
  // The listing

  /** The stored conversations in insertion order (`conversation_history.values()`). */
  function OrderedValues(s: Store): (r: seq<Conversation>)
    requires forall i :: 0 <= i < |s.order| ==> s.order[i] in s.byId
    ensures |r| == |s.order|
    ensures forall i :: 0 <= i < |r| ==> r[i] == s.byId[s.order[i]]
    decreases |s.order|
  {
    if s.order == [] then []
    else [s.byId[s.order[0]]] + OrderedValues(Store(s.order[1..], s.byId))
  }

  /** Most recently updated first. */
  predicate SortedDesc(cs: seq<Conversation>) {
    forall i, j :: 0 <= i < j < |cs| ==> cs[i].updatedAt >= cs[j].updatedAt
  }

  /** Put `c` before the first conversation updated no later than it. */
  function InsertDesc(c: Conversation, sorted: seq<Conversation>): (r: seq<Conversation>)
    requires SortedDesc(sorted)
    ensures SortedDesc(r)
    ensures multiset(r) == multiset(sorted) + multiset{c}
  {
    if sorted == [] then [c]
    else if sorted[0].updatedAt <= c.updatedAt then
      [c] + sorted
    else
      var head, tail := sorted[0], sorted[1..];
      assert sorted == [head] + tail;
      assert SortedDesc(tail) by {
        forall i, j | 0 <= i < j < |tail| ensures tail[i].updatedAt >= tail[j].updatedAt {
          assert tail[i] == sorted[i + 1] && tail[j] == sorted[j + 1];
        }
      }
      var rest := InsertDesc(c, tail);
      InsertBelow(head, c, tail, rest);
      [head] + rest
  }

  /** Prefixing `head` keeps the order when it is updated no earlier than everything after it. */
  lemma InsertBelow(head: Conversation, c: Conversation, tail: seq<Conversation>, rest: seq<Conversation>)
    requires SortedDesc([head] + tail) && SortedDesc(rest)
    requires head.updatedAt > c.updatedAt
    requires multiset(rest) == multiset(tail) + multiset{c}
    ensures SortedDesc([head] + rest)
    ensures multiset([head] + rest) == multiset([head] + tail) + multiset{c}
  {
    forall x | x in rest ensures head.updatedAt >= x.updatedAt {
      assert x in multiset(rest);
      if x != c {
        assert x in multiset(tail);
        var k :| 0 <= k < |tail| && tail[k] == x;
        var ht := [head] + tail;
        assert ht[0] == head && ht[k + 1] == x;
        assert ht[0].updatedAt >= ht[k + 1].updatedAt;
      }
    }
    var r := [head] + rest;
    forall i, j | 0 <= i < j < |r| ensures r[i].updatedAt >= r[j].updatedAt {
      if i == 0 {
        assert r[j] == rest[j - 1];
        assert rest[j - 1] in rest;
      } else {
        assert r[i] == rest[i - 1] && r[j] == rest[j - 1];
      }
    }
  }

  /** `sorted(values, key=updated_at, reverse=True)`. */
  function SortByUpdatedDesc(cs: seq<Conversation>): (r: seq<Conversation>)
    ensures SortedDesc(r)
    ensures multiset(r) == multiset(cs)
  {
    if cs == [] then []
    else
      assert cs == [cs[0]] + cs[1..];
      InsertDesc(cs[0], SortByUpdatedDesc(cs[1..]))
  }

  /** GET /api/conversations: the stored conversations, each once, most recently updated first. */
  function Listing(s: Store): (r: seq<Conversation>)
    requires Valid(s)
    ensures SortedDesc(r)
    ensures multiset(r) == multiset(OrderedValues(s))
    ensures forall c :: c in r <==> c in s.byId.Values
    ensures forall i, j :: 0 <= i < j < |r| ==> r[i] != r[j]
  {
    var vs := OrderedValues(s);
    var r := SortByUpdatedDesc(vs);
    forall c ensures c in r <==> c in s.byId.Values {
      assert c in r <==> c in multiset(vs);
      if c in s.byId.Values {
        var id :| id in s.byId && s.byId[id] == c;
        var i :| 0 <= i < |s.order| && s.order[i] == id;
        assert vs[i] == c;
      }
    }
    DistinctIds(vs, s);
    PermutationKeepsDistinct(vs, r);
    r
  }

  lemma DistinctIds(vs: seq<Conversation>, s: Store)
    requires Valid(s)
    requires |vs| == |s.order| && forall i :: 0 <= i < |vs| ==> vs[i] == s.byId[s.order[i]]
    ensures forall i, j :: 0 <= i < j < |vs| ==> vs[i] != vs[j]
  {
    forall i, j | 0 <= i < j < |vs| ensures vs[i] != vs[j] {
      assert vs[i].id == s.order[i] && vs[j].id == s.order[j];
    }
  }

  /** A sequence without repeats has a multiplicity of at most one for each element. */
  lemma {:induction false} DistinctMultiplicity(xs: seq<Conversation>, x: Conversation)
    requires forall i, j :: 0 <= i < j < |xs| ==> xs[i] != xs[j]
    ensures multiset(xs)[x] <= 1
  {
    if xs != [] {
      assert xs == [xs[0]] + xs[1..];
      DistinctMultiplicity(xs[1..], x);
      if x == xs[0] {
        assert x !in xs[1..];
      }
    }
  }

  /** Two equal positions give a multiplicity of at least two. */
  lemma TwoCopies(ys: seq<Conversation>, i: nat, j: nat)
    requires i < j < |ys| && ys[i] == ys[j]
    ensures multiset(ys)[ys[i]] >= 2
  {
    assert ys == ys[..i] + [ys[i]] + ys[i + 1..j] + [ys[j]] + ys[j + 1..];
  }

  lemma PermutationKeepsDistinct(xs: seq<Conversation>, ys: seq<Conversation>)
    requires forall i, j :: 0 <= i < j < |xs| ==> xs[i] != xs[j]
    requires multiset(xs) == multiset(ys)
    ensures forall i, j :: 0 <= i < j < |ys| ==> ys[i] != ys[j]
  {
    forall i, j | 0 <= i < j < |ys| ensures ys[i] != ys[j] {
      if ys[i] == ys[j] {
        TwoCopies(ys, i, j);
        DistinctMultiplicity(xs, ys[i]);
        assert false;
      }
    }
  }
}

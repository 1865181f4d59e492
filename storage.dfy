/**
 * The in-memory conversation store (`MemStorage`): two maps kept in step, conversation id to
 * conversation record and conversation id to that conversation's ordered message list, plus a
 * user table whose ids come from a counter.
 */
module Storage {
  import opened Shared

  /** A stored message; `id` is its 1-based position in its conversation. */
  datatype Message = Message(id: nat, conversationId: string, content: string, sender: Sender, timestamp: Time)

  /** What the conversation map holds: a conversation without its messages. */
  datatype ConversationRecord = ConversationRecord(
    id: string, title: string, summary: string, insights: Option<Insights>, createdAt: Time, updatedAt: Time)

  /** A conversation as the store hands it out: the record with its messages attached. */
  datatype Conversation = Conversation(
    id: string, title: string, summary: string, insights: Option<Insights>, createdAt: Time, updatedAt: Time,
    messages: seq<Message>)

  /** The argument of `createConversation`; an absent or empty `id` means "generate one". */
  datatype InsertConversation = InsertConversation(id: Option<string>, title: string, summary: string, insights: Option<Insights>)

  /** The argument of `updateConversation`: `None` leaves a field alone, `Some(v)` sets it to `v`. */
  datatype UpdateConversation = UpdateConversation(title: Option<string>, summary: Option<string>, insights: Option<Option<Insights>>)

  /** The argument of `addMessage`. */
  datatype InsertMessage = InsertMessage(content: string, sender: Sender)

  datatype StoredUser = StoredUser(id: nat, username: string)

  datatype StoreError = NotFound(id: string)

  function Attach(r: ConversationRecord, msgs: seq<Message>): (c: Conversation)
  {
    Conversation(r.id, r.title, r.summary, r.insights, r.createdAt, r.updatedAt, msgs)
  }

  /** `messages.get(id) || []` */
  function MessagesOf(messages: map<string, seq<Message>>, id: string): seq<Message>
  {
    if id in messages then messages[id] else []
  }

  /** Message `i` of a conversation carries id `i + 1` and names that conversation. */
  ghost predicate SequentialIds(cid: string, list: seq<Message>)
  {
    forall i | 0 <= i < |list| :: list[i].id == i + 1 && list[i].conversationId == cid
  }

  ghost predicate Distinct<T>(s: seq<T>)
  {
    forall i, j | 0 <= i < j < |s| :: s[i] != s[j]
  }

  /** The id `createConversation` stores under: the supplied one when truthy, otherwise a fresh one. */
  function ChosenId(input: InsertConversation, freshId: string): (id: string)
    ensures Truthy(input.id) ==> id == input.id.value
    ensures !Truthy(input.id) ==> id == freshId
  {
    OrElse(input.id, freshId)
  }

  /** The record after `updateConversation`: supplied fields replaced, `updatedAt` refreshed. */
  function Patched(r: ConversationRecord, u: UpdateConversation, now: Time): (p: ConversationRecord)
    ensures p.id == r.id && p.createdAt == r.createdAt && p.updatedAt == now
    ensures p.title == (if u.title.Some? then u.title.value else r.title)
    ensures p.summary == (if u.summary.Some? then u.summary.value else r.summary)
    ensures p.insights == (if u.insights.Some? then u.insights.value else r.insights)
    ensures u == UpdateConversation(None, None, None) ==> p == r.(updatedAt := now)
  {
    ConversationRecord(
      r.id,
      if u.title.Some? then u.title.value else r.title,
      if u.summary.Some? then u.summary.value else r.summary,
      if u.insights.Some? then u.insights.value else r.insights,
      r.createdAt,
      now)
  }

  /** Each listed id's record with its messages, in the order given. */
  function Listed(records: map<string, ConversationRecord>, messages: map<string, seq<Message>>, ids: seq<string>): (s: seq<Conversation>)
    requires forall i | 0 <= i < |ids| :: ids[i] in records
    ensures |s| == |ids|
  {
    seq(|ids|, i requires 0 <= i < |ids| => Attach(records[ids[i]], MessagesOf(messages, ids[i])))
  }

  lemma ListedFacts(records: map<string, ConversationRecord>, messages: map<string, seq<Message>>, ids: seq<string>)
    requires forall i | 0 <= i < |ids| :: ids[i] in records && records[ids[i]].id == ids[i]
    requires Distinct(ids)
    ensures var s := Listed(records, messages, ids);
      && Distinct(s)
      && (forall i | 0 <= i < |s| :: s[i].id == ids[i])
      && (forall x | x in s :: x.id in records && x == Attach(records[x.id], MessagesOf(messages, x.id)))
  {
  }

  /** Any reordering of the listing holds each listed id's current conversation exactly once. */
  lemma ReorderedListingFacts(records: map<string, ConversationRecord>, messages: map<string, seq<Message>>, ids: seq<string>,
                              r: seq<Conversation>)
    requires forall i | 0 <= i < |ids| :: ids[i] in records && records[ids[i]].id == ids[i]
    requires Distinct(ids)
    requires multiset(r) == multiset(Listed(records, messages, ids))
    ensures forall i | 0 <= i < |r| :: r[i].id in records && r[i] == Attach(records[r[i].id], MessagesOf(messages, r[i].id))
    ensures forall k | 0 <= k < |ids| :: HasId(r, ids[k])
    ensures forall i, j | 0 <= i < j < |r| :: r[i].id != r[j].id
  {
    var listed := Listed(records, messages, ids);
    ListedFacts(records, messages, ids);
    PermutationKeepsDistinct(listed, r);
    SameElements(listed, r);
    forall i | 0 <= i < |r| ensures r[i].id in records && r[i] == Attach(records[r[i].id], MessagesOf(messages, r[i].id)) {
      assert r[i] in listed;
    }
    forall k | 0 <= k < |ids| ensures HasId(r, ids[k]) {
      assert listed[k] in r;
      var i :| 0 <= i < |r| && r[i] == listed[k];
    }
    IdsDetermineEntries(records, messages, r);
  }

  /** Some entry of `r` has the id. */
  ghost predicate HasId(r: seq<Conversation>, id: string)
  {
    exists i :: 0 <= i < |r| && r[i].id == id
  }

  /** In a duplicate-free list of stored conversations, no id appears twice. */
  lemma IdsDetermineEntries(records: map<string, ConversationRecord>, messages: map<string, seq<Message>>, r: seq<Conversation>)
    requires forall i | 0 <= i < |r| :: r[i].id in records && r[i] == Attach(records[r[i].id], MessagesOf(messages, r[i].id))
    requires Distinct(r)
    ensures forall i, j | 0 <= i < j < |r| :: r[i].id != r[j].id
  {
  }

  lemma {:induction false} AtMostOnce<T>(s: seq<T>, x: T)
    requires Distinct(s)
    ensures multiset(s)[x] <= 1
  {
    if s != [] {
      AtMostOnce(s[1..], x);
      assert s == [s[0]] + s[1..];
      if s[0] == x {
        assert x !in s[1..];
      }
    }
  }

  lemma SameElements<T>(a: seq<T>, b: seq<T>)
    requires multiset(a) == multiset(b)
    ensures forall x :: x in a <==> x in b
  {
    forall x ensures x in a <==> x in b {
      assert x in a <==> x in multiset(a);
      assert x in b <==> x in multiset(b);
    }
  }

  lemma PermutationKeepsDistinct<T>(a: seq<T>, b: seq<T>)
    requires Distinct(a) && multiset(a) == multiset(b)
    ensures Distinct(b)
  {
    forall i, j | 0 <= i < j < |b| ensures b[i] != b[j] {
      if b[i] == b[j] {
        var x := b[i];
        assert b == b[..j] + [b[j]] + b[j + 1..];
        assert x in b[..j];
        assert multiset(b)[x] >= 2;
        AtMostOnce(a, x);
        assert false;
      }
    }
  }

  // ---------------------------------------------------------------------------------------------
  // Ordering of `getConversations`: newest first, ties kept in map order (a stable sort).

  ghost predicate NewestFirst(s: seq<Conversation>)
  {
    forall i, j | 0 <= i < j < |s| :: s[i].createdAt >= s[j].createdAt
  }

  /** The conversations of `s` created at time `t`, in the order of `s`. */
  function CreatedAt(s: seq<Conversation>, t: Time): seq<Conversation>
  {
    if s == [] then [] else Keep(s[0], t) + CreatedAt(s[1..], t)
  }

  function Keep(c: Conversation, t: Time): seq<Conversation>
  {
    if c.createdAt == t then [c] else []
  }

  lemma CreatedAtCons(c: Conversation, s: seq<Conversation>, t: Time)
    ensures CreatedAt([c] + s, t) == Keep(c, t) + CreatedAt(s, t)
  {
    assert ([c] + s)[1..] == s;
  }

  /** Puts `c` before the first element not newer than it. */
  function Insert(c: Conversation, s: seq<Conversation>): (r: seq<Conversation>)
  {
    if s == [] then [c]
    else if s[0].createdAt <= c.createdAt then [c] + s
    else [s[0]] + Insert(c, s[1..])
  }

  /** Putting an element no newer than anything after it in front keeps a list newest-first. */
  lemma ConsKeepsOrder(h: Conversation, s: seq<Conversation>)
    requires NewestFirst(s)
    requires forall k | 0 <= k < |s| :: h.createdAt >= s[k].createdAt
    ensures NewestFirst([h] + s)
  {
    var r := [h] + s;
    forall i, j | 0 <= i < j < |r| ensures r[i].createdAt >= r[j].createdAt {
      assert r[j] == s[j - 1];
      if i > 0 {
        assert r[i] == s[i - 1];
      }
    }
  }

  lemma TailKeepsOrder(s: seq<Conversation>)
    requires NewestFirst(s) && s != []
    ensures NewestFirst(s[1..])
    ensures forall k | 0 <= k < |s| - 1 :: s[0].createdAt >= s[1..][k].createdAt
  {
    var tail := s[1..];
    forall i, j | 0 <= i < j < |tail| ensures tail[i].createdAt >= tail[j].createdAt {
      assert tail[i] == s[i + 1] && tail[j] == s[j + 1];
    }
    forall k | 0 <= k < |tail| ensures s[0].createdAt >= tail[k].createdAt {
      assert tail[k] == s[k + 1];
    }
  }

  lemma {:induction false} InsertKeepsOrder(c: Conversation, s: seq<Conversation>)
    requires NewestFirst(s)
    ensures NewestFirst(Insert(c, s))
    ensures multiset(Insert(c, s)) == multiset(s) + multiset{c}
  {
    if s == [] {
    } else if s[0].createdAt <= c.createdAt {
      TailKeepsOrder(s);
      forall k | 0 <= k < |s| ensures c.createdAt >= s[k].createdAt {
        if k > 0 {
          assert s[k] == s[1..][k - 1];
        }
      }
      ConsKeepsOrder(c, s);
    } else {
      var tail := s[1..];
      TailKeepsOrder(s);
      InsertKeepsOrder(c, tail);
      var r := Insert(c, tail);
      assert s == [s[0]] + tail;
      forall k | 0 <= k < |r| ensures s[0].createdAt >= r[k].createdAt {
        assert r[k] in multiset(r);
        if r[k] != c {
          assert r[k] in tail;
        }
      }
      ConsKeepsOrder(s[0], r);
    }
  }

  /** The comparator sort of `getConversations`, as an insertion sort. */
  function SortNewestFirst(s: seq<Conversation>): (r: seq<Conversation>)
    ensures NewestFirst(r)
    ensures multiset(r) == multiset(s)
  {
    if s == [] then []
    else
      InsertKeepsOrder(s[0], SortNewestFirst(s[1..]));
      assert s == [s[0]] + s[1..];
      Insert(s[0], SortNewestFirst(s[1..]))
  }

  lemma {:induction false} InsertStable(c: Conversation, s: seq<Conversation>, t: Time)
    ensures CreatedAt(Insert(c, s), t) == Keep(c, t) + CreatedAt(s, t)
  {
    if s == [] {
      CreatedAtCons(c, [], t);
    } else if s[0].createdAt <= c.createdAt {
      CreatedAtCons(c, s, t);
    } else {
      var rest := Insert(c, s[1..]);
      InsertStable(c, s[1..], t);
      CreatedAtCons(s[0], rest, t);
      assert Keep(s[0], t) == [] || Keep(c, t) == [];
      calc {
        CreatedAt(Insert(c, s), t);
        Keep(s[0], t) + (Keep(c, t) + CreatedAt(s[1..], t));
        Keep(c, t) + (Keep(s[0], t) + CreatedAt(s[1..], t));
        Keep(c, t) + CreatedAt(s, t);
      }
    }
  }

  /** Conversations created at the same moment keep their relative order. */
  lemma {:induction false} SortIsStable(s: seq<Conversation>, t: Time)
    ensures CreatedAt(SortNewestFirst(s), t) == CreatedAt(s, t)
  {
    if s != [] {
      SortIsStable(s[1..], t);
      InsertStable(s[0], SortNewestFirst(s[1..]), t);
    }
  }

  // ---------------------------------------------------------------------------------------------

  /** The two tables and the iteration order describe the same conversations. */
  ghost predicate TablesAgree(conversations: map<string, ConversationRecord>, messages: map<string, seq<Message>>, order: seq<string>)
  {
    && conversations.Keys == messages.Keys
    && (forall id | id in conversations :: conversations[id].id == id)
    && (forall id | id in messages :: SequentialIds(id, messages[id]))
    && Distinct(order)
    && (forall id :: id in order <==> id in conversations)
  }

  /** Every user id was handed out by the counter and names its user. */
  ghost predicate UsersNumbered(users: map<nat, StoredUser>, currentId: nat)
  {
    currentId >= 1 && forall k | k in users :: k < currentId && users[k].id == k
  }

  /** Each record was created no later than it was last touched, and touched no later than `now`. */
  ghost predicate StampsBefore(conversations: map<string, ConversationRecord>, now: Time)
  {
    forall id | id in conversations :: conversations[id].createdAt <= conversations[id].updatedAt <= now
  }

  lemma PutKeepsAgreement(conversations: map<string, ConversationRecord>, messages: map<string, seq<Message>>, order: seq<string>,
                          id: string, record: ConversationRecord)
    requires TablesAgree(conversations, messages, order) && record.id == id
    ensures TablesAgree(conversations[id := record], messages[id := []], if id in conversations then order else order + [id])
  {
    if id !in conversations {
      ConsDistinct(id, []);
      var o := order + [id];
      forall i, j | 0 <= i < j < |o| ensures o[i] != o[j] {
        if j == |order| {
          assert o[i] in order;
        }
      }
    }
  }

  lemma AppendKeepsAgreement(conversations: map<string, ConversationRecord>, messages: map<string, seq<Message>>, order: seq<string>,
                             id: string, record: ConversationRecord, m: Message)
    requires TablesAgree(conversations, messages, order) && id in conversations && record.id == id
    requires m.id == |messages[id]| + 1 && m.conversationId == id
    ensures TablesAgree(conversations[id := record], messages[id := messages[id] + [m]], order)
  {
    assert SequentialIds(id, messages[id]);
  }

  lemma PatchKeepsAgreement(conversations: map<string, ConversationRecord>, messages: map<string, seq<Message>>, order: seq<string>,
                            id: string, record: ConversationRecord)
    requires TablesAgree(conversations, messages, order) && id in conversations && record.id == id
    ensures TablesAgree(conversations[id := record], messages, order)
  {
  }

  lemma RemoveKeepsAgreement(conversations: map<string, ConversationRecord>, messages: map<string, seq<Message>>, order: seq<string>, id: string)
    requires TablesAgree(conversations, messages, order)
    ensures TablesAgree(conversations - {id}, messages - {id}, Without(order, id))
  {
    WithoutDistinct(order, id);
  }

  lemma RemoveAbsent(conversations: map<string, ConversationRecord>, messages: map<string, seq<Message>>, order: seq<string>, id: string)
    requires TablesAgree(conversations, messages, order) && id !in conversations
    ensures conversations - {id} == conversations && messages - {id} == messages && Without(order, id) == order
  {
    WithoutAbsent(order, id);
    assert conversations - {id} == conversations;
    assert messages - {id} == messages;
  }

  lemma PutKeepsStamps(conversations: map<string, ConversationRecord>, id: string, record: ConversationRecord, now: Time)
    requires record.createdAt <= record.updatedAt <= now
    ensures StampsBefore(conversations, now) ==> StampsBefore(conversations[id := record], now)
  {
  }

  class MemStorage {
    var users: map<nat, StoredUser>
    var conversations: map<string, ConversationRecord>
    var messages: map<string, seq<Message>>
    /** The iteration order of the conversation map: keys in first-insertion order. */
    var insertionOrder: seq<string>
    var currentId: nat

    ghost predicate Valid()
      reads this
    {
      TablesAgree(conversations, messages, insertionOrder) && UsersNumbered(users, currentId)
    }

    /** Every record was created no later than it was last touched, and touched no later than `now`. */
    ghost predicate StampsOrdered(now: Time)
      reads this
    {
      StampsBefore(conversations, now)
    }

    constructor ()
      ensures Valid()
      ensures users == map[] && conversations == map[] && messages == map[]
      ensures insertionOrder == [] && currentId == 1
    {
      users := map[];
      conversations := map[];
      messages := map[];
      insertionOrder := [];
      currentId := 1;
    }

    /** `createUser`: the next counter value becomes the new user's id. */
    method CreateUser(username: string) returns (u: StoredUser)
      requires Valid()
      modifies this
      ensures Valid()
      ensures u == StoredUser(old(currentId), username) && currentId == old(currentId) + 1
      ensures u.id !in old(users) && users == old(users)[u.id := u]
      ensures conversations == old(conversations) && messages == old(messages)
      ensures insertionOrder == old(insertionOrder)
    {
      var id := currentId;
      currentId := currentId + 1;
      u := StoredUser(id, username);
      users := users[id := u];
    }

    /** `getConversation`: the record with its messages, or nothing for an unknown id. */
    function GetConversation(id: string): (r: Option<Conversation>)
      reads this
      requires Valid()
      ensures r.None? <==> id !in conversations
      ensures r.Some? ==> r.value.id == id && r.value.messages == messages[id]
      ensures r.Some? ==> Attach(conversations[id], messages[id]) == r.value
    {
      if id !in conversations then None
      else Some(Attach(conversations[id], MessagesOf(messages, id)))
    }

    /** `getConversations`: every stored conversation with its messages, once each, newest first. */
    function GetConversations(): (r: seq<Conversation>)
      reads this
      requires Valid()
      ensures NewestFirst(r)
      ensures forall i | 0 <= i < |r| :: r[i].id in conversations && GetConversation(r[i].id) == Some(r[i])
      ensures forall id | id in conversations :: exists i :: 0 <= i < |r| && r[i].id == id
      ensures forall i, j | 0 <= i < j < |r| :: r[i].id != r[j].id
    {
      var listed := Listed(conversations, messages, insertionOrder);
      var sorted := SortNewestFirst(listed);
      ReorderedListingFacts(conversations, messages, insertionOrder, sorted);
      sorted
    }

    /** `createConversation`: store a fresh record with no messages under the chosen id. */
    method CreateConversation(input: InsertConversation, freshId: string, now: Time) returns (c: Conversation)
      requires Valid()
      modifies this
      ensures Valid()
      ensures c == Conversation(ChosenId(input, freshId), input.title, input.summary, input.insights, now, now, [])
      ensures conversations == old(conversations)[c.id := ConversationRecord(c.id, c.title, c.summary, c.insights, now, now)]
      ensures messages == old(messages)[c.id := []]
      ensures insertionOrder == if c.id in old(conversations) then old(insertionOrder) else old(insertionOrder) + [c.id]
      ensures users == old(users) && currentId == old(currentId)
      ensures old(StampsOrdered(now)) ==> StampsOrdered(now)
    {
      var id := ChosenId(input, freshId);
      var record := ConversationRecord(id, input.title, input.summary, input.insights, now, now);
      PutKeepsAgreement(conversations, messages, insertionOrder, id, record);
      PutKeepsStamps(conversations, id, record, now);
      var order := if id in conversations then insertionOrder else insertionOrder + [id];
      conversations, messages, insertionOrder := conversations[id := record], messages[id := []], order;
      assert TablesAgree(conversations, messages, insertionOrder);
      c := Attach(record, []);
    }

    /** `updateConversation`: fails on an unknown id; otherwise replaces the supplied fields. */
    method UpdateConversation(id: string, updates: UpdateConversation, now: Time) returns (r: Result<Conversation, StoreError>)
      requires Valid()
      modifies this
      ensures Valid()
      ensures id !in old(conversations) ==> r == Failure(NotFound(id)) && unchanged(this)
      ensures id in old(conversations) ==>
        && conversations == old(conversations)[id := Patched(old(conversations)[id], updates, now)]
        && r == Success(Attach(conversations[id], messages[id]))
      ensures messages == old(messages) && insertionOrder == old(insertionOrder)
      ensures users == old(users) && currentId == old(currentId)
      ensures old(StampsOrdered(now)) ==> StampsOrdered(now)
    {
      if id !in conversations {
        return Failure(NotFound(id));
      }
      var updated := Patched(conversations[id], updates, now);
      PatchKeepsAgreement(conversations, messages, insertionOrder, id, updated);
      if StampsOrdered(now) {
        assert StampsBefore(conversations, now);
        PutKeepsStamps(conversations, id, updated, now);
      }
      conversations := conversations[id := updated];
      r := Success(Attach(updated, MessagesOf(messages, id)));
    }

    /** `deleteConversation`: drop the id from both maps; nothing happens for an unknown id. */
    method DeleteConversation(id: string)
      requires Valid()
      modifies this
      ensures Valid()
      ensures conversations == old(conversations) - {id} && messages == old(messages) - {id}
      ensures insertionOrder == Without(old(insertionOrder), id)
      ensures id !in old(conversations) ==> unchanged(this)
      ensures users == old(users) && currentId == old(currentId)
    {
      RemoveKeepsAgreement(conversations, messages, insertionOrder, id);
      if id !in conversations {
        RemoveAbsent(conversations, messages, insertionOrder, id);
      }
      conversations, messages, insertionOrder := conversations - {id}, messages - {id}, Without(insertionOrder, id);
      assert TablesAgree(conversations, messages, insertionOrder);
    }

    /** `addMessage`: fails on an unknown id; otherwise appends a message numbered after the last. */
    method AddMessage(conversationId: string, message: InsertMessage, now: Time) returns (r: Result<Message, StoreError>)
      requires Valid()
      modifies this
      ensures Valid()
      ensures conversationId !in old(conversations) ==> r == Failure(NotFound(conversationId)) && unchanged(this)
      ensures conversationId in old(conversations) ==>
        && r == Success(Message(|old(messages)[conversationId]| + 1, conversationId, message.content, message.sender, now))
        && messages == old(messages)[conversationId := old(messages)[conversationId] + [r.value]]
        && conversations == old(conversations)[conversationId := old(conversations)[conversationId].(updatedAt := now)]
      ensures insertionOrder == old(insertionOrder)
      ensures users == old(users) && currentId == old(currentId)
      ensures old(StampsOrdered(now)) ==> StampsOrdered(now)
    {
      if conversationId !in conversations {
        return Failure(NotFound(conversationId));
      }
      var record := conversations[conversationId];
      var list := MessagesOf(messages, conversationId);
      var m := Message(|list| + 1, conversationId, message.content, message.sender, now);
      AppendKeepsAgreement(conversations, messages, insertionOrder, conversationId, record.(updatedAt := now), m);
      if StampsOrdered(now) {
        assert StampsBefore(conversations, now);
        assert record.createdAt <= record.updatedAt <= now;
        PutKeepsStamps(conversations, conversationId, record.(updatedAt := now), now);
      }
      conversations := conversations[conversationId := record.(updatedAt := now)];
      messages := messages[conversationId := list + [m]];
      r := Success(m);
    }
  }

  // ---------------------------------------------------------------------------------------------
  // Removing a key from the insertion order (Map.prototype.delete).

  function Without(s: seq<string>, x: string): (r: seq<string>)
  {
    if s == [] then []
    else (if s[0] == x then [] else [s[0]]) + Without(s[1..], x)
  }

  lemma ConsDistinct<T>(a: T, rest: seq<T>)
    requires Distinct(rest) && a !in rest
    ensures Distinct([a] + rest)
  {
    var r := [a] + rest;
    forall i, j | 0 <= i < j < |r| ensures r[i] != r[j] {
      assert r[j] == rest[j - 1];
      if i > 0 {
        assert r[i] == rest[i - 1];
      }
    }
  }

  lemma {:induction false} WithoutDistinct(s: seq<string>, x: string)
    requires Distinct(s)
    ensures Distinct(Without(s, x))
    ensures forall y :: y in Without(s, x) <==> y in s && y != x
  {
    if s != [] {
      var tail := s[1..];
      assert Distinct(tail) by {
        forall i, j | 0 <= i < j < |tail| ensures tail[i] != tail[j] {
          assert tail[i] == s[i + 1] && tail[j] == s[j + 1];
        }
      }
      WithoutDistinct(tail, x);
      var rest := Without(tail, x);
      assert forall y :: y in s <==> y == s[0] || y in tail by {
        assert s == [s[0]] + tail;
      }
      assert s[0] !in tail;
      if s[0] != x {
        ConsDistinct(s[0], rest);
      } else {
        assert [] + rest == rest;
      }
    }
  }

  lemma {:induction false} WithoutAbsent(s: seq<string>, x: string)
    requires x !in s
    ensures Without(s, x) == s
  {
    if s != [] {
      WithoutAbsent(s[1..], x);
      assert s == [s[0]] + s[1..];
    }
  }
}

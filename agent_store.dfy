/**
 * The in-memory conversation store: a table keyed by conversation id, with eviction of
 * expired entries on read and a capped message history. The clock is the `now`
 * parameter (seconds) of each operation; the random id of a new conversation is the
 * `freshId` parameter.
 */
module AgentStore {
  import opened Common
  import opened AgentState

  const DefaultTtlSeconds := 3 * 60 * 60
  const DefaultMessageHistoryLimit := 10

  datatype Entry = Entry(conversationId: string, state: ConversationState, createdAt: int, updatedAt: int)

  /** `conversation_id or str(uuid4())`: a falsy requested id (None or "") gives the fresh id. */
  function ChooseId(requested: Option<string>, freshId: string): (id: string)
    ensures StrTruthy(requested) ==> id == requested.value
    ensures !StrTruthy(requested) ==> id == freshId
  {
    if StrTruthy(requested) then requested.value else freshId
  }

  /** `initial_state or create_initial_state()`. */
  function ChooseState(initial: Option<ConversationState>): (s: ConversationState)
    ensures initial.Some? ==> s == initial.value
    ensures initial.None? ==> s == InitialState() && s.messages == [] && s.format.None?
  {
    if initial.Some? then initial.value else InitialState()
  }

  function NewEntry(id: string, initial: Option<ConversationState>, now: int): (e: Entry)
    ensures e.conversationId == id && e.state == ChooseState(initial)
    ensures e.createdAt == now && e.updatedAt == now
  {
    Entry(id, ChooseState(initial), now, now)
  }

  /** Expiry is measured from creation only. */
  predicate IsExpired(e: Entry, ttlSeconds: int, now: int)
  {
    now - e.createdAt > ttlSeconds
  }

  /** What a read returns: the entry if present and not expired. */
  function Lookup(entries: map<string, Entry>, id: string, ttlSeconds: int, now: int): (r: Option<Entry>)
    ensures r.Some? <==> id in entries && !IsExpired(entries[id], ttlSeconds, now)
    ensures r.Some? ==> r.value == entries[id]
  {
    if id in entries && !IsExpired(entries[id], ttlSeconds, now) then Some(entries[id]) else None
  }

  /** The table after a read: an expired entry under `id` is removed, nothing else changes. */
  function AfterRead(entries: map<string, Entry>, id: string, ttlSeconds: int, now: int): (m: map<string, Entry>)
    ensures id in entries && IsExpired(entries[id], ttlSeconds, now) ==> m == entries - {id}
    ensures !(id in entries && IsExpired(entries[id], ttlSeconds, now)) ==> m == entries
    ensures id in m ==> Lookup(m, id, ttlSeconds, now) == Lookup(entries, id, ttlSeconds, now)
    ensures forall k :: k in m ==> k in entries && m[k] == entries[k]
    ensures forall k :: k in entries && k != id ==> k in m
  {
    if id in entries && IsExpired(entries[id], ttlSeconds, now) then entries - {id} else entries
  }

  /** `msgs[-limit:]` when the history is longer than the limit, using Python slicing. */
  function CapHistory(h: seq<Message>, limit: int): (r: seq<Message>)
    ensures |r| <= |h| && r == h[|h| - |r|..]
    ensures |h| <= limit ==> r == h
    ensures limit >= 1 ==> |r| <= limit
    ensures limit >= 1 && |h| > limit ==> |r| == limit
    ensures limit == 0 ==> r == h
  {
    if |h| > limit then PyDrop(h, -limit) else h
  }

  /** The entry after `update`: state keys overwritten, messages appended and capped, updated_at set. */
  function UpdatedEntry(e: Entry, u: StateUpdate, msgs: seq<Message>, limit: int, now: int): (r: Entry)
    ensures r.conversationId == e.conversationId && r.createdAt == e.createdAt && r.updatedAt == now
    ensures msgs == [] ==> r.state == Apply(e.state, u)
    ensures msgs != [] ==> r.state == Apply(e.state, u).(messages := CapHistory(Apply(e.state, u).messages + msgs, limit))
  {
    var s1 := if IsEmptyUpdate(u) then e.state else Apply(e.state, u);
    var s2 := if msgs == [] then s1 else s1.(messages := CapHistory(s1.messages + msgs, limit));
    Entry(e.conversationId, s2, e.createdAt, now)
  }

  /** Updates never extend a conversation's life: only creation time decides expiry. */
  lemma UpdateKeepsExpiry(e: Entry, u: StateUpdate, msgs: seq<Message>, limit: int, now: int, ttlSeconds: int, later: int)
    ensures IsExpired(UpdatedEntry(e, u, msgs, limit, now), ttlSeconds, later) == IsExpired(e, ttlSeconds, later)
  {
  }

  /** After an update that carries messages, the history is the capped suffix of old ++ new. */
  lemma UpdateCapsHistory(e: Entry, u: StateUpdate, msgs: seq<Message>, limit: int, now: int)
    requires msgs != [] && limit >= 1 && u.messages.None?
    ensures var h := UpdatedEntry(e, u, msgs, limit, now).state.messages;
      |h| <= limit && h == (e.state.messages + msgs)[|e.state.messages + msgs| - |h|..]
  {
  }

  /** A read right after creation finds the new entry, with its initial state, while it is young enough. */
  lemma ReadAfterCreate(entries: map<string, Entry>, id: string, now: int, later: int, ttlSeconds: int)
    requires later - now <= ttlSeconds
    ensures Lookup(entries[id := NewEntry(id, None, now)], id, ttlSeconds, later)
      == Some(Entry(id, InitialState(), now, now))
  {
  }

  /** Every entry is filed under its own conversation id. */
  ghost predicate WellKeyed(entries: map<string, Entry>)
  {
    forall id | id in entries :: entries[id].conversationId == id
  }

  class ConversationStore {
    const ttlSeconds: int
    const messageHistoryLimit: int
    var entries: map<string, Entry>

    ghost predicate Valid()
      reads this
    {
      WellKeyed(entries)
    }

    constructor (ttlSeconds: int, messageHistoryLimit: int)
      ensures Valid() && entries == map[]
      ensures this.ttlSeconds == ttlSeconds && this.messageHistoryLimit == messageHistoryLimit
    {
      this.ttlSeconds := ttlSeconds;
      this.messageHistoryLimit := messageHistoryLimit;
      entries := map[];
    }

    /** Stores a new entry under the requested id (or the fresh one), replacing any prior entry. */
    method Create(conversationId: Option<string>, initialState: Option<ConversationState>, now: int, freshId: string)
      returns (e: Entry)
      requires Valid()
      modifies this
      ensures Valid()
      ensures e == NewEntry(ChooseId(conversationId, freshId), initialState, now)
      ensures entries == old(entries)[e.conversationId := e]
    {
      var cid := ChooseId(conversationId, freshId);
      var state := ChooseState(initialState);
      e := Entry(cid, state, now, now);
      entries := entries[cid := e];
    }

    method IsExpiredEntry(e: Entry, now: int) returns (b: bool)
      ensures b == IsExpired(e, ttlSeconds, now)
    {
      b := now - e.createdAt > ttlSeconds;
    }

    /** Returns the live entry; an expired one is evicted and reported missing. */
    method Get(id: string, now: int) returns (r: Option<Entry>)
      requires Valid()
      modifies this
      ensures Valid()
      ensures r == Lookup(old(entries), id, ttlSeconds, now)
      ensures entries == AfterRead(old(entries), id, ttlSeconds, now)
    {
      if id !in entries {
        return None;
      }
      var entry := entries[id];
      var expired := IsExpiredEntry(entry, now);
      if expired {
        entries := entries - {id};
        return None;
      }
      r := Some(entry);
    }

    /**
     * Applies the state updates, appends the messages and caps the history. A missing or
     * expired id yields None and changes nothing except the eviction a read performs.
     */
    method Update(id: string, updates: StateUpdate, messages: seq<Message>, now: int) returns (r: Option<Entry>)
      requires Valid()
      modifies this
      ensures Valid()
      ensures Lookup(old(entries), id, ttlSeconds, now).None? ==>
        r.None? && entries == AfterRead(old(entries), id, ttlSeconds, now)
      ensures Lookup(old(entries), id, ttlSeconds, now).Some? ==>
        r == Some(UpdatedEntry(old(entries)[id], updates, messages, messageHistoryLimit, now))
        && entries == old(entries)[id := r.value]
    {
      var found := Get(id, now);
      if found.None? {
        return None;
      }
      var entry := found.value;
      var state := entry.state;
      if !IsEmptyUpdate(updates) {
        state := Apply(state, updates);
      }
      if messages != [] {
        var history := state.messages + messages;
        if |history| > messageHistoryLimit {
          history := PyDrop(history, -messageHistoryLimit);
        }
        state := state.(messages := history);
      }
      var updated := Entry(entry.conversationId, state, entry.createdAt, now);
      entries := entries[id := updated];
      r := Some(updated);
    }

    /** `get(id) is not None`, with the same eviction. */
    method Exists(id: string, now: int) returns (b: bool)
      requires Valid()
      modifies this
      ensures Valid()
      ensures b <==> Lookup(old(entries), id, ttlSeconds, now).Some?
      ensures entries == AfterRead(old(entries), id, ttlSeconds, now)
    {
      var r := Get(id, now);
      b := r.Some?;
    }
  }

  /** Once a read has evicted an expired entry, no later read finds it. */
  lemma EvictedStaysMissing(entries: map<string, Entry>, id: string, ttlSeconds: int, now: int, later: int)
    requires id in entries && IsExpired(entries[id], ttlSeconds, now)
    ensures Lookup(AfterRead(entries, id, ttlSeconds, now), id, ttlSeconds, later).None?
  {
  }
}

/** The in-memory session store: a map from session id to the ordered list of turns of
    that conversation.  Reading an unknown id yields an empty history without creating
    the session; appending creates it implicitly; clearing empties it but keeps the id. */
module Sessions {
  import opened Common

  /** One `{role, text}` record of a conversation.  The store accepts any record, so both
      keys may be missing; the backend itself always stores both. */
  datatype Turn = Turn(role: Option<string>, text: Option<string>)

  function UserTurn(text: string): Turn {
    Turn(Some("user"), Some(text))
  }

  function AssistantTurn(text: string): Turn {
    Turn(Some("assistant"), Some(text))
  }

  type Store = map<string, seq<Turn>>

  // ---------------------------------------------------------------------------
  // The store as a value: the meaning of each operation
  // ---------------------------------------------------------------------------

  /** `store.get(id, [])`: the history of `id`, empty for an id the store does not hold. */
  function Lookup(store: Store, id: string): (history: seq<Turn>)
    ensures id in store ==> history == store[id]
    ensures id !in store ==> history == []
  {
    if id in store then store[id] else []
  }

  /** `store[id].append(t)` on a `defaultdict(list)`: `id` gets its old history followed by
      `t` (a new id starts from the empty list); no other session changes. */
  function AppendTurn(store: Store, id: string, t: Turn): (s: Store)
    ensures s.Keys == store.Keys + {id}
    ensures Lookup(s, id) == Lookup(store, id) + [t]
    ensures forall other :: other != id ==> Lookup(s, other) == Lookup(store, other)
  {
    store[id := Lookup(store, id) + [t]]
  }

  /** `store[id] = []`: `id` is present with an empty history; no other session changes. */
  function ClearSession(store: Store, id: string): (s: Store)
    ensures s.Keys == store.Keys + {id}
    ensures id in s && Lookup(s, id) == []
    ensures forall other :: other != id ==> Lookup(s, other) == Lookup(store, other)
  {
    store[id := []]
  }

  /** A mutation of the store. */
  datatype Op = AppendOp(id: string, turn: Turn) | ClearOp(id: string)

  function Apply(store: Store, op: Op): Store {
    match op
    case AppendOp(id, t) => AppendTurn(store, id, t)
    case ClearOp(id) => ClearSession(store, id)
  }

  /** The store after running `ops` in order. */
  function Replay(store: Store, ops: seq<Op>): Store
    decreases |ops|
  {
    if ops == [] then store else Replay(Apply(store, ops[0]), ops[1..])
  }

  /** The history one session has after `ops`, looking only at the operations on that
      session: appends extend it, a clear empties it. */
  function SessionAfter(h: seq<Turn>, ops: seq<Op>, id: string): seq<Turn>
    decreases |ops|
  {
    if ops == [] then h
    else
      var h' := if ops[0].id != id then h
                else if ops[0].AppendOp? then h + [ops[0].turn]
                else [];
      SessionAfter(h', ops[1..], id)
  }

  /** Sessions are independent: the history of `id` after any run of operations depends only
      on its own history before and the operations addressed to `id`. */
  lemma {:induction false} ReplayPerSession(store: Store, ops: seq<Op>, id: string)
    ensures Lookup(Replay(store, ops), id) == SessionAfter(Lookup(store, id), ops, id)
    decreases |ops|
  {
    if ops != [] {
      ReplayPerSession(Apply(store, ops[0]), ops[1..], id);
    }
  }

  /** The operations that append `ts` to session `id`, one by one. */
  function Appends(id: string, ts: seq<Turn>): (ops: seq<Op>)
    ensures |ops| == |ts|
    ensures forall i :: 0 <= i < |ts| ==> ops[i] == AppendOp(id, ts[i])
  {
    if ts == [] then [] else [AppendOp(id, ts[0])] + Appends(id, ts[1..])
  }

  /** Appending `ts` one by one to a session's history `h` gives `h + ts`. */
  lemma {:induction false} SessionAfterAppends(h: seq<Turn>, id: string, ts: seq<Turn>)
    ensures SessionAfter(h, Appends(id, ts), id) == h + ts
    decreases |ts|
  {
    if ts != [] {
      var rest := Appends(id, ts[1..]);
      assert ([AppendOp(id, ts[0])] + rest)[1..] == rest;
      SessionAfterAppends(h + [ts[0]], id, ts[1..]);
      assert h + [ts[0]] + ts[1..] == h + ts;
    }
  }

  /** Turns appended one after the other are read back in insertion order, after the turns
      the session already had. */
  lemma AppendsReadBackInOrder(store: Store, id: string, ts: seq<Turn>)
    ensures Lookup(Replay(store, Appends(id, ts)), id) == Lookup(store, id) + ts
  {
    ReplayPerSession(store, Appends(id, ts), id);
    SessionAfterAppends(Lookup(store, id), id, ts);
  }

  /** A session nobody appended to or cleared stays absent from the store, and reading it
      yields the empty history. */
  lemma {:induction false} UntouchedSessionAbsent(store: Store, ops: seq<Op>, id: string)
    requires id !in store
    requires forall i :: 0 <= i < |ops| ==> ops[i].id != id
    ensures id !in Replay(store, ops)
    ensures Lookup(Replay(store, ops), id) == []
    decreases |ops|
  {
    if ops != [] {
      UntouchedSessionAbsent(Apply(store, ops[0]), ops[1..], id);
    }
  }

  /** Clearing a session and then appending starts the history afresh. */
  lemma {:induction false} ClearThenAppends(store: Store, id: string, ts: seq<Turn>)
    ensures Lookup(Replay(store, [ClearOp(id)] + Appends(id, ts)), id) == ts
  {
    var ops := [ClearOp(id)] + Appends(id, ts);
    assert ops[1..] == Appends(id, ts);
    AppendsReadBackInOrder(ClearSession(store, id), id, ts);
  }

  // ---------------------------------------------------------------------------
  // The store as the backend holds it: one object updated in place
  // ---------------------------------------------------------------------------

  class SessionStore {
    var store: Store

    /** A new store holds no session. */
    constructor ()
      ensures store == map[]
    {
      store := map[];
    }

    /** `get_history`: reads without inserting the id. */
    method GetHistory(id: string) returns (history: seq<Turn>)
      ensures history == Lookup(store, id)
      ensures id !in store ==> history == []
    {
      history := if id in store then store[id] else [];
    }

    /** `append`: the turn goes at the tail of `id`'s history, creating the session. */
    method Append(id: string, t: Turn)
      modifies this
      ensures store == AppendTurn(old(store), id, t)
    {
      var h := if id in store then store[id] else [];
      store := store[id := h + [t]];
    }

    /** `clear`: empties `id`'s history and keeps the id. */
    method Clear(id: string)
      modifies this
      ensures store == ClearSession(old(store), id)
    {
      store := store[id := []];
    }
  }
}

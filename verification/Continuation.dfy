/** The file-backed continuation store: what it means, and the module that implements it. */
module Continuation {
  import opened Common

  datatype Entry = Entry(
    lastResponseId: Option<string>, lastInputLength: Option<nat>, accountId: Option<string>)

  const EMPTY := Entry(None, None, None)

  type Store = map<string, Entry>

  /** A field of a partial update: left alone, or set (possibly to undefined). */
  datatype Field<+T> = Keep | Set(value: Option<T>)

  datatype Patch = Patch(
    lastResponseId: Field<string>, lastInputLength: Field<nat>, accountId: Field<string>)

  function Pick<T>(field: Field<T>, before: Option<T>): Option<T> {
    if field.Keep? then before else field.value
  }

  function Merge(e: Entry, p: Patch): Entry {
    Entry(Pick(p.lastResponseId, e.lastResponseId), Pick(p.lastInputLength, e.lastInputLength),
          Pick(p.accountId, e.accountId))
  }

  function Get(store: Store, key: string): Entry {
    if key in store then store[key] else EMPTY
  }

  function Update(store: Store, key: string, p: Patch): Store {
    store[key := Merge(Get(store, key), p)]
  }

  function Forgotten(e: Entry): Entry {
    e.(lastResponseId := None, lastInputLength := None)
  }

  function Invalidate(store: Store, key: string): Store {
    if key in store then store[key := Forgotten(store[key])] else store
  }

  /** The key of a session's shard for one account. */
  function Shard(session: string, account: string): string {
    session + ":" + account
  }

  predicate InFamily(key: string, session: string) {
    key == session || session + ":" <= key
  }

  function InvalidateFamily(store: Store, session: string): Store {
    map key | key in store :: if InFamily(key, session) then Forgotten(store[key]) else store[key]
  }

  /** The family of a session is the session itself and its shards. */
  lemma FamilyMembers(key: string, session: string)
    ensures InFamily(key, session) <==> key == session || exists account :: key == Shard(session, account)
  {
    if session + ":" <= key {
      assert key == Shard(session, key[|session| + 1..]);
    }
    forall account | key == Shard(session, account) ensures session + ":" <= key {
      assert Shard(session, account)[..|session| + 1] == session + ":";
    }
  }

  /** Session ids without a colon have disjoint families, so invalidating one session never
      reaches another. */
  lemma FamiliesDisjoint(key: string, s1: string, s2: string)
    requires ':' !in s1 && ':' !in s2
    requires InFamily(key, s1) && InFamily(key, s2)
    ensures s1 == s2
  {
    if |s1| < |s2| {
      ColonInside(key, s1, s2);
    } else if |s2| < |s1| {
      ColonInside(key, s2, s1);
    } else {
      assert s1 <= key && s2 <= key;
      assert s1 == key[..|s1|] == s2;
    }
  }

  lemma ColonInside(key: string, shorter: string, longer: string)
    requires |shorter| < |longer| && InFamily(key, shorter) && InFamily(key, longer)
    ensures ':' in longer
  {
    assert |key| > |shorter|;
    assert key[|shorter|] == (shorter + ":")[|shorter|] == ':';
    assert longer <= key;
    assert longer[|shorter|] == ':';
  }

  /** What the invalidation of a family leaves: ids and lengths gone in the family, account
      ids and all other keys as they were. */
  lemma FamilyInvalidated(store: Store, session: string, key: string)
    ensures InvalidateFamily(store, session).Keys == store.Keys
    ensures
      var e := Get(InvalidateFamily(store, session), key);
      if key == session || (exists account :: key == Shard(session, account))
      then e == Entry(None, None, Get(store, key).accountId)
      else e == Get(store, key)
  {
    FamilyMembers(key, session);
  }

  /** What a partial update changes: in one key the fields that are given, everything else stays. */
  lemma UpdateReads(store: Store, key: string, p: Patch, other: string)
    ensures
      var before, after := Get(store, other), Get(Update(store, key, p), other);
      && (other != key ==> after == before)
      && (other == key ==>
            && after.lastResponseId == (match p.lastResponseId case Keep => before.lastResponseId case Set(id) => id)
            && after.lastInputLength == (match p.lastInputLength case Keep => before.lastInputLength case Set(n) => n)
            && after.accountId == (match p.accountId case Keep => before.accountId case Set(account) => account))
    ensures Update(store, key, p).Keys == store.Keys + {key}
  {
  }

  lemma InvalidateReads(store: Store, key: string, other: string)
    ensures
      Get(Invalidate(store, key), other)
      == if other == key then Entry(None, None, Get(store, other).accountId) else Get(store, other)
    ensures Invalidate(store, key).Keys == store.Keys
  {
  }

  /** A session has a shard of its own for every account. */
  lemma ShardsApart(session: string, a: string, b: string)
    requires Shard(session, a) == Shard(session, b)
    ensures a == b
  {
    assert Shard(session, a)[|session| + 1..] == a;
    assert Shard(session, b)[|session| + 1..] == b;
  }

  /** ... that is not the key of the session itself. */
  lemma ShardIsNoSession(session: string, account: string)
    ensures Shard(session, account) != session && InFamily(Shard(session, account), session)
  {
    assert |Shard(session, account)| > |session|;
    FamilyMembers(Shard(session, account), session);
  }

  // ---------------------------------------------------------------- the implementation

  /** The file behind the store: no path was set, or what is at the path. */
  datatype File = NoPath | Missing | Corrupt | Holds(store: Store)

  /** What `load` would find in a file. */
  function Readable(file: File): Store {
    if file.Holds? then file.store else map[]
  }

  /** The module's variables. `model` is the plain map the store stands for; `writeFailed`
      says that the latest write of the file did not succeed. */
  class ContinuationStore {
    var cache: Option<Store>
    var dirty: bool
    var flushTimer: bool
    var file: File
    ghost var model: Store
    ghost var writeFailed: bool

    /** Cache and model agree; a file and the model differ only while the flush timer is armed
        or after a failed write. */
    ghost predicate Valid()
      reads this
    {
      && (cache.Some? ==> cache.value == model)
      && (cache.None? ==> Readable(file) == model && !flushTimer)
      && (flushTimer ==> dirty && cache.Some?)
      && (Readable(file) != model ==> flushTimer || writeFailed || file.NoPath?)
    }

    constructor (file: File)
      ensures Valid() && model == Readable(file) && !flushTimer && !writeFailed && this.file == file
    {
      this.file := file;
      cache, dirty, flushTimer := None, false, false;
      model, writeFailed := Readable(file), false;
    }

    method Load() returns (store: Store)
      requires Valid()
      modifies this`cache
      ensures Valid() && store == model && cache == Some(store)
    {
      if cache.None? {
        cache := Some(if file.Holds? then file.store else map[]);
      }
      store := cache.value;
    }

    method Save(store: Store)
      requires Valid()
      modifies this
      ensures Valid() && model == store && file == old(file) && flushTimer
      ensures writeFailed == old(writeFailed)
    {
      cache, model := Some(store), store;
      dirty := true;
      flushTimer := true;
    }

    /** The timer's callback; `succeeds` is the outcome of the write. */
    method Flush(succeeds: bool)
      requires Valid() && flushTimer
      modifies this
      ensures Valid() && model == old(model) && !flushTimer
      ensures succeeds && !old(file).NoPath? ==> Readable(file) == model && !writeFailed
      ensures !succeeds || old(file).NoPath? ==> file == old(file)
      ensures file.NoPath? <==> old(file).NoPath?
      ensures succeeds && writeFailed ==> old(writeFailed)
    {
      flushTimer := false;
      if !dirty || cache.None? || file.NoPath? {
        return;
      }
      dirty := false;
      if succeeds {
        file, writeFailed := Holds(cache.value), false;
      } else {
        writeFailed := true;
      }
    }

    method GetContinuation(key: string) returns (e: Entry)
      requires Valid()
      modifies this`cache
      ensures Valid() && e == Get(model, key)
    {
      var store := Load();
      e := if key in store then store[key] else EMPTY;
    }

    method UpdateContinuation(key: string, p: Patch)
      requires Valid()
      modifies this
      ensures Valid() && model == Update(old(model), key, p) && file == old(file)
      ensures writeFailed == old(writeFailed)
    {
      var store := Load();
      Save(store[key := Merge(if key in store then store[key] else EMPTY, p)]);
    }

    method ClearContinuation(key: string)
      requires Valid()
      modifies this
      ensures Valid() && model == old(model) - {key} && file == old(file)
      ensures writeFailed == old(writeFailed)
    {
      var store := Load();
      Save(store - {key});
    }

    method InvalidateContinuation(key: string)
      requires Valid()
      modifies this
      ensures Valid() && model == Invalidate(old(model), key) && file == old(file)
      ensures writeFailed == old(writeFailed)
    {
      var store := Load();
      if key in store {
        Save(store[key := store[key].(lastResponseId := None, lastInputLength := None)]);
      }
    }

    /** Walks over the keys in some order, as the source does. */
    method InvalidateContinuationFamily(session: string)
      requires Valid()
      modifies this
      ensures Valid() && model == InvalidateFamily(old(model), session) && file == old(file)
      ensures writeFailed == old(writeFailed)
    {
      hide InFamily;
      var store := Load();
      var changed := false;
      var result := store;
      var keys := store.Keys;
      while keys != {}
        invariant keys <= store.Keys == result.Keys
        invariant forall key | key in store ::
          result[key] == if key !in keys && InFamily(key, session) then Forgotten(store[key]) else store[key]
        invariant !changed ==> result == store
        decreases |keys|
      {
        var key :| key in keys;
        if InFamily(key, session) {
          result := result[key := Forgotten(result[key])];
          changed := true;
        }
        keys := keys - {key};
      }
      assert result == InvalidateFamily(store, session);
      if changed {
        Save(result);
      }
    }
  }

  // ---------------------------------------------------------------- runs

  /** The operations of the module, the timer's callback with a write that succeeds among them. */
  datatype Op =
    | Look(key: string)
    | Change(key: string, patch: Patch)
    | Clear(key: string)
    | ForgetOne(key: string)
    | ForgetFamily(session: string)
    | TimerFires

  /** What an operation means for the plain map. */
  function Meaning(store: Store, op: Op): Store {
    match op
    case Look(_) => store
    case Change(key, patch) => Update(store, key, patch)
    case Clear(key) => store - {key}
    case ForgetOne(key) => Invalidate(store, key)
    case ForgetFamily(session) => InvalidateFamily(store, session)
    case TimerFires => store
  }

  function MeaningOf(store: Store, ops: seq<Op>): Store
    decreases |ops|
  {
    if ops == [] then store else Meaning(MeaningOf(store, ops[..|ops| - 1]), ops[|ops| - 1])
  }

  method Perform(c: ContinuationStore, op: Op)
    requires c.Valid()
    modifies c
    ensures c.Valid() && c.model == Meaning(old(c.model), op)
    ensures c.writeFailed ==> old(c.writeFailed)
    ensures c.file.NoPath? <==> old(c.file).NoPath?
    ensures op.TimerFires? ==> !c.flushTimer
  {
    hide Update, Invalidate, InvalidateFamily;
    match op
    case Look(key) => var e := c.GetContinuation(key);
    case Change(key, patch) => c.UpdateContinuation(key, patch);
    case Clear(key) => c.ClearContinuation(key);
    case ForgetOne(key) => c.InvalidateContinuation(key);
    case ForgetFamily(session) => c.InvalidateContinuationFamily(session);
    case TimerFires =>
      if c.flushTimer {
        c.Flush(true);
      }
  }

  /** Any run of operations whose writes succeed, on a store with a path: it holds the map that the
      operations mean, and the file holds another one only while the flush timer is armed. */
  method PerformAll(c: ContinuationStore, ops: seq<Op>)
    requires c.Valid() && !c.writeFailed && !c.file.NoPath?
    modifies c
    ensures c.Valid() && !c.writeFailed && !c.file.NoPath? && c.model == MeaningOf(old(c.model), ops)
    ensures Readable(c.file) != c.model ==> c.flushTimer
  {
    ghost var before := c.model;
    for i := 0 to |ops|
      invariant c.Valid() && !c.writeFailed && !c.file.NoPath?
      invariant c.model == MeaningOf(before, ops[..i])
    {
      Perform(c, ops[i]);
      assert ops[..i + 1][..i] == ops[..i];
    }
    assert ops[..|ops|] == ops;
  }

  /** After a run and one more firing of the timer, a new process starts with the map that the
      run meant. */
  method RunAndRestart(file: File, ops: seq<Op>) returns (next: ContinuationStore)
    requires !file.NoPath?
    ensures next.Valid() && next.model == MeaningOf(Readable(file), ops)
  {
    var c := new ContinuationStore(file);
    PerformAll(c, ops);
    Perform(c, TimerFires);
    next := new ContinuationStore(c.file);
  }
}

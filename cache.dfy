/** The `cache(timeout)` decorator (app.py:90-115): results of decorated calls are kept in
    a store of entries, one per call signature, each with the time it was written. */
module ResponseCache {
  import opened Wrappers
  import opened Json

  /** The call signature `(func.__name__, args, kwargs)`. The file name is the MD5 of its
      JSON text; the signature itself stands for it. Keyword arguments keep their order,
      as `json.dumps` keeps the order of a dict. */
  datatype Key = Key(name: string, args: seq<Json>, kwargs: seq<(string, Json)>)

  /** A cache file: its modification time and the result written to it. */
  datatype Entry = Entry(mtime: int, value: Json)

  /** The test at app.py:101-102: an entry exists and `mtime > now - timeout`. */
  predicate IsFresh(store: map<Key, Entry>, key: Key, timeout: int, now: int) {
    key in store && store[key].mtime > now - timeout
  }

  /** A result written at `written` stays fresh for exactly `timeout` seconds. */
  lemma FreshWindow(store: map<Key, Entry>, key: Key, value: Json, written: int, timeout: int, now: int)
    ensures IsFresh(store[key := Entry(written, value)], key, timeout, now) <==> now - written < timeout
  {
  }

  /** The cache directory. */
  class Cache {
    var store: map<Key, Entry>

    /** `initial` is what earlier runs left in the directory. */
    constructor (initial: map<Key, Entry>)
      ensures store == initial
    {
      store := initial;
    }

    /** The read half of `wrapper_cache` (app.py:100-106): a fresh entry is returned and
        the store is left alone; a stale one is removed. */
    method Fetch(key: Key, timeout: int, now: int) returns (hit: Option<Json>)
      modifies this
      ensures IsFresh(old(store), key, timeout, now) ==> hit == Some(old(store)[key].value) && store == old(store)
      ensures !IsFresh(old(store), key, timeout, now) ==> hit == None && store == old(store) - {key}
    {
      if key in store {
        if store[key].mtime > now - timeout {
          return Some(store[key].value);
        } else {
          store := store - {key};
        }
      }
      hit := None;
    }

    /** The write half (app.py:110-111): the result is stored under the key, stamped `now`. */
    method Put(key: Key, value: Json, now: int)
      modifies this
      ensures store == old(store)[key := Entry(now, value)]
    {
      store := store[key := Entry(now, value)];
    }

    /** A whole decorated call whose producer would return `produced`. `invoked` tells
        whether the producer ran. */
    method Call(key: Key, timeout: int, now: int, produced: Json) returns (r: Json, invoked: bool)
      modifies this
      ensures invoked <==> !IsFresh(old(store), key, timeout, now)
      ensures !invoked ==> r == old(store)[key].value && store == old(store)
      ensures invoked ==> r == produced && store == old(store)[key := Entry(now, produced)]
    {
      var hit := Fetch(key, timeout, now);
      if hit.Some? {
        return hit.value, false;
      }
      r, invoked := produced, true;
      Put(key, r, now);
    }
  }
}

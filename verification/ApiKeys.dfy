// The API keys: a map behind a lock, and a file rewritten after every change.

module ApiKeys {
  import opened Wrappers
  import opened Workers

  datatype ApiKey = ApiKey(key: string, name: string, credits: u64, enabled: bool, createdAt: string)

  type KeyMap = map<string, ApiKey>

  /** The key file as the loader sees it. */
  datatype Document = Absent | Unreadable | Keys(keys: KeyMap)

  function Load(doc: Document): KeyMap
  {
    if doc.Keys? then doc.keys else map[]
  }

  // ----- the operations as functions on the map -----

  datatype Op =
    | Create(key: string, name: string, credits: u64, createdAt: string)
    | Deduct(key: string)
    | Add(key: string, amount: u64)
    | Toggle(key: string)
    | Delete(key: string)

  /** Whether an operation changes the map, and therefore saves it and reports success. */
  predicate Changes(m: KeyMap, op: Op)
  {
    match op
    case Create(_, _, _, _) => true
    case Deduct(k) => k in m && m[k].credits > 0
    case _ => op.key in m
  }

  function Apply(m: KeyMap, op: Op): KeyMap
  {
    if !Changes(m, op) then m
    else
      match op
      case Create(k, name, credits, createdAt) => m[k := ApiKey(k, name, credits, true, createdAt)]
      case Deduct(k) => m[k := m[k].(credits := m[k].credits - 1)]
      case Add(k, amount) => m[k := m[k].(credits := WrappingAdd(m[k].credits, amount))]
      case Toggle(k) => m[k := m[k].(enabled := !m[k].enabled)]
      case Delete(k) => m - {k}
  }

  predicate Usable(m: KeyMap, key: string)
  {
    key in m && m[key].enabled && m[key].credits > 0
  }

  // ----- what a key's history makes of it -----

  function AfterAll(m: KeyMap, ops: seq<Op>): KeyMap
  {
    if ops == [] then m else Apply(AfterAll(m, ops[..|ops| - 1]), ops[|ops| - 1])
  }

  /** The latest creation of a key, unless it has been deleted since. */
  function Creation(ops: seq<Op>, key: string): (c: Option<Op>)
    ensures c.Some? ==> c.value.Create?
  {
    if ops == [] then None
    else
      var last := ops[|ops| - 1];
      if last.key == key && last.Create? then Some(last)
      else if last == Delete(key) then None
      else Creation(ops[..|ops| - 1], key)
  }

  /** How often it has been toggled since. */
  function Toggles(ops: seq<Op>, key: string): nat
  {
    if ops == [] then 0
    else
      var last := ops[|ops| - 1];
      if last.key == key && last.Create? then 0
      else Toggles(ops[..|ops| - 1], key) + if last == Toggle(key) then 1 else 0
  }

  /** After any operations on an empty map: a key is there exactly if it has been created
      and not been deleted since; it has the name of that creation, and is enabled exactly
      if it has been toggled an even number of times since. */
  lemma {:induction false} KeysAreAsTheirHistory(ops: seq<Op>, key: string)
    ensures var m := AfterAll(map[], ops);
            var creation := Creation(ops, key);
            && (key in m <==> creation.Some?)
            && (key in m ==>
                  && m[key].key == key && m[key].name == creation.value.name
                  && m[key].createdAt == creation.value.createdAt
                  && (m[key].enabled <==> Toggles(ops, key) % 2 == 0))
  {
    if ops != [] {
      KeysAreAsTheirHistory(ops[..|ops| - 1], key);
    }
  }

  class KeyManager {
    const hasPath: bool
    var keys: KeyMap
    var file: Document

    constructor (hasPath: bool, file: Document)
      ensures this.hasPath == hasPath && this.file == file
      ensures keys == if hasPath then Load(file) else map[]
    {
      this.hasPath := hasPath;
      this.file := file;
      keys := if hasPath then Load(file) else map[];
    }

    method Save()
      modifies this`file
      ensures file == if hasPath then Keys(keys) else old(file)
    {
      if hasPath {
        file := Keys(keys);
      }
    }

    /** `key` and `createdAt` come from the clock. */
    method CreateKey(key: string, name: string, credits: u64, createdAt: string)
      modifies this
      ensures keys == Apply(old(keys), Create(key, name, credits, createdAt))
      ensures file == if hasPath then Keys(keys) else old(file)
    {
      keys := keys[key := ApiKey(key, name, credits, true, createdAt)];
      Save();
    }

    method ValidateKey(key: string) returns (info: Option<ApiKey>)
      ensures info.Some? <==> key in keys && keys[key].enabled && keys[key].credits > 0
      ensures info.Some? ==> info.value == keys[key]
    {
      info := if key in keys && keys[key].enabled && keys[key].credits > 0 then Some(keys[key]) else None;
    }

    method DeductCredit(key: string) returns (ok: bool)
      modifies this
      ensures ok == Changes(old(keys), Deduct(key))
      ensures keys == Apply(old(keys), Deduct(key))
      ensures file == if ok && hasPath then Keys(keys) else old(file)
    {
      if key in keys {
        var entry := keys[key];
        if entry.credits > 0 {
          keys := keys[key := entry.(credits := entry.credits - 1)];
          Save();
          return true;
        }
      }
      return false;
    }

    method AddCredits(key: string, amount: u64) returns (ok: bool)
      modifies this
      ensures ok == Changes(old(keys), Add(key, amount))
      ensures keys == Apply(old(keys), Add(key, amount))
      ensures file == if ok && hasPath then Keys(keys) else old(file)
    {
      if key in keys {
        var entry := keys[key];
        keys := keys[key := entry.(credits := WrappingAdd(entry.credits, amount))];
        Save();
        return true;
      }
      return false;
    }

    method ToggleKey(key: string) returns (ok: bool)
      modifies this
      ensures ok == Changes(old(keys), Toggle(key))
      ensures keys == Apply(old(keys), Toggle(key))
      ensures file == if ok && hasPath then Keys(keys) else old(file)
    {
      if key in keys {
        var entry := keys[key];
        keys := keys[key := entry.(enabled := !entry.enabled)];
        Save();
        return true;
      }
      return false;
    }

    method DeleteKey(key: string) returns (ok: bool)
      modifies this
      ensures ok == Changes(old(keys), Delete(key))
      ensures keys == Apply(old(keys), Delete(key))
      ensures file == if ok && hasPath then Keys(keys) else old(file)
    {
      ok := key in keys;
      keys := keys - {key};
      if ok {
        Save();
      }
    }
  }
}

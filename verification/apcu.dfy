/**
 * The shared APCu store and the log directory, as one sequential state.
 * The store maps keys to values of three kinds: numbers (the counters and
 * the watermarks), lists of names (the per-generation tag and metric-name
 * lists) and flags (the flush locks). The log directory maps each log file
 * to the lines appended to it so far.
 */
module Apcu {
  import opened Php

  datatype Value = Number(n: int) | Names(list: seq<string>) | Flag(b: bool)

  type Store = map<string, Value>

  /** A counter read from the store; an absent key (and any non-number) reads as 0. */
  function NumberAt(s: Store, k: string): int {
    if k in s && s[k].Number? then s[k].n else 0
  }

  /** A name list read from the store; an absent key reads as the empty list. */
  function NamesAt(s: Store, k: string): seq<string> {
    if k in s && s[k].Names? then s[k].list else []
  }

  function NumberOf(v: Value): int {
    if v.Number? then v.n else 0
  }

  function NamesOf(v: Value): seq<string> {
    if v.Names? then v.list else []
  }

  /**
   * One log file: `<logPath>/metrics/<project>/<hour of the bucket>/metrics_<minute of the bucket>`.
   * The hour and minute names are fixed functions of the bucket id, so the
   * file is identified by the bucket id itself.
   */
  datatype LogFile = LogFile(logPath: string, project: string, bucket: int)

  type Logs = map<LogFile, seq<string>>

  function Lines(logs: Logs, f: LogFile): seq<string> {
    if f in logs then logs[f] else []
  }

  /** `file_put_contents(f, line, FILE_APPEND)` for each line in turn; a file appears with its first line. */
  function Appended(logs: Logs, f: LogFile, lines: seq<string>): (r: Logs)
    ensures Lines(r, f) == Lines(logs, f) + lines
    ensures forall g :: g != f ==> Lines(r, g) == Lines(logs, g) && (g in r <==> g in logs)
    ensures f in r <==> f in logs || lines != []
  {
    if lines == [] then logs else logs[f := Lines(logs, f) + lines]
  }

  /** Appending in two steps is appending the concatenation. */
  lemma AppendedTwice(logs: Logs, f: LogFile, a: seq<string>, b: seq<string>)
    ensures Appended(Appended(logs, f, a), f, b) == Appended(logs, f, a + b)
  {
    if a == [] {
      assert a + b == b;
    } else if b == [] {
      assert a + b == a;
    } else {
      assert Lines(logs, f) + a + b == Lines(logs, f) + (a + b);
    }
  }

  /** The whole shared state: the store and the log files. */
  datatype World = World(apcu: Store, logs: Logs)

  /** The machine every worker process shares. */
  class Host {
    var apcu: Store
    var logs: Logs

    constructor()
      ensures apcu == map[] && logs == map[]
    {
      apcu := map[];
      logs := map[];
    }

    function State(): World
      reads this
    {
      World(apcu, logs)
    }

    /** `apcu_exists`. */
    method Exists(key: string) returns (present: bool)
      ensures present <==> key in apcu
    {
      present := key in apcu;
    }

    /** `apcu_fetch` of a number. */
    method FetchNumber(key: string) returns (n: int)
      ensures n == NumberAt(apcu, key)
    {
      n := NumberAt(apcu, key);
    }

    /** `apcu_store`. */
    method Put(key: string, v: Value)
      modifies this
      ensures apcu == old(apcu)[key := v] && logs == old(logs)
    {
      apcu := apcu[key := v];
    }

    /** `apcu_add`: stores only when the key is absent and says whether it did. */
    method Add(key: string, v: Value) returns (added: bool)
      modifies this
      ensures added <==> key !in old(apcu)
      ensures apcu == (if added then old(apcu)[key := v] else old(apcu)) && logs == old(logs)
    {
      added := key !in apcu;
      if added {
        apcu := apcu[key := v];
      }
    }

    /** `apcu_delete`. */
    method Delete(key: string)
      modifies this
      ensures apcu == old(apcu) - {key} && logs == old(logs)
    {
      apcu := apcu - {key};
    }

    /** `apcu_entry(key, fn() => default)`: the stored value, storing the default first when absent. */
    method Entry(key: string, default: Value) returns (v: Value)
      modifies this
      ensures key in old(apcu) ==> v == old(apcu)[key] && apcu == old(apcu)
      ensures key !in old(apcu) ==> v == default && apcu == old(apcu)[key := default]
      ensures logs == old(logs)
    {
      if key in apcu {
        v := apcu[key];
      } else {
        v := default;
        apcu := apcu[key := default];
      }
    }

    /** `file_put_contents(f, line . PHP_EOL, LOCK_EX | FILE_APPEND)`. */
    method AppendLine(f: LogFile, line: string)
      modifies this
      ensures logs == Appended(old(logs), f, [line]) && apcu == old(apcu)
    {
      logs := logs[f := Lines(logs, f) + [line]];
    }
  }
}

// The remote key-value store that RedisLayer talks to, reduced to what the
// layer depends on: a map from key to entry, a table of loaded scripts, and
// the commands the layer issues. Expiry is recorded, never counted down: the
// model has no clock. A transport failure is a parameter of every command
// (`fault`); a faulted command is not applied.
module Store {

  type Key = string
  type Value = string

  datatype Option<T> = None | Some(value: T)

  /** A command's reply: its value, or the error the client reports. */
  datatype Reply<T> = Ok(value: T) | Err(error: StoreError)

  /** How long an entry lives, as the command that wrote it asked. */
  datatype Expiry = Persistent | Seconds(s: int) | Millis(ms: int)

  datatype Entry = Entry(value: Value, expiry: Expiry)

  /** The two server-side scripts RedisLayer registers. */
  datatype Script = BatchExistScript | CleanCacheScript

  datatype StoreError =
    | Transport(reason: string)    // the round trip itself failed
    | NoScript                     // EVALSHA named a handle the store has not loaded
    | WrongArity(command: string)  // a command issued without the arguments it needs
    | InvalidExpire                // SET ... EX with a time that is not positive
    | ScriptError                  // a script raised an error
    | RedisNil                     // the reply to a read of an absent key

  /** One pipelined `SET key value EX seconds` command. */
  datatype SetCommand = SetCommand(key: Key, value: Value, expiry: Expiry)

  /** Stands for the SHA-1 digest the store returns for a script body: scripts
      are content-addressed, so the handle depends on the script alone. */
  function Digest(s: Script): string
  {
    match s
    case BatchExistScript => "digest-of-batch-exist-script"
    case CleanCacheScript => "digest-of-clean-cache-script"
  }

  lemma DigestInjective(s: Script, t: Script)
    ensures Digest(s) == Digest(t) <==> s == t
    ensures Digest(s) != ""
  {
  }

  function KeySet(ks: seq<Key>): set<Key>
  {
    set k | k in ks
  }

  /** KEYS pattern matching, for the patterns this layer builds: a trailing
      `*` matches any suffix and every other character stands for itself. */
  predicate GlobMatch(pattern: string, key: Key)
  {
    if |pattern| > 0 && pattern[|pattern| - 1] == '*' then pattern[..|pattern| - 1] <= key
    else key == pattern
  }

  function MatchingKeys(data: map<Key, Entry>, pattern: string): (m: set<Key>)
    ensures forall k :: k in m <==> k in data && GlobMatch(pattern, k)
  {
    set k | k in data && GlobMatch(pattern, k)
  }

  /** The reply of `EXISTS keys...`: how many of the arguments name a key
      that is present, counting a repeated argument each time. */
  function CountExisting(data: map<Key, Entry>, keys: seq<Key>): (n: nat)
    ensures n <= |keys|
    ensures n == |keys| <==> forall i :: 0 <= i < |keys| ==> keys[i] in data
  {
    if keys == [] then 0
    else CountExisting(data, keys[..|keys| - 1]) + (if keys[|keys| - 1] in data then 1 else 0)
  }

  /** The store after `MSET k1 v1 k2 v2 ...`: each pair written in order,
      without expiry. */
  function MSetArgs(data: map<Key, Entry>, args: seq<string>): map<Key, Entry>
    requires |args| % 2 == 0
  {
    if args == [] then data
    else MSetArgs(data, args[..|args| - 2])[args[|args| - 2] := Entry(args[|args| - 1], Persistent)]
  }

  predicate ValidExpiry(e: Expiry)
  {
    match e
    case Persistent => true
    case Seconds(s) => s > 0
    case Millis(ms) => ms > 0
  }

  /** One SET as the store executes it: an expiry that is not positive is
      refused and nothing is written. */
  function SetReply(data: map<Key, Entry>, cmd: SetCommand, fault: Option<StoreError>): (r: (map<Key, Entry>, Option<StoreError>))
  {
    if fault.Some? then (data, fault)
    else if !ValidExpiry(cmd.expiry) then (data, Some(InvalidExpire))
    else (data[cmd.key := Entry(cmd.value, cmd.expiry)], None)
  }

  datatype PipelineResult = PipelineResult(data: map<Key, Entry>, resps: seq<Option<StoreError>>)

  /** Commands sent in one round trip: each one executed in order on its own,
      each with its own response; a failed command does not stop the rest. */
  function Pipeline(data: map<Key, Entry>, cmds: seq<SetCommand>, faults: seq<Option<StoreError>>): (p: PipelineResult)
    requires |faults| == |cmds|
    ensures |p.resps| == |cmds|
  {
    if cmds == [] then PipelineResult(data, [])
    else
      var prev := Pipeline(data, cmds[..|cmds| - 1], faults[..|cmds| - 1]);
      var step := SetReply(prev.data, cmds[|cmds| - 1], faults[|cmds| - 1]);
      PipelineResult(step.0, prev.resps + [step.1])
  }

  class Store {
    var data: map<Key, Entry>
    var scripts: map<string, Script>

    constructor ()
      ensures data == map[] && scripts == map[]
    {
      data := map[];
      scripts := map[];
    }

    /** SCRIPT LOAD: remembers the script under its digest and returns it. */
    method ScriptLoad(s: Script, fault: Option<StoreError>) returns (r: Reply<string>)
      modifies this`scripts
      ensures fault.Some? ==> r == Err(fault.value) && scripts == old(scripts)
      ensures fault.None? ==> r == Ok(Digest(s)) && scripts == old(scripts)[Digest(s) := s]
    {
      if fault.Some? {
        return Err(fault.value);
      }
      scripts := scripts[Digest(s) := s];
      r := Ok(Digest(s));
    }

    method Exists(keys: seq<Key>, fault: Option<StoreError>) returns (r: Reply<nat>)
      ensures fault.Some? ==> r == Err(fault.value)
      ensures fault.None? ==> r == Ok(CountExisting(data, keys))
    {
      if fault.Some? {
        return Err(fault.value);
      }
      r := Ok(CountExisting(data, keys));
    }

    method Get(key: Key, fault: Option<StoreError>) returns (r: Reply<Value>)
      ensures fault.Some? ==> r == Err(fault.value)
      ensures fault.None? && key in data ==> r == Ok(data[key].value)
      ensures fault.None? && key !in data ==> r == Err(RedisNil)
    {
      if fault.Some? {
        return Err(fault.value);
      }
      r := if key in data then Ok(data[key].value) else Err(RedisNil);
    }

    /** DEL: absent keys are ignored; a DEL without any key is refused. */
    method Del(keys: seq<Key>, fault: Option<StoreError>) returns (err: Option<StoreError>)
      modifies this`data
      ensures fault.Some? ==> err == fault && data == old(data)
      ensures fault.None? && keys == [] ==> err == Some(WrongArity("del")) && data == old(data)
      ensures fault.None? && keys != [] ==> err == None && data == old(data) - KeySet(keys)
    {
      if fault.Some? {
        return fault;
      }
      if keys == [] {
        return Some(WrongArity("del"));
      }
      data := data - KeySet(keys);
      err := None;
    }

    /** MSET: needs at least one key/value pair and an even argument count. */
    method MSet(args: seq<string>, fault: Option<StoreError>) returns (err: Option<StoreError>)
      modifies this`data
      ensures fault.Some? ==> err == fault && data == old(data)
      ensures fault.None? && (args == [] || |args| % 2 == 1) ==> err == Some(WrongArity("mset")) && data == old(data)
      ensures fault.None? && args != [] && |args| % 2 == 0 ==> err == None && data == MSetArgs(old(data), args)
    {
      if fault.Some? {
        return fault;
      }
      if args == [] || |args| % 2 == 1 {
        return Some(WrongArity("mset"));
      }
      data := MSetArgs(data, args);
      err := None;
    }

    method Set(cmd: SetCommand, fault: Option<StoreError>) returns (err: Option<StoreError>)
      modifies this`data
      ensures (data, err) == SetReply(old(data), cmd, fault)
    {
      var step := SetReply(data, cmd, fault);
      data, err := step.0, step.1;
    }

    /** DoMulti: the commands go out in one round trip; `faults[i]` is the
        transport's verdict on command `i`. */
    method DoMulti(cmds: seq<SetCommand>, faults: seq<Option<StoreError>>) returns (resps: seq<Option<StoreError>>)
      requires |faults| == |cmds|
      modifies this`data
      ensures PipelineResult(data, resps) == Pipeline(old(data), cmds, faults)
    {
      resps := [];
      var i := 0;
      while i < |cmds|
        invariant 0 <= i <= |cmds|
        invariant PipelineResult(data, resps) == Pipeline(old(data), cmds[..i], faults[..i])
      {
        assert cmds[..i + 1][..i] == cmds[..i] && faults[..i + 1][..i] == faults[..i];
        var err := Set(cmds[i], faults[i]);
        resps := resps + [err];
        i := i + 1;
      }
      assert cmds[..i] == cmds && faults[..i] == faults;
    }

    /** KEYS pattern: every matching key once, in no particular order. */
    method Keys(pattern: string) returns (ks: seq<Key>)
      ensures KeySet(ks) == MatchingKeys(data, pattern)
      ensures forall i, j :: 0 <= i < j < |ks| ==> ks[i] != ks[j]
    {
      ks := [];
      var rest := MatchingKeys(data, pattern);
      while rest != {}
        invariant KeySet(ks) + rest == MatchingKeys(data, pattern)
        invariant KeySet(ks) !! rest
        invariant forall i, j :: 0 <= i < j < |ks| ==> ks[i] != ks[j]
        decreases rest
      {
        var k :| k in rest;
        ks := ks + [k];
        rest := rest - {k};
      }
    }
  }
}

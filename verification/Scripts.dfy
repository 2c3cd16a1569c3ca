/**
  Joining several Lua scripts into one. Each script becomes a local function that first
  binds every key and argument name of the whole bundle; the joined script returns the list
  of their results.
*/
module Scripts {
  import opened Decimal

  /** Script arguments by name, as they are sent to Redis. */
  type Arguments = map<string, string>

  datatype RedisKey =
    | StaticKey(id: string, value: string)
    | DynamicKey(id: string, generator: Arguments -> string)
  {
    function Value(args: Arguments): string {
      match this
      case StaticKey(_, value) => value
      case DynamicKey(_, generator) => generator(args)
    }
  }

  datatype RedisScript = RedisScript(text: string, args: seq<string>, keys: seq<string>)

  datatype Compiled = Compiled(script: RedisScript, keys: seq<RedisKey>, args: seq<string>)

  datatype Result<+T> = Success(value: T) | Failure(error: string)

  // The joined text, as a structure.

  /** A local function: it binds the key names, then the argument names, then runs the body. */
  datatype Function = Function(name: string, keyNames: seq<string>, argNames: seq<string>, body: string)

  datatype Program = Program(functions: seq<Function>, calls: seq<string>)

  function FunctionName(i: nat): string {
    "____joinedRedisScripts_" + Itoa(i) + "____"
  }

  function Joined(scripts: seq<RedisScript>, keyNames: seq<string>, argNames: seq<string>): Program {
    Program(seq(|scripts|, i requires 0 <= i < |scripts| => Function(FunctionName(i), keyNames, argNames, scripts[i].text)),
            seq(|scripts|, i requires 0 <= i => FunctionName(i)))
  }

  function RenderBindings(names: seq<string>, table: string): string {
    if names == [] then ""
    else
      var n := |names|;
      RenderBindings(names[..n - 1], table) + "local " + names[n - 1] + " = " + table + "[" + Itoa(n) + "];\n"
  }

  function RenderFunction(f: Function): string {
    "local function " + f.name + "()\n" + RenderBindings(f.keyNames, "KEYS") + "\n"
    + RenderBindings(f.argNames, "ARGV") + "\n" + f.body + "\nend"
  }

  function RenderFunctions(fs: seq<Function>): string {
    if fs == [] then ""
    else if |fs| == 1 then RenderFunction(fs[0])
    else RenderFunctions(fs[..|fs| - 1]) + "\n" + RenderFunction(fs[|fs| - 1])
  }

  function RenderCalls(calls: seq<string>): string {
    if calls == [] then ""
    else if |calls| == 1 then calls[0] + "()"
    else RenderCalls(calls[..|calls| - 1]) + ", " + calls[|calls| - 1] + "()"
  }

  function Render(p: Program): string {
    RenderFunctions(p.functions) + "\n" + "return {" + RenderCalls(p.calls) + "}\n"
  }

  function Repeat<T>(s: seq<T>, n: nat): seq<T> {
    if n == 0 then [] else Repeat(s, n - 1) + s
  }

  function KeyIds(keys: seq<RedisKey>): seq<string> {
    seq(|keys|, i requires 0 <= i < |keys| => keys[i].id)
  }

  // The operations.

  function AllArgs(scripts: seq<RedisScript>): seq<string> {
    if scripts == [] then [] else AllArgs(scripts[..|scripts| - 1]) + scripts[|scripts| - 1].args
  }

  /** Each name once, where it first occurs. */
  function FirstOccurrences(names: seq<string>): seq<string> {
    if names == [] then []
    else
      var front := FirstOccurrences(names[..|names| - 1]);
      var last := names[|names| - 1];
      if last in front then front else front + [last]
  }

  function UniqueArgNames(scripts: seq<RedisScript>): seq<string> {
    FirstOccurrences(AllArgs(scripts))
  }

  lemma FirstOccurrencesStep(names: seq<string>, x: string)
    ensures FirstOccurrences(names + [x]) ==
            if x in FirstOccurrences(names) then FirstOccurrences(names) else FirstOccurrences(names) + [x]
  {
    assert (names + [x])[..|names|] == names;
  }

  method GetScriptsUniqueArgNames(scripts: seq<RedisScript>) returns (unique: seq<string>)
    ensures unique == UniqueArgNames(scripts)
  {
    var seen: set<string> := {};
    unique := [];
    ghost var met: seq<string> := [];
    for i := 0 to |scripts|
      invariant met == AllArgs(scripts[..i])
      invariant unique == FirstOccurrences(met) && forall x :: x in seen <==> x in unique
    {
      var args := scripts[i].args;
      ghost var before := met;
      for j := 0 to |args|
        invariant met == before + args[..j]
        invariant unique == FirstOccurrences(met) && forall x :: x in seen <==> x in unique
      {
        hide FirstOccurrences;
        FirstOccurrencesStep(met, args[j]);
        met := met + [args[j]];
        if args[j] !in seen {
          unique := unique + [args[j]];
          seen := seen + {args[j]};
        }
      }
      assert scripts[..i + 1][..i] == scripts[..i];
      assert args[..|args|] == args;
    }
    assert scripts[..|scripts|] == scripts;
  }

  predicate Declares(scripts: seq<RedisScript>, name: string) {
    exists i | 0 <= i < |scripts| :: name in scripts[i].keys
  }

  /** Of the supplied keys, the first of each id that some script declares. */
  function UsedKeys(scripts: seq<RedisScript>, keys: seq<RedisKey>): seq<RedisKey> {
    if keys == [] then []
    else
      var front := UsedKeys(scripts, keys[..|keys| - 1]);
      var last := keys[|keys| - 1];
      if Declares(scripts, last.id) && last.id !in KeyIds(front) then front + [last] else front
  }

  method GetUniqueUsedKeys(scripts: seq<RedisScript>, keys: seq<RedisKey>) returns (kept: seq<RedisKey>)
    ensures kept == UsedKeys(scripts, keys)
  {
    var used: set<string> := {};
    for i := 0 to |scripts|
      invariant forall x :: x in used <==> Declares(scripts[..i], x)
    {
      for j := 0 to |scripts[i].keys|
        invariant forall x :: x in used <==> Declares(scripts[..i], x) || x in scripts[i].keys[..j]
      {
        used := used + {scripts[i].keys[j]};
      }
      DeclaresStep(scripts, i);
    }
    assert scripts[..|scripts|] == scripts;
    kept := [];
    var unique: set<string> := {};
    for i := 0 to |keys|
      invariant kept == UsedKeys(scripts, keys[..i])
      invariant forall x :: x in unique <==> x in KeyIds(kept)
    {
      assert keys[..i + 1][..i] == keys[..i];
      ghost var before := kept;
      if keys[i].id in used {
        if keys[i].id !in unique {
          kept := kept + [keys[i]];
          unique := unique + {keys[i].id};
          assert KeyIds(kept) == KeyIds(before) + [keys[i].id];
        }
      }
    }
    assert keys[..|keys|] == keys;
  }

  lemma DeclaresStep(scripts: seq<RedisScript>, i: nat)
    requires i < |scripts|
    ensures forall x :: Declares(scripts[..i + 1], x) <==> Declares(scripts[..i], x) || x in scripts[i].keys
  {
    forall x ensures Declares(scripts[..i + 1], x) <==> Declares(scripts[..i], x) || x in scripts[i].keys {
      if Declares(scripts[..i], x) {
        var j :| 0 <= j < i && x in scripts[..i][j].keys;
        assert x in scripts[..i + 1][j].keys;
      }
      if x in scripts[i].keys {
        assert x in scripts[..i + 1][i].keys;
      }
      if Declares(scripts[..i + 1], x) && x !in scripts[i].keys {
        var j :| 0 <= j < i + 1 && x in scripts[..i + 1][j].keys;
        assert x in scripts[..i][j].keys;
      }
    }
  }

  method RenderBindingsLoop(names: seq<string>, table: string) returns (text: string)
    ensures text == RenderBindings(names, table)
  {
    text := "";
    for i := 0 to |names|
      invariant text == RenderBindings(names[..i], table)
    {
      text := text + "local " + names[i] + " = " + table + "[" + Itoa(i + 1) + "];\n";
      assert names[..i + 1][..i] == names[..i];
    }
    assert names[..|names|] == names;
  }

  /** The name lists are repeated once per script; the text renders the joined program. */
  method JoinRedisScripts(scripts: seq<RedisScript>, keys: seq<RedisKey>, args: seq<string>) returns (result: RedisScript)
    ensures result.text == Render(Joined(scripts, KeyIds(keys), args))
    ensures result.args == Repeat(args, |scripts|) && result.keys == Repeat(KeyIds(keys), |scripts|)
  {
    var text, calls: seq<string> := "", [];
    var allArgs, allKeys := [], [];
    ghost var p := Joined(scripts, KeyIds(keys), args);
    hide RenderFunctions, RenderBindings, RenderFunction, AppendFunction, FunctionName, RenderCalls;
    assert RenderFunctions([]) == "" by { RenderNothing(); }
    for i := 0 to |scripts|
      invariant text == RenderFunctions(p.functions[..i]) && calls == p.calls[..i]
      invariant allArgs == Repeat(args, i) && allKeys == Repeat(KeyIds(keys), i)
    {
      var compiledArgs := RenderBindingsLoop(args, "ARGV");
      allArgs := allArgs + args;
      var compiledKeys := RenderBindingsLoop(KeyIds(keys), "KEYS");
      allKeys := allKeys + KeyIds(keys);
      var name := FunctionName(i);
      calls := calls + [name];
      RenderNext(p.functions[..i], p.functions[i]);
      text := AppendFunction(text, name, compiledKeys, compiledArgs, scripts[i].text);
      assert p.functions[..i + 1] == p.functions[..i] + [p.functions[i]];
    }
    assert p.functions[..|scripts|] == p.functions && p.calls[..|scripts|] == p.calls;
    var list := JoinCalls(calls);
    result := RedisScript(text + "\n" + "return {" + list + "}\n", allArgs, allKeys);
  }

  lemma RenderNothing()
    ensures RenderFunctions([]) == ""
  {
  }

  /** One more enveloped script; no newline before the first. */
  function AppendFunction(text: string, name: string, compiledKeys: string, compiledArgs: string, body: string): string {
    var enveloped := "local function " + name + "()\n" + compiledKeys + "\n" + compiledArgs + "\n" + body + "\nend";
    if |text| > 0 then text + "\n" + enveloped else enveloped
  }

  lemma RenderNext(fs: seq<Function>, f: Function)
    ensures RenderFunctions(fs + [f]) ==
            AppendFunction(RenderFunctions(fs), f.name, RenderBindings(f.keyNames, "KEYS"),
                           RenderBindings(f.argNames, "ARGV"), f.body)
  {
    assert (fs + [f])[..|fs|] == fs;
    if fs != [] {
      RenderedIsNotEmpty(fs);
    }
  }

  lemma RenderedIsNotEmpty(fs: seq<Function>)
    requires fs != []
    ensures RenderFunctions(fs) != ""
  {
  }

  method JoinCalls(calls: seq<string>) returns (list: string)
    ensures list == RenderCalls(calls)
  {
    list := "";
    for i := 0 to |calls|
      invariant list == RenderCalls(calls[..i])
    {
      assert calls[..i + 1][..i] == calls[..i];
      list := if i == 0 then calls[i] + "()" else list + ", " + calls[i] + "()";
    }
    assert calls[..|calls|] == calls;
  }

  /** The check for a missing key looks up the very keys that were put in, so it never fails. */
  method CompileRedisScripts(scripts: seq<RedisScript>, keys: seq<RedisKey>) returns (r: Result<Compiled>)
    ensures r.Success?
    ensures r.value.keys == UsedKeys(scripts, keys) && r.value.args == UniqueArgNames(scripts)
    ensures r.value.script.text == Render(Joined(scripts, KeyIds(r.value.keys), r.value.args))
    ensures r.value.script.args == Repeat(r.value.args, |scripts|)
  {
    var supplied: map<string, RedisKey> := map[];
    for i := 0 to |keys|
      invariant forall j | 0 <= j < i :: keys[j].id in supplied
    {
      supplied := supplied[keys[i].id := keys[i]];
    }
    var missing := false;
    for i := 0 to |keys|
      invariant !missing
    {
      if keys[i].id !in supplied {
        missing := true;
      }
    }
    if missing {
      return Failure("Missing required LUA script key");
    }
    var uniqueKeys := GetUniqueUsedKeys(scripts, keys);
    var uniqueArgs := GetScriptsUniqueArgNames(scripts);
    var script := JoinRedisScripts(scripts, uniqueKeys, uniqueArgs);
    r := Success(Compiled(script, uniqueKeys, uniqueArgs));
  }

  function KeyValues(keys: seq<RedisKey>, args: Arguments): seq<string> {
    seq(|keys|, i requires 0 <= i < |keys| => keys[i].Value(args))
  }

  method Keys(compiled: Compiled, args: Arguments) returns (result: seq<string>)
    ensures result == KeyValues(compiled.keys, args)
  {
    result := [];
    for i := 0 to |compiled.keys|
      invariant result == KeyValues(compiled.keys[..i], args)
    {
      result := result + [compiled.keys[i].Value(args)];
    }
    assert compiled.keys[..|compiled.keys|] == compiled.keys;
  }

  function Supplied(names: seq<string>, args: Arguments): seq<string>
    requires forall x | x in names :: x in args
  {
    seq(|names|, i requires 0 <= i < |names| => args[names[i]])
  }

  /** An argument is missing exactly when some name of the repeated list is not supplied. */
  method Args(compiled: Compiled, args: Arguments) returns (r: Result<seq<string>>)
    ensures r.Success? <==> forall x | x in compiled.script.args :: x in args
    ensures r.Success? ==> r.value == Supplied(compiled.script.args, args)
  {
    var result := [];
    var names := compiled.script.args;
    for i := 0 to |names|
      invariant forall x | x in names[..i] :: x in args
      invariant result == Supplied(names[..i], args)
    {
      if names[i] !in args {
        return Failure("Missing required Redis LUA script argument: " + names[i]);
      }
      result := result + [args[names[i]]];
    }
    assert names[..|names|] == names;
    return Success(result);
  }
}

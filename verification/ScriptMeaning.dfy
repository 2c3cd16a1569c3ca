/**
  What joined scripts do, whatever the scripts do: they run in order, each with its declared
  names bound to the values meant for it, provided no name of the bundle gets in the way.
*/
module ScriptMeaning {
  import opened Basics
  import opened Decimal
  import opened Scripts
  import opened ScriptText

  // Lua's scoping, as far as the joined text uses it.

  /**
    What a name stands for: the i-th key or argument, one of the two tables, nil, the i-th
    function of the joined script, or whatever the name means globally.
  */
  datatype Slot = KeySlot(i: nat) | ArgSlot(i: nat) | KeysTable | ArgsTable | NilSlot | Routine(i: nat) | Free

  type Scope = string -> Slot

  function Bind(s: Scope, name: string, slot: Slot): Scope {
    x => if x == name then slot else s(x)
  }

  const TABLES: Scope := x => if x == "KEYS" then KeysTable else if x == "ARGV" then ArgsTable else Free

  /** The value of `t[n]`, counted from 1: a string has no such field, and indexing nil or a function is an error. */
  function Index(t: Slot, n: int): Option<Slot> {
    match t
    case KeysTable => Some(if n >= 1 then KeySlot(n - 1) else NilSlot)
    case ArgsTable => Some(if n >= 1 then ArgSlot(n - 1) else NilSlot)
    case KeySlot(_) | ArgSlot(_) => Some(NilSlot)
    case _ => None
  }

  /** The bindings one after the other; each sees those before it. */
  function Prelude(s: Scope, bs: seq<Binding>): Option<Scope> {
    if bs == [] then Some(s)
    else
      var last := bs[|bs| - 1];
      match Prelude(s, bs[..|bs| - 1])
      case None => None
      case Some(t) =>
        match Index(t(last.table), last.index)
        case None => None
        case Some(slot) => Some(Bind(t, last.name, slot))
  }

  /** The scope in which the next function is defined, or after the last one the calls are made. */
  function Outer(fs: seq<LuaFunction>): Scope {
    if fs == [] then TABLES
    else Bind(Outer(fs[..|fs| - 1]), fs[|fs| - 1].name, Routine(|fs| - 1))
  }

  /** The scope in which a function's body runs, unless its bindings fail. A local function sees itself. */
  function Inner(fs: seq<LuaFunction>, i: nat): Option<Scope>
    requires i < |fs|
  {
    Prelude(Outer(fs[..i + 1]), fs[i].bindings)
  }

  lemma {:induction false} PreludeConcat(s: Scope, a: seq<Binding>, b: seq<Binding>)
    ensures Prelude(s, a + b) == match Prelude(s, a) case None => None case Some(t) => Prelude(t, b)
  {
    if b == [] {
      assert a + b == a;
    } else {
      PreludeConcat(s, a, b[..|b| - 1]);
      assert (a + b)[..|a + b| - 1] == a + b[..|b| - 1];
    }
  }

  lemma LastBinding(names: seq<string>, table: string)
    requires names != []
    ensures var n := |names| - 1;
            && |BindingsOf(names, table)| == n + 1
            && BindingsOf(names, table)[..n] == BindingsOf(names[..n], table)
            && BindingsOf(names, table)[n] == Binding(names[n], table, n + 1)
  {
  }

  // What the bindings amount to.

  /** The j-th binding comes after one that took the table's name away. */
  ghost predicate Hidden(names: seq<string>, table: string, j: nat) {
    exists l | 0 <= l < j && l < |names| :: names[l] == table
  }

  /** With the table in view, all goes well up to the binding that hides it, and the rest is nil. */
  ghost predicate Bound(s: Scope, t: Scope, names: seq<string>, table: string)
    requires s(table) == KeysTable || s(table) == ArgsTable
  {
    && (forall x | x !in names :: t(x) == s(x))
    && forall j | 0 <= j < |names| ::
         t(names[j]) == if Hidden(names, table, j) then NilSlot else Index(s(table), j + 1).value
  }

  lemma {:induction false} PreludeFromTable(s: Scope, names: seq<string>, table: string)
    requires Distinct(names)
    requires s(table) == KeysTable || s(table) == ArgsTable
    ensures Prelude(s, BindingsOf(names, table)).Some? && Bound(s, Prelude(s, BindingsOf(names, table)).value, names, table)
  {
    if names != [] {
      var n := |names| - 1;
      var front, last := names[..n], names[n];
      assert names == front + [last];
      LastBinding(names, table);
      PreludeFromTable(s, front, table);
      var t := Prelude(s, BindingsOf(front, table)).value;
      TableAfter(s, t, front, table);
      BoundNext(s, t, front, last, table);
    }
  }

  /** What the table's name stands for after the bindings. */
  lemma TableAfter(s: Scope, t: Scope, names: seq<string>, table: string)
    requires s(table) == KeysTable || s(table) == ArgsTable
    requires Distinct(names) && Bound(s, t, names, table)
    ensures if Hidden(names, table, |names|) then t(table).KeySlot? || t(table).ArgSlot? else t(table) == s(table)
  {
    if Hidden(names, table, |names|) {
      var l :| 0 <= l < |names| && names[l] == table;
      assert !Hidden(names, table, l);
    }
  }

  lemma BoundNext(s: Scope, t: Scope, front: seq<string>, last: string, table: string)
    requires s(table) == KeysTable || s(table) == ArgsTable
    requires Distinct(front + [last]) && Bound(s, t, front, table)
    requires if Hidden(front, table, |front|) then t(table).KeySlot? || t(table).ArgSlot? else t(table) == s(table)
    ensures var slot := Index(t(table), |front| + 1);
            slot.Some? && Bound(s, Bind(t, last, slot.value), front + [last], table)
  {
    var names := front + [last];
    var u := Bind(t, last, Index(t(table), |front| + 1).value);
    assert names[|front|] == last;
    forall j | 0 <= j < |names|
      ensures u(names[j]) == if Hidden(names, table, j) then NilSlot else Index(s(table), j + 1).value
    {
      HiddenFront(front, last, table, j);
      if j < |front| {
        assert names[j] == front[j] && front[j] != last;
      }
    }
  }

  lemma HiddenFront(front: seq<string>, last: string, table: string, j: nat)
    requires j <= |front|
    ensures Hidden(front + [last], table, j) <==> Hidden(front, table, j)
  {
    assert forall l | 0 <= l < j :: (front + [last])[l] == front[l];
  }

  /** With a string in the table's place everything is nil, and it fails once that place is nil too. */
  lemma {:induction false} PreludeFromText(s: Scope, names: seq<string>, table: string)
    requires Distinct(names)
    requires s(table).KeySlot?
    ensures var t := Prelude(s, BindingsOf(names, table));
            && (t.None? <==> names != [] && table in names[..|names| - 1])
            && (t.Some? ==> (forall x | x !in names :: t.value(x) == s(x)) && forall x | x in names :: t.value(x) == NilSlot)
  {
    if names != [] {
      var n := |names| - 1;
      var front, last := names[..n], names[n];
      assert names == front + [last];
      LastBinding(names, table);
      PreludeFromText(s, front, table);
      if table in front {
        if front[n - 1] == table {
          assert forall l | 0 <= l < n - 1 :: front[l] != table;
        }
      }
    }
  }

  lemma {:induction false} PreludeFromNil(s: Scope, names: seq<string>, table: string)
    requires s(table) == NilSlot
    ensures Prelude(s, BindingsOf(names, table)) == if names == [] then Some(s) else None
  {
    if names != [] {
      LastBinding(names, table);
      PreludeFromNil(s, names[..|names| - 1], table);
    }
  }

  /** The first supplied key of that id. */
  function KeyFor(keys: seq<RedisKey>, id: string): (key: RedisKey)
    requires id in KeyIds(keys)
    ensures key in keys && key.id == id
  {
    if keys[0].id == id then keys[0]
    else
      assert KeyIds(keys)[1..] == KeyIds(keys[1..]);
      KeyFor(keys[1..], id)
  }

  lemma {:induction false} FirstOccurrencesMembers(names: seq<string>)
    ensures forall x :: x in FirstOccurrences(names) <==> x in names
  {
    if names != [] {
      FirstOccurrencesMembers(names[..|names| - 1]);
      assert names == names[..|names| - 1] + [names[|names| - 1]];
    }
  }

  lemma {:induction false} AllArgsMembers(scripts: seq<RedisScript>, i: nat, name: string)
    requires i < |scripts| && name in scripts[i].args
    ensures name in UniqueArgNames(scripts)
  {
    AllArgsContain(scripts, i, name);
    FirstOccurrencesMembers(AllArgs(scripts));
  }

  lemma {:induction false} AllArgsContain(scripts: seq<RedisScript>, i: nat, name: string)
    requires i < |scripts| && name in scripts[i].args
    ensures name in AllArgs(scripts)
  {
    if i < |scripts| - 1 {
      AllArgsContain(scripts[..|scripts| - 1], i, name);
    }
  }

  /** The kept keys: exactly the declared supplied ids, each with the key supplied first for it. */
  lemma {:induction false} UsedKeysAre(scripts: seq<RedisScript>, keys: seq<RedisKey>, id: string)
    ensures id in KeyIds(UsedKeys(scripts, keys)) <==> Declares(scripts, id) && id in KeyIds(keys)
    ensures forall j | 0 <= j < |UsedKeys(scripts, keys)| && UsedKeys(scripts, keys)[j].id == id ::
              id in KeyIds(keys) && UsedKeys(scripts, keys)[j] == KeyFor(keys, id)
  {
    if keys != [] {
      var front, last := keys[..|keys| - 1], keys[|keys| - 1];
      UsedKeysAre(scripts, front, id);
      assert keys == front + [last];
      KeyForFront(front, last, id);
      KeyIdsLast(front, last);
      KeyIdsLast(UsedKeys(scripts, front), last);
      hide KeyIds, KeyFor, Declares;
    }
  }

  lemma KeyIdsLast(front: seq<RedisKey>, last: RedisKey)
    ensures KeyIds(front + [last]) == KeyIds(front) + [last.id]
  {
  }

  lemma {:induction false} KeyForFront(front: seq<RedisKey>, last: RedisKey, id: string)
    ensures KeyIds(front + [last]) == KeyIds(front) + [last.id]
    ensures id in KeyIds(front) ==> KeyFor(front + [last], id) == KeyFor(front, id)
    ensures id !in KeyIds(front) && id == last.id ==> KeyFor(front + [last], id) == last
  {
    assert KeyIds(front + [last]) == KeyIds(front) + [last.id];
    if front == [] {
      assert front + [last] == [last];
    } else if front[0].id == id {
      assert KeyIds(front)[0] == id;
    } else {
      KeyForFront(front[1..], last, id);
      assert (front + [last])[1..] == front[1..] + [last];
      assert KeyIds(front)[1..] == KeyIds(front[1..]);
      assert KeyIds(front) == [front[0].id] + KeyIds(front[1..]);
    }
  }

  lemma RepeatStartsWith<T>(s: seq<T>, n: nat)
    requires n > 0
    ensures s <= Repeat(s, n)
  {
  }

  lemma {:induction false} RepeatMembers<T>(s: seq<T>, n: nat)
    ensures forall x | x in Repeat(s, n) :: x in s
  {
    if n > 0 {
      RepeatMembers(s, n - 1);
    }
  }

  lemma NamesDistinct(i: nat, j: nat)
    requires FunctionName(i) == FunctionName(j)
    ensures i == j
  {
    var pre, post := "____joinedRedisScripts_", "____";
    assert FunctionName(i)[|pre|..|FunctionName(i)| - |post|] == Itoa(i);
    assert FunctionName(j)[|pre|..|FunctionName(j)| - |post|] == Itoa(j);
    ItoaInjective(i, j);
  }

  // Which names a bundle binds.

  function Position(names: seq<string>, x: string): (i: nat)
    ensures i <= |names|
    ensures i < |names| ==> names[i] == x
    ensures forall j | 0 <= j < i :: names[j] != x
  {
    if names == [] || names[0] == x then 0 else 1 + Position(names[1..], x)
  }

  lemma PositionOf(names: seq<string>, i: nat)
    requires Distinct(names) && i < |names|
    ensures Position(names, names[i]) == i
  {
  }

  lemma PositionFront(front: seq<string>, last: string, x: string)
    ensures x in front ==> Position(front + [last], x) == Position(front, x) < |front|
    ensures x !in front && x == last ==> Position(front + [last], x) == |front|
  {
    var names := front + [last];
    assert forall j | 0 <= j < |front| :: names[j] == front[j];
    assert names[|front|] == last;
  }

  /** Each name once, in the order of the names' first occurrences. */
  lemma {:induction false} FirstOccurrencesOrdered(names: seq<string>)
    ensures var u := FirstOccurrences(names);
            && Distinct(u)
            && forall i, j | 0 <= i < j < |u| :: Position(names, u[i]) < Position(names, u[j])
  {
    if names != [] {
      var front, last := names[..|names| - 1], names[|names| - 1];
      assert names == front + [last];
      var u := FirstOccurrences(front);
      FirstOccurrencesOrdered(front);
      FirstOccurrencesMembers(front);
      forall x | x in u ensures Position(names, x) == Position(front, x) < |front| {
        PositionFront(front, last, x);
      }
      PositionFront(front, last, last);
    }
  }

  lemma {:induction false} UsedKeysDistinct(scripts: seq<RedisScript>, keys: seq<RedisKey>)
    ensures Distinct(KeyIds(UsedKeys(scripts, keys)))
  {
    if keys != [] {
      UsedKeysDistinct(scripts, keys[..|keys| - 1]);
      KeyIdsLast(UsedKeys(scripts, keys[..|keys| - 1]), keys[|keys| - 1]);
    }
  }

  /** The functions of the joined script as its text has them. */
  function Functions(scripts: seq<RedisScript>, kept: seq<string>, args: seq<string>): seq<LuaFunction> {
    AllAsRead(Joined(scripts, kept, args).functions)
  }

  lemma FunctionsAre(scripts: seq<RedisScript>, kept: seq<string>, args: seq<string>, i: nat)
    requires i < |scripts|
    ensures var fs := Functions(scripts, kept, args);
            |fs| == |scripts| && fs[i] == LuaFunction(FunctionName(i), BindingsOf(kept, "KEYS") + BindingsOf(args, "ARGV"), scripts[i].text)
  {
  }

  /** Outside a function: the functions defined so far, and what Redis provides. */
  lemma {:induction false} OuterIs(scripts: seq<RedisScript>, kept: seq<string>, args: seq<string>, n: nat, x: string)
    requires n <= |scripts|
    ensures var t := Outer(Functions(scripts, kept, args)[..n]);
            && (forall j: nat | j < n && x == FunctionName(j) :: t(x) == Routine(j))
            && ((forall j: nat | j < n :: x != FunctionName(j)) ==> t(x) == TABLES(x))
  {
    if n > 0 {
      hide FunctionName, Outer, Functions;
      OuterIs(scripts, kept, args, n - 1, x);
      OuterNext(scripts, kept, args, n);
      forall j: nat | j < n && x == FunctionName(j) && x == FunctionName(n - 1) ensures j == n - 1 {
        NamesDistinct(j, n - 1);
      }
    }
  }

  lemma OuterNext(scripts: seq<RedisScript>, kept: seq<string>, args: seq<string>, n: nat)
    requires 0 < n <= |scripts|
    ensures var fs := Functions(scripts, kept, args);
            Outer(fs[..n]) == Bind(Outer(fs[..n - 1]), FunctionName(n - 1), Routine(n - 1))
  {
    var fs := Functions(scripts, kept, args);
    assert fs[..n][..n - 1] == fs[..n - 1];
    assert fs[..n][n - 1].name == FunctionName(n - 1);
  }

  lemma TablesInView(scripts: seq<RedisScript>, kept: seq<string>, args: seq<string>, n: nat)
    requires n <= |scripts|
    ensures var t := Outer(Functions(scripts, kept, args)[..n]);
            t("KEYS") == KeysTable && t("ARGV") == ArgsTable
  {
    assert forall j: nat :: FunctionName(j)[0] == '_';
    assert forall j: nat :: FunctionName(j) != "KEYS" && FunctionName(j) != "ARGV";
    OuterIs(scripts, kept, args, n, "KEYS");
    OuterIs(scripts, kept, args, n, "ARGV");
  }

  /** What a name stands for in the body of the i-th function. */
  ghost function StandsFor(fs: seq<LuaFunction>, kept: seq<string>, args: seq<string>, i: nat, name: string): Slot
    requires i < |fs|
  {
    if name in args then
      if "ARGV" in kept || Hidden(args, "ARGV", Position(args, name)) then NilSlot else ArgSlot(Position(args, name))
    else if name in kept then
      if Hidden(kept, "KEYS", Position(kept, name)) then NilSlot else KeySlot(Position(kept, name))
    else Outer(fs[..i + 1])(name)
  }

  /** Some binding indexes nil. */
  ghost predicate Fails(kept: seq<string>, args: seq<string>) {
    && args != [] && "ARGV" in kept
    && (Hidden(kept, "KEYS", Position(kept, "ARGV")) || "ARGV" in args[..|args| - 1])
  }

  lemma InnerIs(scripts: seq<RedisScript>, kept: seq<string>, args: seq<string>, i: nat)
    requires Distinct(kept) && Distinct(args) && i < |scripts|
    ensures var fs := Functions(scripts, kept, args);
            && (Inner(fs, i).None? <==> Fails(kept, args))
            && (Inner(fs, i).Some? ==> forall x :: Inner(fs, i).value(x) == StandsFor(fs, kept, args, i, x))
  {
    hide Prelude, Outer, BindingsOf, Functions;
    var fs := Functions(scripts, kept, args);
    FunctionsAre(scripts, kept, args, i);
    var s := Outer(fs[..i + 1]);
    TablesInView(scripts, kept, args, i + 1);
    PreludeConcat(s, BindingsOf(kept, "KEYS"), BindingsOf(args, "ARGV"));
    PreludeFromTable(s, kept, "KEYS");
    var t := Prelude(s, BindingsOf(kept, "KEYS")).value;
    KeysPhase(s, t, kept);
    if "ARGV" !in kept {
      PreludeFromTable(t, args, "ARGV");
      ArgsPhase(t, Prelude(t, BindingsOf(args, "ARGV")).value, args);
    } else if Hidden(kept, "KEYS", Position(kept, "ARGV")) {
      PreludeFromNil(t, args, "ARGV");
    } else {
      PreludeFromText(t, args, "ARGV");
    }
  }

  lemma KeysPhase(s: Scope, t: Scope, kept: seq<string>)
    requires s("KEYS") == KeysTable && Distinct(kept) && Bound(s, t, kept, "KEYS")
    ensures forall x :: t(x) == if x !in kept then s(x)
                               else if Hidden(kept, "KEYS", Position(kept, x)) then NilSlot else KeySlot(Position(kept, x))
  {
    forall x ensures t(x) == if x !in kept then s(x)
                             else if Hidden(kept, "KEYS", Position(kept, x)) then NilSlot else KeySlot(Position(kept, x)) {
      if x in kept {
        assert kept[Position(kept, x)] == x;
      }
    }
  }

  lemma ArgsPhase(s: Scope, t: Scope, args: seq<string>)
    requires s("ARGV") == ArgsTable && Distinct(args) && Bound(s, t, args, "ARGV")
    ensures forall x :: t(x) == if x !in args then s(x)
                               else if Hidden(args, "ARGV", Position(args, x)) then NilSlot else ArgSlot(Position(args, x))
  {
    forall x ensures t(x) == if x !in args then s(x)
                             else if Hidden(args, "ARGV", Position(args, x)) then NilSlot else ArgSlot(Position(args, x)) {
      if x in args {
        assert args[Position(args, x)] == x;
      }
    }
  }

  // When every script finds its names.

  function Kept(scripts: seq<RedisScript>, keys: seq<RedisKey>): seq<string> {
    KeyIds(UsedKeys(scripts, keys))
  }

  function Bundle(scripts: seq<RedisScript>, keys: seq<RedisKey>): seq<LuaFunction> {
    Functions(scripts, Kept(scripts, keys), UniqueArgNames(scripts))
  }

  /** In the i-th script an argument name stands for the argument of that name, and a key name for the key supplied first under it. */
  ghost predicate Resolves(scripts: seq<RedisScript>, keys: seq<RedisKey>, i: nat, name: string)
    requires i < |scripts|
  {
    var kept, args, scope := UsedKeys(scripts, keys), UniqueArgNames(scripts), Inner(Bundle(scripts, keys), i);
    && scope.Some?
    && (name in scripts[i].args ==>
          exists j | 0 <= j < |args| :: args[j] == name && scope.value(name) == ArgSlot(j))
    && (name in scripts[i].keys ==>
          exists j | 0 <= j < |kept| ::
            name in KeyIds(keys) && kept[j] == KeyFor(keys, name) && scope.value(name) == KeySlot(j))
  }

  /**
    Every declared key is supplied and its name is nobody's argument; and no name of the
    bundle takes a table's name away while it is still needed.
  */
  ghost predicate Consistent(scripts: seq<RedisScript>, keys: seq<RedisKey>) {
    var kept, args := Kept(scripts, keys), UniqueArgNames(scripts);
    && (forall i, k | 0 <= i < |scripts| && k in scripts[i].keys :: k in KeyIds(keys) && k !in args)
    && ("KEYS" in kept ==> kept[|kept| - 1] == "KEYS")
    && ("ARGV" in kept ==> args == [])
    && ("ARGV" in args ==> args[|args| - 1] == "ARGV")
  }

  lemma BundleScope(scripts: seq<RedisScript>, keys: seq<RedisKey>, i: nat)
    requires i < |scripts|
    ensures var kept, args, fs := Kept(scripts, keys), UniqueArgNames(scripts), Bundle(scripts, keys);
            && Distinct(kept) && Distinct(args)
            && (Inner(fs, i).None? <==> Fails(kept, args))
            && (Inner(fs, i).Some? ==> forall x :: Inner(fs, i).value(x) == StandsFor(fs, kept, args, i, x))
  {
    UsedKeysDistinct(scripts, keys);
    FirstOccurrencesOrdered(AllArgs(scripts));
    InnerIs(scripts, Kept(scripts, keys), UniqueArgNames(scripts), i);
  }

  lemma ConsistentResolves(scripts: seq<RedisScript>, keys: seq<RedisKey>, i: nat, name: string)
    requires Consistent(scripts, keys) && i < |scripts|
    ensures Resolves(scripts, keys, i, name)
  {
    hide Inner, UsedKeys, UniqueArgNames, Joined;
    var kept, args, fs := Kept(scripts, keys), UniqueArgNames(scripts), Bundle(scripts, keys);
    BundleScope(scripts, keys, i);
    if name in scripts[i].args {
      AllArgsMembers(scripts, i, name);
      assert !Hidden(args, "ARGV", Position(args, name));
      assert args[Position(args, name)] == name;
    }
    if name in scripts[i].keys {
      KeyKept(scripts, keys, i, name);
      assert kept[Position(kept, name)] == name;
      assert !Hidden(kept, "KEYS", Position(kept, name));
      assert UsedKeys(scripts, keys)[Position(kept, name)] == KeyFor(keys, name);
    }
  }

  /** A declared key that is supplied is kept, with the key supplied first for it. */
  lemma KeyKept(scripts: seq<RedisScript>, keys: seq<RedisKey>, i: nat, name: string)
    requires i < |scripts| && name in scripts[i].keys && name in KeyIds(keys)
    ensures name in Kept(scripts, keys)
    ensures forall j | 0 <= j < |Kept(scripts, keys)| && Kept(scripts, keys)[j] == name ::
              UsedKeys(scripts, keys)[j] == KeyFor(keys, name)
  {
    assert Declares(scripts, name);
    UsedKeysAre(scripts, keys, name);
  }

  lemma {:induction false} AllArgsDeclared(scripts: seq<RedisScript>, name: string) returns (i: nat)
    requires name in AllArgs(scripts)
    ensures i < |scripts| && name in scripts[i].args
  {
    if name in scripts[|scripts| - 1].args {
      i := |scripts| - 1;
    } else {
      i := AllArgsDeclared(scripts[..|scripts| - 1], name);
    }
  }

  ghost predicate AllResolve(scripts: seq<RedisScript>, keys: seq<RedisKey>) {
    forall i: nat, name | i < |scripts| && (name in scripts[i].args || name in scripts[i].keys) ::
      Resolves(scripts, keys, i, name)
  }

  lemma KeyResolved(scripts: seq<RedisScript>, keys: seq<RedisKey>, i: nat, name: string)
    requires i < |scripts| && name in scripts[i].keys && Resolves(scripts, keys, i, name)
    ensures name in KeyIds(keys) && name !in UniqueArgNames(scripts)
    ensures var kept := Kept(scripts, keys); name in kept ==> !Hidden(kept, "KEYS", Position(kept, name))
  {
    hide Inner, UsedKeys, UniqueArgNames, Joined;
    BundleScope(scripts, keys, i);
  }

  lemma ArgResolved(scripts: seq<RedisScript>, keys: seq<RedisKey>, i: nat, name: string)
    requires i < |scripts| && name in scripts[i].args && Resolves(scripts, keys, i, name)
    ensures var args := UniqueArgNames(scripts);
            name in args && "ARGV" !in Kept(scripts, keys) && !Hidden(args, "ARGV", Position(args, name))
  {
    AllArgsMembers(scripts, i, name);
    hide Inner, UsedKeys, UniqueArgNames, Joined;
    BundleScope(scripts, keys, i);
  }

  lemma KeysLast(scripts: seq<RedisScript>, keys: seq<RedisKey>)
    requires AllResolve(scripts, keys)
    ensures var kept := Kept(scripts, keys); "KEYS" in kept ==> kept[|kept| - 1] == "KEYS"
  {
    hide Inner, UsedKeys, UniqueArgNames, Joined, Resolves;
    var kept := Kept(scripts, keys);
    if l :| 0 <= l < |kept| - 1 && kept[l] == "KEYS" {
      var name := kept[l + 1];
      UsedKeysAre(scripts, keys, name);
      var i :| 0 <= i < |scripts| && name in scripts[i].keys;
      KeyResolved(scripts, keys, i, name);
      UsedKeysDistinct(scripts, keys);
      PositionOf(kept, l + 1);
      assert Hidden(kept, "KEYS", l + 1);
    }
  }

  lemma ArgvLast(scripts: seq<RedisScript>, keys: seq<RedisKey>)
    requires AllResolve(scripts, keys)
    ensures var args := UniqueArgNames(scripts);
            ("ARGV" in Kept(scripts, keys) ==> args == []) && ("ARGV" in args ==> args[|args| - 1] == "ARGV")
  {
    var args := UniqueArgNames(scripts);
    FirstOccurrencesMembers(AllArgs(scripts));
    FirstOccurrencesOrdered(AllArgs(scripts));
    hide Inner, UsedKeys, Joined, Resolves;
    if args != [] {
      var i := AllArgsDeclared(scripts, args[0]);
      ArgResolved(scripts, keys, i, args[0]);
    }
    if l :| 0 <= l < |args| - 1 && args[l] == "ARGV" {
      var i := AllArgsDeclared(scripts, args[l + 1]);
      ArgResolved(scripts, keys, i, args[l + 1]);
      PositionOf(args, l + 1);
      assert Hidden(args, "ARGV", l + 1);
    }
  }

  /** Every script finds what it declares exactly when the bundle is consistent. */
  lemma NamesResolve(scripts: seq<RedisScript>, keys: seq<RedisKey>)
    ensures AllResolve(scripts, keys) <==> Consistent(scripts, keys)
  {
    hide Inner, UsedKeys, UniqueArgNames, Joined, Resolves;
    if Consistent(scripts, keys) {
      forall i: nat, name | i < |scripts| && (name in scripts[i].args || name in scripts[i].keys)
        ensures Resolves(scripts, keys, i, name)
      {
        ConsistentResolves(scripts, keys, i, name);
      }
    }
    if AllResolve(scripts, keys) {
      forall i, k | 0 <= i < |scripts| && k in scripts[i].keys
        ensures k in KeyIds(keys) && k !in UniqueArgNames(scripts)
      {
        KeyResolved(scripts, keys, i, k);
      }
      KeysLast(scripts, keys);
      ArgvLast(scripts, keys);
    }
  }

  /** A key named KEYS hides the table from the key after it, although both are declared and supplied. */
  lemma KeyNamedKeys(text: string, v: string, w: string)
    ensures var scripts := [RedisScript(text, [], ["KEYS", "k2"])];
            var keys := [StaticKey("KEYS", v), StaticKey("k2", w)];
            && Inner(Bundle(scripts, keys), 0).Some?
            && Inner(Bundle(scripts, keys), 0).value("k2") == NilSlot
            && !AllResolve(scripts, keys)
  {
    var scripts := [RedisScript(text, [], ["KEYS", "k2"])];
    var keys := [StaticKey("KEYS", v), StaticKey("k2", w)];
    BothKept(scripts, keys);
    hide Inner, UsedKeys, UniqueArgNames, Joined;
    var kept := Kept(scripts, keys);
    assert kept == ["KEYS", "k2"] && "KEYS" != "k2";
    BundleScope(scripts, keys, 0);
    PositionOf(kept, 1);
    assert kept[0] == "KEYS" && Hidden(kept, "KEYS", 1);
    NamesResolve(scripts, keys);
  }

  lemma BothKept(scripts: seq<RedisScript>, keys: seq<RedisKey>)
    requires |scripts| == 1 && |keys| == 2 && scripts[0].args == [] && scripts[0].keys == KeyIds(keys)
    requires keys[0].id != keys[1].id
    ensures UsedKeys(scripts, keys) == keys && UniqueArgNames(scripts) == []
  {
    assert keys[0].id == scripts[0].keys[0] && keys[1].id == scripts[0].keys[1];
    assert Declares(scripts, keys[0].id) && Declares(scripts, keys[1].id);
    var one := keys[..1];
    assert keys == one + [keys[1]] && one == [keys[0]] && one[..0] == [];
    assert UsedKeys(scripts, []) == [] && KeyIds([]) == [];
    assert UsedKeys(scripts, one) == [] + [keys[0]];
    assert KeyIds(one) == [keys[0].id];
    assert UsedKeys(scripts, keys) == one + [keys[1]];
    assert scripts[..0] == [] && AllArgs(scripts) == [];
  }

  // What the scripts see, and what running them means.

  datatype Value = Nil | Text(text: string) | Table(items: seq<string>) | Closure(i: nat) | Global(name: string)

  /** The value of every name, global ones included. */
  type Env = string -> Value

  function At(list: seq<string>, i: nat): Value {
    if i < |list| then Text(list[i]) else Nil
  }

  function Locals(s: Scope, keys: seq<string>, argv: seq<string>): Env {
    name => match s(name)
            case KeySlot(i) => At(keys, i)
            case ArgSlot(i) => At(argv, i)
            case KeysTable => Table(keys)
            case ArgsTable => Table(argv)
            case NilSlot => Nil
            case Routine(i) => Closure(i)
            case Free => Global(name)
  }

  /** What a script is meant to see: its own names bound to the values supplied for them, and everything else as it is. */
  function Intended(script: RedisScript, keys: seq<RedisKey>, args: Arguments): Env {
    name => if name in script.args then (if name in args then Text(args[name]) else Nil)
            else if name in script.keys then
              (if name in KeyIds(keys) then Text(KeyFor(keys, name).Value(args)) else Nil)
            else Global(name)
  }

  ghost predicate Declared(script: RedisScript, name: string) {
    name in script.args || name in script.keys
  }

  /** The names not its own that mean something else to the i-th script in the bundle than alone. */
  ghost function Captured(scripts: seq<RedisScript>, keys: seq<RedisKey>, i: nat): iset<string>
    requires i < |scripts|
  {
    iset x | !Declared(scripts[i], x) && (
      || x in Kept(scripts, keys) || x in UniqueArgNames(scripts) || x == "KEYS" || x == "ARGV"
      || exists j: nat :: j <= i && x == FunctionName(j))
  }

  /** In a consistent bundle a name a script does not declare is untouched exactly if it is not captured. */
  lemma CapturedExactly(scripts: seq<RedisScript>, keys: seq<RedisKey>, i: nat, name: string)
    requires i < |scripts| && Consistent(scripts, keys) && !Declared(scripts[i], name)
    ensures var scope := Inner(Bundle(scripts, keys), i);
            scope.Some? && (scope.value(name) == Free <==> name !in Captured(scripts, keys, i))
  {
    BundleScope(scripts, keys, i);
    OuterIs(scripts, Kept(scripts, keys), UniqueArgNames(scripts), i + 1, name);
    TablesInView(scripts, Kept(scripts, keys), UniqueArgNames(scripts), i + 1);
    hide Inner, UsedKeys, UniqueArgNames, Joined, Outer, FunctionName;
  }

  ghost predicate AgreeOff(a: Env, b: Env, names: iset<string>) {
    forall x | x !in names :: a(x) == b(x)
  }

  /** Although the argument list is sent once per script, each script sees what it is meant to, but for captured names. */
  lemma LocalsAreIntended(scripts: seq<RedisScript>, keys: seq<RedisKey>, args: Arguments, i: nat)
    requires i < |scripts| && Consistent(scripts, keys)
    requires forall x | x in UniqueArgNames(scripts) :: x in args
    ensures forall x | x in Repeat(UniqueArgNames(scripts), |scripts|) :: x in args
    ensures var scope := Inner(Bundle(scripts, keys), i);
            && scope.Some?
            && AgreeOff(Locals(scope.value, KeyValues(UsedKeys(scripts, keys), args),
                               Supplied(Repeat(UniqueArgNames(scripts), |scripts|), args)),
                        Intended(scripts[i], keys, args), Captured(scripts, keys, i))
  {
    var kept, argNames := UsedKeys(scripts, keys), UniqueArgNames(scripts);
    RepeatMembers(argNames, |scripts|);
    RepeatStartsWith(argNames, |scripts|);
    BundleScope(scripts, keys, i);
    var scope := Inner(Bundle(scripts, keys), i);
    var values, argv := KeyValues(kept, args), Supplied(Repeat(argNames, |scripts|), args);
    hide Inner, UsedKeys, UniqueArgNames, Joined, Repeat, FunctionName;
    forall x | x !in Captured(scripts, keys, i)
      ensures Locals(scope.value, values, argv)(x) == Intended(scripts[i], keys, args)(x)
    {
      if Declared(scripts[i], x) {
        ConsistentResolves(scripts, keys, i, x);
        assert x in scripts[i].keys ==> x in KeyIds(keys) && x !in argNames;
        if x in scripts[i].args {
          AllArgsMembers(scripts, i, x);
        }
      } else {
        CapturedExactly(scripts, keys, i, x);
      }
    }
  }

  /** A run ends with a result, or with an error and what was done until then. */
  datatype Run<DB, R> = Done(db: DB, result: R) | Error(db: DB)

  /** What a script's text does, given what its names mean. It may return any number of values; None is nil. */
  type Meaning<!DB(!new), !R(!new)> = (string, Env, DB) -> Run<DB, seq<Option<R>>>

  /** The calls are made left to right. */
  function RunCalls<DB(!new), R(!new)>(run: Meaning<DB, R>, fs: seq<LuaFunction>, calls: seq<string>,
                                       keys: seq<string>, argv: seq<string>, db: DB): Run<DB, seq<seq<Option<R>>>>
  {
    if calls == [] then Done(db, [])
    else
      match RunCalls(run, fs, calls[..|calls| - 1], keys, argv, db)
      case Error(before) => Error(before)
      case Done(before, lists) =>
        match Outer(fs)(calls[|calls| - 1])
        case Routine(i) => if i < |fs| then RunBody(run, fs, i, keys, argv, before, lists) else Error(before)
        case _ => Error(before)
  }

  function RunBody<DB(!new), R(!new)>(run: Meaning<DB, R>, fs: seq<LuaFunction>, i: nat, keys: seq<string>, argv: seq<string>,
                                      db: DB, lists: seq<seq<Option<R>>>): Run<DB, seq<seq<Option<R>>>>
    requires i < |fs|
  {
    match Inner(fs, i)
    case None => Error(db)
    case Some(scope) => Then(run(fs[i].body, Locals(scope, keys, argv), db), lists)
  }

  function Then<DB, R>(r: Run<DB, seq<Option<R>>>, lists: seq<seq<Option<R>>>): Run<DB, seq<seq<Option<R>>>> {
    match r
    case Error(after) => Error(after)
    case Done(after, list) => Done(after, lists + [list])
  }

  /** The scripts one after the other, each seeing what it is meant to, up to the first error. */
  function RunParts<DB(!new), R(!new)>(run: Meaning<DB, R>, scripts: seq<RedisScript>, keys: seq<RedisKey>, args: Arguments,
                                       db: DB): Run<DB, seq<seq<Option<R>>>>
  {
    if scripts == [] then Done(db, [])
    else
      match RunParts(run, scripts[..|scripts| - 1], keys, args, db)
      case Error(before) => Error(before)
      case Done(before, lists) =>
        var script := scripts[|scripts| - 1];
        Then(run(script.text, Intended(script, keys, args), before), lists)
  }

  function FirstOf<R>(list: seq<Option<R>>): Option<R> {
    if list == [] then None else list[0]
  }

  function Firsts<R>(lists: seq<seq<Option<R>>>): seq<Option<R>> {
    seq(|lists|, i requires 0 <= i < |lists| => FirstOf(lists[i]))
  }

  /** Lua's `{f0(), f1(), ...}`: the first result of every call, and of the last call all of them. */
  function Spread<R>(lists: seq<seq<Option<R>>>): seq<Option<R>> {
    if lists == [] then [] else Firsts(lists[..|lists| - 1]) + lists[|lists| - 1]
  }

  function RunJoined<DB(!new), R(!new)>(run: Meaning<DB, R>, p: LuaProgram, keys: seq<string>, argv: seq<string>, db: DB)
    : Run<DB, seq<Option<R>>>
  {
    match RunCalls(run, p.functions, p.calls, keys, argv, db)
    case Error(after) => Error(after)
    case Done(after, lists) => Done(after, Spread(lists))
  }

  /** The text does the same whatever the given names mean. */
  ghost predicate Ignores<DB(!new), R(!new)>(run: Meaning<DB, R>, text: string, names: iset<string>) {
    forall a: Env, b: Env, db: DB | AgreeOff(a, b, names) :: run(text, a, db) == run(text, b, db)
  }

  /** Each call finds its own function. */
  lemma FindOwn(scripts: seq<RedisScript>, kept: seq<string>, args: seq<string>, i: nat)
    requires i < |scripts|
    ensures Outer(Functions(scripts, kept, args))(FunctionName(i)) == Routine(i)
  {
    var fs := Functions(scripts, kept, args);
    assert fs[..|scripts|] == fs;
    OuterIs(scripts, kept, args, |scripts|, FunctionName(i));
  }

  lemma {:induction false} CallsMeanParts<DB(!new), R(!new)>(run: Meaning<DB, R>, scripts: seq<RedisScript>, keys: seq<RedisKey>,
                                                             args: Arguments, db: DB, calls: seq<string>, n: nat)
    requires n <= |scripts| && Consistent(scripts, keys)
    requires forall x | x in UniqueArgNames(scripts) :: x in args
    requires forall x | x in Repeat(UniqueArgNames(scripts), |scripts|) :: x in args
    requires forall i | 0 <= i < |scripts| :: Ignores(run, scripts[i].text, Captured(scripts, keys, i))
    requires |calls| == |scripts| && forall i | 0 <= i < |calls| :: calls[i] == FunctionName(i)
    ensures RunCalls(run, Bundle(scripts, keys), calls[..n], KeyValues(UsedKeys(scripts, keys), args),
                     Supplied(Repeat(UniqueArgNames(scripts), |scripts|), args), db)
            == RunParts(run, scripts[..n], keys, args, db)
  {
    hide Captured, Locals, Intended, Inner, Outer, UsedKeys, UniqueArgNames, FunctionName, KeyValues, Supplied, Repeat;
    hide Consistent, Bundle, Ignores, RunBody, Then;
    if n > 0 {
      CallsMeanParts(run, scripts, keys, args, db, calls, n - 1);
      assert calls[..n][..n - 1] == calls[..n - 1] && scripts[..n][..n - 1] == scripts[..n - 1];
      CallFindsOwn(scripts, keys, n - 1);
      match RunParts(run, scripts[..n - 1], keys, args, db) {
        case Error(_) =>
        case Done(before, lists) => BodyMeansPart(run, scripts, keys, args, before, lists, n - 1);
      }
    }
  }

  lemma CallFindsOwn(scripts: seq<RedisScript>, keys: seq<RedisKey>, i: nat)
    requires i < |scripts|
    ensures |Bundle(scripts, keys)| == |scripts| && Outer(Bundle(scripts, keys))(FunctionName(i)) == Routine(i)
  {
    FindOwn(scripts, Kept(scripts, keys), UniqueArgNames(scripts), i);
  }

  /** The i-th function does what the i-th script is meant to do. */
  lemma BodyMeansPart<DB(!new), R(!new)>(run: Meaning<DB, R>, scripts: seq<RedisScript>, keys: seq<RedisKey>, args: Arguments,
                                         db: DB, lists: seq<seq<Option<R>>>, i: nat)
    requires i < |scripts| && Consistent(scripts, keys)
    requires forall x | x in UniqueArgNames(scripts) :: x in args
    requires forall x | x in Repeat(UniqueArgNames(scripts), |scripts|) :: x in args
    requires Ignores(run, scripts[i].text, Captured(scripts, keys, i))
    ensures i < |Bundle(scripts, keys)|
    ensures RunBody(run, Bundle(scripts, keys), i, KeyValues(UsedKeys(scripts, keys), args),
                    Supplied(Repeat(UniqueArgNames(scripts), |scripts|), args), db, lists)
            == Then(run(scripts[i].text, Intended(scripts[i], keys, args), db), lists)
  {
    LocalsAreIntended(scripts, keys, args, i);
    FunctionsAre(scripts, Kept(scripts, keys), UniqueArgNames(scripts), i);
    hide Captured, Locals, Intended, Inner, UsedKeys, UniqueArgNames, KeyValues, Supplied, Repeat, Consistent, Functions, AgreeOff;
  }

  lemma FunctionNameIsWord(i: nat)
    ensures Word(FunctionName(i))
  {
    ItoaDigits(i);
    assert forall j | 0 <= j < 23 :: WordChar("____joinedRedisScripts_"[j]);
  }

  /** The text of the joined script, read back. */
  lemma JoinedRead(scripts: seq<RedisScript>, keys: seq<RedisKey>)
    requires Words(Kept(scripts, keys)) && Words(UniqueArgNames(scripts))
    ensures var p := Joined(scripts, Kept(scripts, keys), UniqueArgNames(scripts));
            ReadProgram(Render(p), seq(|scripts|, i requires 0 <= i < |scripts| => scripts[i].text)) ==
            Some(LuaProgram(Bundle(scripts, keys), p.calls))
  {
    hide Render, ReadProgram, Word, FunctionName, UniqueArgNames, Kept;
    var p := Joined(scripts, Kept(scripts, keys), UniqueArgNames(scripts));
    forall i: nat ensures Word(FunctionName(i)) {
      FunctionNameIsWord(i);
    }
    assert Words(p.calls) && Readable(p.functions);
    ProgramRead(p);
    assert Bodies(p.functions) == seq(|scripts|, i requires 0 <= i < |scripts| => scripts[i].text);
  }

  /**
    The text of the joined script, read as Lua reads it and run on the keys and arguments
    computed for it, has the effect of the parts run one after the other, and returns the
    list of their results, if the bundle is consistent and no script depends on a name of the
    bundle that it does not declare.
  */
  lemma JoinedMeansParts<DB(!new), R(!new)>(run: Meaning<DB, R>, scripts: seq<RedisScript>, keys: seq<RedisKey>,
                                            args: Arguments, db: DB)
    requires Consistent(scripts, keys)
    requires Words(Kept(scripts, keys)) && Words(UniqueArgNames(scripts))
    requires forall x | x in UniqueArgNames(scripts) :: x in args
    requires forall i | 0 <= i < |scripts| :: Ignores(run, scripts[i].text, Captured(scripts, keys, i))
    ensures var kept, argNames := UsedKeys(scripts, keys), UniqueArgNames(scripts);
            var p := ReadProgram(Render(Joined(scripts, KeyIds(kept), argNames)),
                                 seq(|scripts|, i requires 0 <= i < |scripts| => scripts[i].text));
            && p.Some?
            && (forall x | x in Repeat(argNames, |scripts|) :: x in args)
            && RunJoined(run, p.value, KeyValues(kept, args), Supplied(Repeat(argNames, |scripts|), args), db) ==
               match RunParts(run, scripts, keys, args, db)
               case Error(after) => Error(after)
               case Done(after, lists) => Done(after, Spread(lists))
  {
    var kept, argNames := UsedKeys(scripts, keys), UniqueArgNames(scripts);
    var p := Joined(scripts, KeyIds(kept), argNames);
    JoinedRead(scripts, keys);
    RepeatMembers(argNames, |scripts|);
    CallsMeanParts(run, scripts, keys, args, db, p.calls, |scripts|);
    assert p.calls[..|scripts|] == p.calls && scripts[..|scripts|] == scripts;
  }

  /** The list has one result for each script exactly if the last script returns one. */
  lemma OneResultEach<R>(lists: seq<seq<Option<R>>>)
    ensures Spread(lists) == Firsts(lists) <==> lists == [] || |lists[|lists| - 1]| == 1
  {
    if lists != [] {
      var front, last := lists[..|lists| - 1], lists[|lists| - 1];
      assert Firsts(lists) == Firsts(front) + [FirstOf(last)];
      assert |last| == 1 ==> last == [FirstOf(last)];
    }
  }
}

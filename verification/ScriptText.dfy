/**
  Reading a joined script back from its text, as Lua does. The bodies of the scripts are
  given, since only Lua's own grammar could tell where one of them ends.
*/
module ScriptText {
  import opened Basics
  import opened Decimal
  import opened Scripts

  /** `local name = table[index];` */
  datatype Binding = Binding(name: string, table: string, index: int)

  datatype LuaFunction = LuaFunction(name: string, bindings: seq<Binding>, body: string)

  datatype LuaProgram = LuaProgram(functions: seq<LuaFunction>, calls: seq<string>)

  // The reader.

  predicate WordChar(c: char) {
    'a' <= c <= 'z' || 'A' <= c <= 'Z' || '0' <= c <= '9' || c == '_'
  }

  predicate DigitChar(c: char) {
    '0' <= c <= '9'
  }

  /** How many characters at the start of the text are of the kind. */
  function Span(text: string, kind: char -> bool): (n: nat)
    ensures n <= |text|
  {
    if text == "" || !kind(text[0]) then 0 else 1 + Span(text[1..], kind)
  }

  function Skip(text: string, literal: string): Option<string> {
    if literal <= text then Some(text[|literal|..]) else None
  }

  function ReadBinding(text: string): Option<(Binding, string)> {
    match Skip(text, "local ")
    case None => None
    case Some(a) =>
      var n := Span(a, WordChar);
      match Skip(a[n..], " = ")
      case None => None
      case Some(b) =>
        var m := Span(b, WordChar);
        match Skip(b[m..], "[")
        case None => None
        case Some(c) =>
          var k := Span(c, DigitChar);
          match Skip(c[k..], "];\n")
          case None => None
          case Some(rest) => Some((Binding(a[..n], b[..m], Atoi(c[..k])), rest))
  }

  function ReadBindings(text: string): (seq<Binding>, string)
    decreases |text|
  {
    match ReadBinding(text)
    case None => ([], text)
    case Some((b, rest)) =>
      if |rest| >= |text| then ([], text)
      else
        var (bs, end) := ReadBindings(rest);
        ([b] + bs, end)
  }

  function ReadFunction(text: string, body: string): Option<(LuaFunction, string)> {
    match Skip(text, "local function ")
    case None => None
    case Some(a) =>
      var n := Span(a, WordChar);
      match Skip(a[n..], "()\n")
      case None => None
      case Some(b) =>
        var (keys, c) := ReadBindings(b);
        match Skip(c, "\n")
        case None => None
        case Some(d) =>
          var (args, e) := ReadBindings(d);
          match Skip(e, "\n" + body + "\nend")
          case None => None
          case Some(rest) => Some((LuaFunction(a[..n], keys + args, body), rest))
  }

  function ReadFunctions(text: string, bodies: seq<string>): Option<(seq<LuaFunction>, string)> {
    if bodies == [] then Some(([], text))
    else
      match ReadFunctions(text, bodies[..|bodies| - 1])
      case None => None
      case Some((fs, a)) =>
        match if |bodies| == 1 then Some(a) else Skip(a, "\n")
        case None => None
        case Some(b) =>
          match ReadFunction(b, bodies[|bodies| - 1])
          case None => None
          case Some((f, rest)) => Some((fs + [f], rest))
  }

  function ReadCalls(text: string, n: nat): Option<(seq<string>, string)> {
    if n == 0 then Some(([], text))
    else
      match ReadCalls(text, n - 1)
      case None => None
      case Some((cs, a)) =>
        match if n == 1 then Some(a) else Skip(a, ", ")
        case None => None
        case Some(b) =>
          var k := Span(b, WordChar);
          match Skip(b[k..], "()")
          case None => None
          case Some(rest) => Some((cs + [b[..k]], rest))
  }

  function ReadProgram(text: string, bodies: seq<string>): Option<LuaProgram> {
    match ReadFunctions(text, bodies)
    case None => None
    case Some((fs, a)) =>
      match Skip(a, "\nreturn {")
      case None => None
      case Some(b) =>
        match ReadCalls(b, |bodies|)
        case None => None
        case Some((cs, c)) => if c == "}\n" then Some(LuaProgram(fs, cs)) else None
  }

  // What it reads.

  /** The bindings of the names to the table's entries, counted from 1. */
  function BindingsOf(names: seq<string>, table: string): seq<Binding> {
    seq(|names|, j requires 0 <= j < |names| => Binding(names[j], table, j + 1))
  }

  predicate Word(name: string) {
    name != "" && forall i | 0 <= i < |name| :: WordChar(name[i])
  }

  ghost predicate Words(names: seq<string>) {
    forall i | 0 <= i < |names| :: Word(names[i])
  }

  lemma {:induction false} SpanOf(word: string, rest: string, kind: char -> bool)
    requires forall i | 0 <= i < |word| :: kind(word[i])
    requires rest != "" ==> !kind(rest[0])
    ensures Span(word + rest, kind) == |word|
    ensures (word + rest)[..|word|] == word && (word + rest)[|word|..] == rest
  {
    if word == "" {
      assert word + rest == rest;
    } else {
      assert (word + rest)[1..] == word[1..] + rest;
      SpanOf(word[1..], rest, kind);
    }
  }

  lemma SkipOf(literal: string, rest: string)
    ensures Skip(literal + rest, literal) == Some(rest)
  {
    assert literal <= literal + rest;
    assert (literal + rest)[|literal|..] == rest;
  }

  lemma {:induction false} ItoaDigits(n: nat)
    ensures forall i | 0 <= i < |Itoa(n)| :: DigitChar(Itoa(n)[i])
  {
    assert forall d | 0 <= d < 10 :: DigitChar(DIGITS[d]);
    if n >= 10 {
      ItoaDigits(n / 10);
    }
  }

  function RenderBinding(name: string, table: string, n: nat): string {
    "local " + name + " = " + table + "[" + Itoa(n) + "];\n"
  }

  lemma BindingRead(name: string, table: string, n: nat, rest: string)
    requires Word(name) && Word(table)
    ensures ReadBinding(RenderBinding(name, table, n) + rest) == Some((Binding(name, table, n), rest))
  {
    hide Span, Skip, Itoa, Atoi;
    var f := "];\n" + rest;
    var e := Itoa(n) + f;
    var d := "[" + e;
    var c := table + d;
    var b := " = " + c;
    var a := name + b;
    assert RenderBinding(name, table, n) + rest == "local " + a;
    SkipOf("local ", a);
    SpanOf(name, b, WordChar);
    SkipOf(" = ", c);
    SpanOf(table, d, WordChar);
    SkipOf("[", e);
    ItoaDigits(n);
    SpanOf(Itoa(n), f, DigitChar);
    SkipOf("];\n", rest);
    AtoiItoa(n);
  }

  /** A block of bindings, whatever follows it. */
  lemma {:induction false} BindingsRead(names: seq<string>, table: string, rest: string)
    requires Words(names) && Word(table)
    ensures ReadBindings(RenderBindings(names, table) + rest) == (BindingsOf(names, table) + ReadBindings(rest).0, ReadBindings(rest).1)
  {
    hide ReadBindings, RenderBindings, RenderBinding, BindingsOf, Word;
    if names == [] {
      NothingRendered(table, rest);
    } else {
      var n := |names|;
      var front, last := names[..n - 1], names[n - 1];
      LastRendered(names, table, rest);
      BindingsRead(front, table, RenderBinding(last, table, n) + rest);
      OneRead(last, table, n, rest);
      BindingsGrow(names, table, ReadBindings(rest).0);
    }
  }

  lemma NothingRendered(table: string, rest: string)
    ensures RenderBindings([], table) + rest == rest && forall more :: BindingsOf([], table) + more == more
  {
  }

  lemma BindingsGrow(names: seq<string>, table: string, more: seq<Binding>)
    requires names != []
    ensures var n := |names|;
            BindingsOf(names, table) + more == BindingsOf(names[..n - 1], table) + ([Binding(names[n - 1], table, n)] + more)
  {
    var n := |names|;
    assert BindingsOf(names, table) == BindingsOf(names[..n - 1], table) + [Binding(names[n - 1], table, n)];
  }

  lemma LastRendered(names: seq<string>, table: string, rest: string)
    requires names != []
    ensures var n := |names|;
            RenderBindings(names, table) + rest ==
            RenderBindings(names[..n - 1], table) + (RenderBinding(names[n - 1], table, n) + rest)
  {
    hide Itoa;
    var n := |names|;
    var front := RenderBindings(names[..n - 1], table);
    var line := RenderBinding(names[n - 1], table, n);
    assert RenderBindings(names, table) == front + line;
    assert (front + line) + rest == front + (line + rest);
  }

  lemma OneRead(name: string, table: string, n: nat, rest: string)
    requires Word(name) && Word(table)
    ensures ReadBindings(RenderBinding(name, table, n) + rest) == ([Binding(name, table, n)] + ReadBindings(rest).0, ReadBindings(rest).1)
  {
    BindingRead(name, table, n, rest);
    assert |RenderBinding(name, table, n)| > 0;
    hide ReadBinding, RenderBinding, Itoa;
  }

  /** A block ends at an empty line. */
  lemma BlockRead(names: seq<string>, table: string, rest: string)
    requires Words(names) && Word(table)
    ensures ReadBindings(RenderBindings(names, table) + ("\n" + rest)) == (BindingsOf(names, table), "\n" + rest)
  {
    hide RenderBindings, BindingsOf;
    BindingsRead(names, table, "\n" + rest);
    NoBinding(rest);
    assert BindingsOf(names, table) + [] == BindingsOf(names, table);
  }

  lemma NoBinding(rest: string)
    ensures ReadBindings("\n" + rest) == ([], "\n" + rest)
  {
    hide Span;
    assert ("\n" + rest)[0] == '\n';
    assert "local "[0] == 'l';
    assert Skip("\n" + rest, "local ") == None;
  }

  /** The function as Lua has it. */
  function AsRead(f: Function): LuaFunction {
    LuaFunction(f.name, BindingsOf(f.keyNames, "KEYS") + BindingsOf(f.argNames, "ARGV"), f.body)
  }

  lemma TableWords()
    ensures Word("KEYS") && Word("ARGV")
  {
  }

  lemma NameSpan(name: string, rest: string)
    requires Word(name) && rest != "" && !WordChar(rest[0])
    ensures var k := Span(name + rest, WordChar);
            (name + rest)[..k] == name && (name + rest)[k..] == rest
  {
    SpanOf(name, rest, WordChar);
  }

  lemma FunctionRead(f: Function, rest: string)
    requires Word(f.name) && Words(f.keyNames) && Words(f.argNames)
    ensures ReadFunction(RenderFunction(f) + rest, f.body) == Some((AsRead(f), rest))
  {
    hide Span, Skip, ReadBindings, RenderBindings, BindingsOf, Word, Words;
    var end := "\n" + f.body + "\nend";
    var e := f.body + "\nend" + rest;
    var d := RenderBindings(f.argNames, "ARGV") + ("\n" + e);
    var b := RenderBindings(f.keyNames, "KEYS") + ("\n" + d);
    var a := f.name + ("()\n" + b);
    assert RenderFunction(f) + rest == "local function " + a;
    SkipOf("local function ", a);
    NameSpan(f.name, "()\n" + b);
    TableWords();
    SkipOf("()\n", b);
    BlockRead(f.keyNames, "KEYS", d);
    SkipOf("\n", d);
    BlockRead(f.argNames, "ARGV", e);
    assert "\n" + e == end + rest;
    SkipOf(end, rest);
  }

  function Bodies(fs: seq<Function>): seq<string> {
    seq(|fs|, i requires 0 <= i < |fs| => fs[i].body)
  }

  function AllAsRead(fs: seq<Function>): seq<LuaFunction> {
    seq(|fs|, i requires 0 <= i < |fs| => AsRead(fs[i]))
  }

  ghost predicate Readable(fs: seq<Function>) {
    forall i | 0 <= i < |fs| :: Word(fs[i].name) && Words(fs[i].keyNames) && Words(fs[i].argNames)
  }

  lemma {:induction false} FunctionsRead(fs: seq<Function>, rest: string)
    requires Readable(fs)
    ensures ReadFunctions(RenderFunctions(fs) + rest, Bodies(fs)) == Some((AllAsRead(fs), rest))
  {
    hide ReadFunctions, ReadFunction, RenderFunction, RenderFunctions, AsRead, Skip, Word, Words;
    if fs == [] {
      NoneRead(rest);
    } else {
      var n := |fs|;
      var front, last := fs[..n - 1], fs[n - 1];
      var tail := RenderFunction(last) + rest;
      RenderedLast(fs, rest);
      FunctionsRead(front, if n == 1 then tail else "\n" + tail);
      FunctionRead(last, rest);
      SkipOf("\n", tail);
      assert Bodies(fs)[..n - 1] == Bodies(front);
      OneMoreRead(RenderFunctions(fs) + rest, Bodies(fs), AllAsRead(front), if n == 1 then tail else "\n" + tail, tail,
                  AsRead(last), rest);
      assert AllAsRead(fs) == AllAsRead(front) + [AsRead(last)];
    }
  }

  lemma NoneRead(rest: string)
    ensures ReadFunctions(RenderFunctions([]) + rest, Bodies([])) == Some((AllAsRead([]), rest))
  {
    assert RenderFunctions([]) == "" && "" + rest == rest;
    assert Bodies([]) == [] && AllAsRead([]) == [];
    assert ReadFunctions(rest, []) == Some(([], rest));
  }

  lemma OneMoreRead(text: string, bodies: seq<string>, fs: seq<LuaFunction>, a: string, b: string, f: LuaFunction, rest: string)
    requires bodies != [] && ReadFunctions(text, bodies[..|bodies| - 1]) == Some((fs, a))
    requires if |bodies| == 1 then a == b else Skip(a, "\n") == Some(b)
    requires ReadFunction(b, bodies[|bodies| - 1]) == Some((f, rest))
    ensures ReadFunctions(text, bodies) == Some((fs + [f], rest))
  {
    hide ReadFunction, Skip;
  }

  lemma RenderedLast(fs: seq<Function>, rest: string)
    requires fs != []
    ensures var tail := RenderFunction(fs[|fs| - 1]) + rest;
            RenderFunctions(fs) + rest == RenderFunctions(fs[..|fs| - 1]) + (if |fs| == 1 then tail else "\n" + tail)
  {
    hide RenderFunction;
    var front, last := fs[..|fs| - 1], RenderFunction(fs[|fs| - 1]);
    if |fs| == 1 {
      assert front == [] && RenderFunctions(fs) == last;
      assert "" + (last + rest) == last + rest;
    } else {
      Reassociate(RenderFunctions(front), "\n", last, rest);
    }
  }

  lemma Reassociate(a: string, b: string, c: string, d: string)
    ensures a + b + c + d == a + (b + (c + d))
  {
  }

  lemma {:induction false} CallsRead(calls: seq<string>, rest: string)
    requires Words(calls)
    ensures ReadCalls(RenderCalls(calls) + rest, |calls|) == Some((calls, rest))
  {
    hide ReadCalls, RenderCalls, Span, Skip, Word;
    if calls == [] {
      NoCallsRead(rest);
    } else {
      var n := |calls|;
      var front, last := calls[..n - 1], calls[n - 1];
      var tail := last + ("()" + rest);
      RenderedCalls(calls, rest);
      CallsRead(front, if n == 1 then tail else ", " + tail);
      SkipOf(", ", tail);
      CallSpan(last, rest);
      SkipOf("()", rest);
      OneMoreCall(RenderCalls(calls) + rest, n, front, if n == 1 then tail else ", " + tail, tail, last, rest);
      assert calls == front + [last];
    }
  }

  lemma CallSpan(name: string, rest: string)
    requires Word(name)
    ensures var b := name + ("()" + rest);
            var k := Span(b, WordChar);
            b[..k] == name && b[k..] == "()" + rest
  {
    SpanOf(name, "()" + rest, WordChar);
  }

  lemma NoCallsRead(rest: string)
    ensures ReadCalls(RenderCalls([]) + rest, 0) == Some(([], rest))
  {
    assert "" + rest == rest;
  }

  lemma OneMoreCall(text: string, n: nat, cs: seq<string>, a: string, b: string, name: string, rest: string)
    requires n > 0 && ReadCalls(text, n - 1) == Some((cs, a))
    requires if n == 1 then a == b else Skip(a, ", ") == Some(b)
    requires var k := Span(b, WordChar); b[..k] == name && Skip(b[k..], "()") == Some(rest)
    ensures ReadCalls(text, n) == Some((cs + [name], rest))
  {
    hide Span, Skip;
  }

  lemma RenderedCalls(calls: seq<string>, rest: string)
    requires calls != []
    ensures var tail := calls[|calls| - 1] + ("()" + rest);
            RenderCalls(calls) + rest == RenderCalls(calls[..|calls| - 1]) + (if |calls| == 1 then tail else ", " + tail)
  {
    var front, last := calls[..|calls| - 1], calls[|calls| - 1];
    if |calls| == 1 {
      assert front == [] && RenderCalls(calls) == last + "()";
      Reassociate("", last, "()", rest);
    } else {
      ReassociateMore(RenderCalls(front), ", ", last, "()", rest);
    }
  }

  lemma ReassociateMore(a: string, b: string, c: string, d: string, e: string)
    ensures a + b + c + d + e == a + (b + (c + (d + e)))
  {
  }

  /** The whole text reads back as the functions in their order, each with its bindings counted from 1, and the calls. */
  lemma ProgramRead(p: Program)
    requires Readable(p.functions) && Words(p.calls) && |p.calls| == |p.functions|
    ensures ReadProgram(Render(p), Bodies(p.functions)) == Some(LuaProgram(AllAsRead(p.functions), p.calls))
  {
    hide ReadFunctions, ReadCalls, RenderFunctions, RenderCalls, Skip;
    var c := "}\n";
    var b := RenderCalls(p.calls) + c;
    var a := "\nreturn {" + b;
    assert Render(p) == RenderFunctions(p.functions) + a;
    FunctionsRead(p.functions, a);
    SkipOf("\nreturn {", b);
    CallsRead(p.calls, c);
  }
}

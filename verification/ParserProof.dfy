/** Parsing what a printer writes gives back what was printed, whatever blanks, tabs and
    newlines it puts in the places that allow them. */
module ParserProof {
  import opened Parser

  // ----- Interface files as they are written -----

  /** Newlines, tabs, zeros with tabs behind them, and spaces with tabs behind them. */
  datatype Gap = Gap(newlines: nat, tabs: nat, zeros: nat, tabsBehindZeros: nat, spaces: nat, tabsBehindSpaces: nat)

  const NOGAP := Gap(0, 0, 0, 0, 0, 0)

  /** An argument has a type, and may have a name. */
  datatype Arg = Named(before: Gap, kind: string, between: Gap, name: string) | Bare(before: Gap, kind: string)

  datatype Function = Function(before: Gap, ret: string, between: Gap, name: string, args: seq<Arg>, after: Gap)

  datatype Interface = Interface(before: Gap, name: string, functions: seq<Function>, end: Gap)

  function Rep(ch: char, n: nat): string {
    if n == 0 then "" else Rep(ch, n - 1) + [ch]
  }

  /** So many of ch, and tabs behind them if there are any. */
  function Run(ch: char, n: nat, tabs: nat): string {
    if n == 0 then "" else Rep(ch, n) + Rep('\t', tabs)
  }

  function Blank(g: Gap): string {
    Rep('\n', g.newlines) + Rep('\t', g.tabs) + Run('\0', g.zeros, g.tabsBehindZeros) +
      Run(' ', g.spaces, g.tabsBehindSpaces)
  }

  function PrintArg(a: Arg): string {
    Blank(a.before) + a.kind + (if a.Named? then " " + Blank(a.between) + a.name else "")
  }

  function PrintArgs(args: seq<Arg>): string {
    if args == [] then ""
    else if |args| == 1 then PrintArg(args[0])
    else PrintArgs(args[..|args| - 1]) + "," + PrintArg(args[|args| - 1])
  }

  function PrintFunction(f: Function): string {
    Blank(f.before) + f.ret + " " + Blank(f.between) + f.name + "(" + PrintArgs(f.args) + ")" + Blank(f.after) + ";"
  }

  function PrintFunctions(fs: seq<Function>): string {
    if fs == [] then "" else PrintFunctions(fs[..|fs| - 1]) + PrintFunction(fs[|fs| - 1])
  }

  function PrintInterface(m: Interface): string {
    "module" + Blank(m.before) + m.name + "{" + PrintFunctions(m.functions) + Blank(m.end) + "}"
  }

  function PrintFile(ms: seq<Interface>): string {
    if ms == [] then "" else PrintFile(ms[..|ms| - 1]) + PrintInterface(ms[|ms| - 1])
  }

  // ----- What they mean -----

  function ArgWords(a: Arg): seq<string> {
    if a.Named? then [a.kind, a.name] else [a.kind]
  }

  function ArgParts(args: seq<Arg>): seq<Part> {
    seq(|args|, i requires 0 <= i < |args| => Words(ArgWords(args[i])))
  }

  function FunctionParts(f: Function): seq<Part> {
    [Word(f.ret), Word(f.name)] + ArgParts(f.args)
  }

  function InterfaceParts(fs: seq<Function>): seq<seq<Part>> {
    seq(|fs|, i requires 0 <= i < |fs| => FunctionParts(fs[i]))
  }

  function FileParts(ms: seq<Interface>): map<string, seq<seq<Part>>> {
    if ms == [] then map[] else FileParts(ms[..|ms| - 1])[ms[|ms| - 1].name := InterfaceParts(ms[|ms| - 1].functions)]
  }

  predicate Delimiter(ch: char) {
    ch in [' ', '\0', '\n', '\t', ',', '(', ')', ';', '{', '}']
  }

  predicate Ident(s: string) {
    s != "" && forall i :: 0 <= i < |s| ==> !Delimiter(s[i])
  }

  predicate GoodArg(a: Arg) {
    Ident(a.kind) && (a.Named? ==> Ident(a.name))
  }

  predicate GoodFunction(f: Function) {
    Ident(f.ret) && Ident(f.name) && forall i :: 0 <= i < |f.args| ==> GoodArg(f.args[i])
  }

  predicate GoodInterface(m: Interface) {
    Ident(m.name) && forall i :: 0 <= i < |m.functions| ==> GoodFunction(m.functions[i])
  }

  // ----- Stripping -----

  lemma {:induction false} StripOne(ch: char, n: nat, s: string)
    requires s == "" || s[0] != ch
    ensures LStrip(Rep(ch, n) + s, ch) == s
    ensures n > 0 ==> (Rep(ch, n) + s)[0] == ch
  {
    if n == 0 {
      assert Rep(ch, 0) + s == s;
    } else {
      RepFront(ch, n);
      assert (Rep(ch, n) + s)[1..] == Rep(ch, n - 1) + s;
      StripOne(ch, n - 1, s);
    }
  }

  lemma {:induction false} RepFront(ch: char, n: nat)
    requires n > 0
    ensures Rep(ch, n) == [ch] + Rep(ch, n - 1)
  {
    if n > 1 { RepFront(ch, n - 1); }
  }

  predicate StartsClean(s: string) {
    s == "" || (s[0] != '\n' && s[0] != '\t' && s[0] != '\0' && s[0] != ' ')
  }

  lemma StripRun(ch: char, n: nat, tabs: nat, s: string)
    requires ch == '\0' || ch == ' '
    requires s == "" || (s[0] != '\n' && s[0] != '\t' && s[0] != ch)
    ensures var text := Run(ch, n, tabs) + s;
      && LStrip(LStrip(text, ch), '\t') == s
      && (text == "" || (text[0] != '\n' && text[0] != '\t' && (text[0] == ch || (s != "" && text[0] == s[0]))))
  {
    var tabbed := Rep('\t', tabs) + s;
    if n == 0 {
      assert "" + s == s;
    } else {
      assert Run(ch, n, tabs) + s == Rep(ch, n) + tabbed;
      StripOne('\t', tabs, s);
      StripOne(ch, n, tabbed);
    }
  }

  /** A gap in front of a word is stripped, whole. */
  lemma StripGap(g: Gap, s: string)
    requires StartsClean(s)
    ensures Strip(Blank(g) + s) == s
  {
    var spaced := Run(' ', g.spaces, g.tabsBehindSpaces) + s;
    var zeroed := Run('\0', g.zeros, g.tabsBehindZeros) + spaced;
    var tabbed := Rep('\t', g.tabs) + zeroed;
    assert Blank(g) + s == Rep('\n', g.newlines) + tabbed;
    StripRun(' ', g.spaces, g.tabsBehindSpaces, s);
    StripRun('\0', g.zeros, g.tabsBehindZeros, spaced);
    StripOne('\t', g.tabs, zeroed);
    StripOne('\n', g.newlines, tabbed);
  }

  lemma {:induction false} StripsSome(s: string, ch: char) returns (n: nat)
    ensures s == Rep(ch, n) + LStrip(s, ch)
    ensures LStrip(s, ch) == "" || LStrip(s, ch)[0] != ch
    ensures n > 0 ==> s != "" && s[0] == ch
  {
    if s != "" && s[0] == ch {
      var k := StripsSome(s[1..], ch);
      n := k + 1;
      RepFront(ch, n);
      assert s == [ch] + s[1..];
    } else {
      n := 0;
      assert Rep(ch, 0) + s == s;
    }
  }

  lemma StripsRun(s: string, ch: char) returns (n: nat, tabs: nat)
    requires s == "" || s[0] != '\t'
    ensures s == Run(ch, n, tabs) + LStrip(LStrip(s, ch), '\t')
    ensures LStrip(LStrip(s, ch), '\t') == "" || LStrip(LStrip(s, ch), '\t')[0] != '\t'
  {
    var rest := LStrip(s, ch);
    n := StripsSome(s, ch);
    tabs := StripsSome(rest, '\t');
    if n == 0 {
      assert Rep(ch, 0) + rest == rest && "" + rest == rest && Rep('\t', 0) + rest == rest;
    } else {
      assert s == Rep(ch, n) + Rep('\t', tabs) + LStrip(rest, '\t');
    }
  }

  lemma StripTwice(s: string, ch: char)
    ensures LStrip(LStrip(s, ch), ch) == LStrip(s, ch)
  {
    var n := StripsSome(s, ch);
  }

  /** What is stripped from any text is a gap: the gaps of the printer are all there are. */
  lemma OnlyGapsAreStripped(s: string) returns (g: Gap)
    ensures s == Blank(g) + Strip(s)
  {
    var s1 := LStrip(s, '\n');
    var s2 := LStrip(s1, '\t');
    var s3 := LStrip(LStrip(s2, '\0'), '\t');
    StripTwice(LStrip(s2, '\0'), '\t');
    assert Strip(s) == LStrip(LStrip(s3, ' '), '\t');
    var newlines := StripsSome(s, '\n');
    var tabs := StripsSome(s1, '\t');
    var zeros, tabsBehindZeros := StripsRun(s2, '\0');
    hide LStrip, Rep, Run;
    var spaces, tabsBehindSpaces := StripsRun(s3, ' ');
    g := Gap(newlines, tabs, zeros, tabsBehindZeros, spaces, tabsBehindSpaces);
    Regroup(Rep('\n', newlines), Rep('\t', tabs), Run('\0', zeros, tabsBehindZeros), Run(' ', spaces, tabsBehindSpaces),
      Strip(s));
  }

  lemma Regroup(a: string, b: string, c: string, d: string, rest: string)
    ensures a + (b + (c + (d + rest))) == a + b + c + d + rest
  {}

  // ----- Inside a function -----

  /** What a function being parsed becomes by a text that neither ends it nor the module. */
  function FeedFunc(f: FuncState, text: string): Option<FuncState>
    decreases |text|
  {
    if text == "" then Some(f)
    else
      match FeedFunc(f, text[..|text| - 1])
      case None => None
      case Some(g) =>
        if text[|text| - 1] == '}' then None
        else match PushFunc(g, text[|text| - 1])
          case Next(g', done) => if done then None else Some(g')
          case Crash => None
  }

  lemma {:induction false} FuncConcat(f: FuncState, a: string, b: string)
    requires FeedFunc(f, a).Some?
    ensures FeedFunc(f, a + b) == FeedFunc(FeedFunc(f, a).value, b)
    decreases |b|
  {
    hide PushFunc;
    if b == "" {
      assert a + b == a;
    } else {
      FuncConcat(f, a, b[..|b| - 1]);
      assert (a + b)[..|a + b| - 1] == a + b[..|b| - 1];
    }
  }

  lemma FuncNothing(f: FuncState)
    ensures FeedFunc(f, "") == Some(f)
  {}

  lemma FuncOne(f: FuncState, ch: char)
    ensures FeedFunc(f, [ch]) ==
      if ch == '}' then None
      else match PushFunc(f, ch) case Next(g, done) => (if done then None else Some(g)) case Crash => None
  {
    assert [ch][..0] == "";
  }

  /** A character that just joins the word. */
  predicate Plain(ch: char) {
    ch !in [' ', '\0', ',', '(', ')', ';', '}']
  }

  lemma {:induction false} FeedPlain(f: FuncState, s: string)
    requires forall i :: 0 <= i < |s| ==> Plain(s[i])
    ensures FeedFunc(f, s) == Some(f.(keyworld := f.keyworld + s))
    decreases |s|
  {
    if s == "" {
      assert f.keyworld + "" == f.keyworld;
    } else {
      FeedPlain(f, s[..|s| - 1]);
      assert f.keyworld + s == f.keyworld + s[..|s| - 1] + [s[|s| - 1]];
    }
  }

  lemma {:induction false} RepIs(ch: char, n: nat)
    ensures |Rep(ch, n)| == n && forall i :: 0 <= i < n ==> Rep(ch, n)[i] == ch
  {
    if n > 0 { RepIs(ch, n - 1); }
  }

  predicate IsBlank(ch: char) { ch == ' ' || ch == '\0' }

  /** Of a row of blanks the last one is left. */
  lemma {:induction false} FeedBlanks(f: FuncState, ch: char, n: nat)
    requires IsBlank(ch) && Strip(f.keyworld) == ""
    ensures FeedFunc(f, Rep(ch, n)) == Some(if n == 0 then f else f.(keyworld := [ch]))
  {
    FuncNothing(f);
    BlankIsBlank(ch);
    assert n > 0 ==> Rep(ch, n) == Rep(ch, n - 1) + [ch];
    assert Rep(ch, 0) == "";
    hide FeedFunc, PushFunc, Strip, LStrip, Rep;
    if n > 0 {
      var g := if n == 1 then f else f.(keyworld := [ch]);
      FeedBlanks(f, ch, n - 1);
      BlankStays(g, ch);
      FuncNext(f, Rep(ch, n - 1), ch, g, g.(keyworld := [ch]));
    }
  }

  lemma FeedRun(f: FuncState, ch: char, n: nat, tabs: nat)
    requires IsBlank(ch) && Strip(f.keyworld) == ""
    ensures FeedFunc(f, Run(ch, n, tabs)) == Some(if n == 0 then f else f.(keyworld := [ch] + Rep('\t', tabs)))
  {
    if n == 0 {
      FuncNothing(f);
    } else {
      FeedBlanks(f, ch, n);
      RepIs('\t', tabs);
      FeedPlain(f.(keyworld := [ch]), Rep('\t', tabs));
      FuncMore(f, Rep(ch, n), Rep('\t', tabs), f.(keyworld := [ch]), f.(keyworld := [ch] + Rep('\t', tabs)));
    }
  }

  // ----- Single characters -----

  lemma BlankStays(f: FuncState, ch: char)
    requires IsBlank(ch) && Strip(f.keyworld) == ""
    ensures PushFunc(f, ch) == Next(f.(keyworld := [ch]), false)
  {
    assert "" + [ch] == [ch];
  }

  lemma SpaceEnds(f: FuncState, word: string)
    requires Strip(f.keyworld) == word != "" && f.argvtuple.None?
    ensures PushFunc(f, ' ') == Next(f.(keyworld := "", func := f.func + [Text(word)]), false)
  {}

  lemma SpaceAppends(f: FuncState, word: string, n: nat)
    requires Strip(f.keyworld) == word != "" && f.argvtuple == Some(n) && n < |f.lists|
    ensures PushFunc(f, ' ') == Next(f.(keyworld := "", lists := f.lists[n := f.lists[n] + [word]]), false)
  {}

  lemma ParenOpens(f: FuncState, word: string)
    requires Strip(f.keyworld) == word
    ensures PushFunc(f, '(') == Next(FuncState("", f.func + [Text(word)], f.lists + [[]], Some(|f.lists|)), false)
  {}

  lemma ParenStays(f: FuncState)
    requires f.keyworld == ""
    ensures PushFunc(f, ')') == Next(f.(keyworld := ")"), false)
  {
    assert "" + [')'] == ")";
  }

  /** A comma or a closing parenthesis ends the argument in list n. */
  lemma ArgEnds(f: FuncState, word: string, n: nat)
    requires f.keyworld != "" && Strip(f.keyworld) == word && f.argvtuple == Some(n) && n < |f.lists|
    ensures var f' := f.(keyworld := "", lists := f.lists[n := f.lists[n] + [word]], func := f.func + [Ref(n)]);
      && PushFunc(f, ')') == Next(f', false)
      && PushFunc(f, ',') == Next(f'.(lists := f'.lists + [[]], argvtuple := Some(|f'.lists|)), false)
  {}

  lemma BlankIsBlank(ch: char)
    requires IsBlank(ch)
    ensures Strip([ch]) == "" && Strip("") == ""
  {
    StripLeft(if ch == ' ' then NOGAP.(spaces := 1) else NOGAP.(zeros := 1), "");
    StripLeft(NOGAP, "");
    assert [ch] + Rep('\t', 0) + "" == [ch] && Rep('\n', 0) + Rep('\t', 0) + "" == "";
  }

  /** What a gap leaves of itself in front of the next word. */
  function Left(g: Gap): string {
    if g.spaces > 0 then " " + Rep('\t', g.tabsBehindSpaces)
    else if g.zeros > 0 then "\0" + Rep('\t', g.tabsBehindZeros)
    else Rep('\n', g.newlines) + Rep('\t', g.tabs)
  }

  lemma StripLeft(g: Gap, s: string)
    requires StartsClean(s)
    ensures Strip(Left(g) + s) == s
  {
    var left :=
      if g.spaces > 0 then NOGAP.(spaces := 1, tabsBehindSpaces := g.tabsBehindSpaces)
      else if g.zeros > 0 then NOGAP.(zeros := 1, tabsBehindZeros := g.tabsBehindZeros)
      else NOGAP.(newlines := g.newlines, tabs := g.tabs);
    StripGap(left, s);
    assert Rep(' ', 1) == " " && Rep('\0', 1) == "\0";
    assert Blank(left) == Left(g);
  }

  lemma FeedGap(f: FuncState, g: Gap)
    requires f.keyworld == ""
    ensures FeedFunc(f, Blank(g)) == Some(f.(keyworld := Left(g)))
  {
    hide PushFunc, Strip, LStrip, FeedFunc;
    var plain := Rep('\n', g.newlines) + Rep('\t', g.tabs);
    var zeros, spaces := Run('\0', g.zeros, g.tabsBehindZeros), Run(' ', g.spaces, g.tabsBehindSpaces);
    var g1, g2 := NOGAP.(newlines := g.newlines, tabs := g.tabs), g.(spaces := 0);
    RepIs('\n', g.newlines);
    RepIs('\t', g.tabs);
    FeedPlain(f, plain);
    assert "" + plain == plain == Left(g1) == Left(g1) + "";
    StripLeft(g1, "");
    FeedRun(f.(keyworld := plain), '\0', g.zeros, g.tabsBehindZeros);
    FuncMore(f, plain, zeros, f.(keyworld := plain), f.(keyworld := Left(g2)));
    assert Left(g2) + "" == Left(g2);
    StripLeft(g2, "");
    FeedRun(f.(keyworld := Left(g2)), ' ', g.spaces, g.tabsBehindSpaces);
    FuncMore(f, plain + zeros, spaces, f.(keyworld := Left(g2)), f.(keyworld := Left(g)));
  }

  /** A gap and a word. */
  lemma FeedWord(f: FuncState, g: Gap, s: string)
    requires f.keyworld == "" && Ident(s)
    ensures FeedFunc(f, Blank(g) + s) == Some(f.(keyworld := Left(g) + s)) && Strip(Left(g) + s) == s
    ensures Left(g) + s != ""
  {
    FeedGap(f, g);
    FuncConcat(f, Blank(g), s);
    FeedPlain(f.(keyworld := Left(g)), s);
    StripLeft(g, s);
  }

  /** One more character. */
  lemma FuncNext(f: FuncState, a: string, ch: char, g: FuncState, g': FuncState)
    requires FeedFunc(f, a) == Some(g) && ch != '}' && PushFunc(g, ch) == Next(g', false)
    ensures FeedFunc(f, a + [ch]) == Some(g')
  {
    FuncConcat(f, a, [ch]);
    FuncOne(g, ch);
  }

  lemma FuncMore(f: FuncState, a: string, b: string, g: FuncState, g': FuncState)
    requires FeedFunc(f, a) == Some(g) && FeedFunc(g, b) == Some(g')
    ensures FeedFunc(f, a + b) == Some(g')
  {
    FuncConcat(f, a, b);
  }

  // ----- The header of a function -----

  lemma FeedType(f: Function)
    requires GoodFunction(f)
    ensures FeedFunc(NEWFUNC, Blank(f.before) + f.ret + " ") == Some(FuncState("", [Text(f.ret)], [], None))
  {
    var s1 := NEWFUNC.(keyworld := Left(f.before) + f.ret);
    FeedWord(NEWFUNC, f.before, f.ret);
    SpaceEnds(s1, f.ret);
    assert [] + [Text(f.ret)] == [Text(f.ret)];
    FuncNext(NEWFUNC, Blank(f.before) + f.ret, ' ', s1, FuncState("", [] + [Text(f.ret)], [], None));
  }

  lemma FeedHeader(f: Function)
    requires GoodFunction(f)
    ensures FeedFunc(NEWFUNC, Blank(f.before) + f.ret + " " + Blank(f.between) + f.name + "(") ==
      Some(AtArg(f.ret, f.name, []))
  {
    var a, b := Blank(f.before) + f.ret + " ", Blank(f.between) + f.name;
    var s2 := FuncState("", [Text(f.ret)], [], None);
    FeedType(f);
    FeedWord(s2, f.between, f.name);
    var s3 := s2.(keyworld := Left(f.between) + f.name);
    FuncMore(NEWFUNC, a, b, s2, s3);
    ParenOpens(s3, f.name);
    HeaderState(f.ret, f.name);
    FuncNext(NEWFUNC, a + b, '(', s3, AtArg(f.ret, f.name, []));
    assert a + b == Blank(f.before) + f.ret + " " + Blank(f.between) + f.name;
  }

  lemma HeaderState(ret: string, name: string)
    ensures AtArg(ret, name, []) == FuncState("", [Text(ret)] + [Text(name)], [] + [[]], Some(0))
  {
    assert Refs(0) == [] && WordsOf([]) == [];
  }

  // ----- The arguments -----

  function WordsOf(args: seq<Arg>): seq<seq<string>> {
    seq(|args|, i requires 0 <= i < |args| => ArgWords(args[i]))
  }

  function Refs(n: nat): seq<Item> {
    seq(n, i requires 0 <= i < n => Ref(i))
  }

  /** After the opening parenthesis or a comma, with args read. */
  function AtArg(ret: string, name: string, args: seq<Arg>): FuncState {
    FuncState("", [Text(ret), Text(name)] + Refs(|args|), WordsOf(args) + [[]], Some(|args|))
  }

  /** After the closing parenthesis. */
  function Closed(ret: string, name: string, args: seq<Arg>): FuncState
    requires args != []
  {
    FuncState("", [Text(ret), Text(name)] + Refs(|args|), WordsOf(args), Some(|args| - 1))
  }

  /** The words of an argument that end at a blank, and the last one with what the gap leaves. */
  function FrontWords(a: Arg): seq<string> {
    if a.Named? then [a.kind] else []
  }

  function LastWord(a: Arg): string {
    if a.Named? then a.name else a.kind
  }

  function LastGap(a: Arg): Gap {
    if a.Named? then a.between else a.before
  }

  /** With args read and one more argument up to the end of its last word. */
  function InArg(ret: string, name: string, args: seq<Arg>, a: Arg): FuncState {
    FuncState(Left(LastGap(a)) + LastWord(a), [Text(ret), Text(name)] + Refs(|args|), WordsOf(args) + [FrontWords(a)],
      Some(|args|))
  }

  lemma FeedNamed(ret: string, name: string, args: seq<Arg>, a: Arg)
    requires a.Named? && GoodArg(a)
    ensures FeedFunc(AtArg(ret, name, args), PrintArg(a)) == Some(InArg(ret, name, args, a))
  {
    hide FeedFunc, PushFunc, Strip, LStrip, WordsOf, Refs, Left, Blank;
    var s0, n := AtArg(ret, name, args), |args|;
    var s1 := s0.(keyworld := Left(a.before) + a.kind);
    var s2 := InArg(ret, name, args, a).(keyworld := "");
    FeedWord(s0, a.before, a.kind);
    assert s0.lists == WordsOf(args) + [[]] && |WordsOf(args)| == n by { ArgsGrow(args, a); }
    SpaceAppends(s1, a.kind, n);
    ListGrows(WordsOf(args), [], a.kind);
    assert [] + [a.kind] == [a.kind];
    FuncNext(s0, Blank(a.before) + a.kind, ' ', s1, s2);
    FeedWord(s2, a.between, a.name);
    FuncMore(s0, Blank(a.before) + a.kind + " ", Blank(a.between) + a.name, s2, InArg(ret, name, args, a));
    assert Blank(a.before) + a.kind + " " + (Blank(a.between) + a.name) == PrintArg(a);
  }

  lemma FeedArgWords(ret: string, name: string, args: seq<Arg>, a: Arg)
    requires GoodArg(a)
    ensures FeedFunc(AtArg(ret, name, args), PrintArg(a)) == Some(InArg(ret, name, args, a))
  {
    hide FeedFunc, PushFunc, Strip, LStrip;
    if a.Named? {
      FeedNamed(ret, name, args, a);
    } else {
      FeedWord(AtArg(ret, name, args), a.before, a.kind);
      assert PrintArg(a) == Blank(a.before) + a.kind;
    }
  }

  lemma ListGrows(lists: seq<seq<string>>, words: seq<string>, word: string)
    ensures (lists + [words])[|lists| := words + [word]] == lists + [words + [word]]
  {}

  lemma ArgsGrow(args: seq<Arg>, a: Arg)
    ensures |WordsOf(args)| == |args|
    ensures WordsOf(args) + [ArgWords(a)] == WordsOf(args + [a]) && Refs(|args|) + [Ref(|args|)] == Refs(|args| + 1)
  {}

  lemma FeedArg(ret: string, name: string, args: seq<Arg>, a: Arg)
    requires GoodArg(a)
    ensures FeedFunc(AtArg(ret, name, args), PrintArg(a) + ",") == Some(AtArg(ret, name, args + [a]))
    ensures FeedFunc(AtArg(ret, name, args), PrintArg(a) + ")") == Some(Closed(ret, name, args + [a]))
  {
    hide FeedFunc, PushFunc, Strip, LStrip;
    var s0, s3, n := AtArg(ret, name, args), InArg(ret, name, args, a), |args|;
    FeedArgWords(ret, name, args, a);
    StripLeft(LastGap(a), LastWord(a));
    ArgEnds(s3, LastWord(a), n);
    ListGrows(WordsOf(args), FrontWords(a), LastWord(a));
    assert FrontWords(a) + [LastWord(a)] == ArgWords(a);
    ArgsGrow(args, a);
    assert s3.func + [Ref(n)] == [Text(ret), Text(name)] + Refs(n + 1);
    FuncNext(s0, PrintArg(a), ',', s3, AtArg(ret, name, args + [a]));
    FuncNext(s0, PrintArg(a), ')', s3, Closed(ret, name, args + [a]));
  }

  lemma {:induction false} FeedArgs(ret: string, name: string, args: seq<Arg>)
    requires args != [] && forall i :: 0 <= i < |args| ==> GoodArg(args[i])
    ensures FeedFunc(AtArg(ret, name, []), PrintArgs(args) + ",") == Some(AtArg(ret, name, args))
    ensures FeedFunc(AtArg(ret, name, []), PrintArgs(args) + ")") == Some(Closed(ret, name, args))
    decreases |args|
  {
    var s0, rest, a := AtArg(ret, name, []), args[..|args| - 1], args[|args| - 1];
    assert args == rest + [a];
    FeedArg(ret, name, rest, a);
    if |args| == 1 {
      assert rest == [];
    } else {
      FeedArgs(ret, name, rest);
      var s1 := AtArg(ret, name, rest);
      FuncMore(s0, PrintArgs(rest) + ",", PrintArg(a) + ",", s1, AtArg(ret, name, args));
      FuncMore(s0, PrintArgs(rest) + ",", PrintArg(a) + ")", s1, Closed(ret, name, args));
      assert PrintArgs(rest) + "," + (PrintArg(a) + ",") == PrintArgs(args) + ",";
      assert PrintArgs(rest) + "," + (PrintArg(a) + ")") == PrintArgs(args) + ")";
    }
  }

  // ----- A whole function -----

  /** A gap after the closing parenthesis changes neither the function nor the list being
      filled. */
  lemma {:induction false} GapKeepsFunc(f: FuncState, s: string)
    requires f.argvtuple.Some? && forall i :: 0 <= i < |s| ==> s[i] in [' ', '\0', '\n', '\t']
    ensures FeedFunc(f, s).Some? && FeedFunc(f, s).value.func == f.func && FeedFunc(f, s).value.argvtuple == f.argvtuple
    decreases |s|
  {
    if s != "" { GapKeepsFunc(f, s[..|s| - 1]); }
  }

  lemma BlankChars(g: Gap)
    ensures forall i :: 0 <= i < |Blank(g)| ==> Blank(g)[i] in [' ', '\0', '\n', '\t']
  {
    RepIs('\n', g.newlines);
    RepIs('\t', g.tabs);
    RepIs('\0', g.zeros);
    RepIs('\t', g.tabsBehindZeros);
    RepIs(' ', g.spaces);
    RepIs('\t', g.tabsBehindSpaces);
  }

  lemma PartsAre(f: FuncState, ret: string, name: string, args: seq<Arg>)
    requires f.func == [Text(ret), Text(name)] + Refs(|args|) && (args != [] ==> f.lists == WordsOf(args))
    ensures PartsOf(f) == [Word(ret), Word(name)] + ArgParts(args)
  {
    forall i | 0 <= i < |PartsOf(f)| ensures PartsOf(f)[i] == ([Word(ret), Word(name)] + ArgParts(args))[i] {
      if i >= 2 { assert f.func[i] == Ref(i - 2); }
    }
  }

  /** Up to the closing parenthesis. */
  lemma FeedToClose(f: Function) returns (g: FuncState)
    requires GoodFunction(f)
    ensures FeedFunc(NEWFUNC, Blank(f.before) + f.ret + " " + Blank(f.between) + f.name + "(" + PrintArgs(f.args) +
      ")") == Some(g)
    ensures g.func == [Text(f.ret), Text(f.name)] + Refs(|f.args|) && g.argvtuple.Some?
    ensures f.args != [] ==> g.lists == WordsOf(f.args) && g.keyworld == ""
  {
    var head, s0 := Blank(f.before) + f.ret + " " + Blank(f.between) + f.name + "(", AtArg(f.ret, f.name, []);
    ParenStays(s0);
    hide FeedFunc, PushFunc, Strip, LStrip;
    FeedHeader(f);
    if f.args == [] {
      g := s0.(keyworld := ")");
      assert head + "" == head;
      FuncNext(NEWFUNC, head, ')', s0, g);
    } else {
      g := Closed(f.ret, f.name, f.args);
      FeedArgs(f.ret, f.name, f.args);
      FuncMore(NEWFUNC, head, PrintArgs(f.args) + ")", s0, g);
      assert head + (PrintArgs(f.args) + ")") == head + PrintArgs(f.args) + ")";
    }
  }

  /** Up to the semicolon, which ends the function with its parts. */
  lemma FeedToEnd(f: Function) returns (text: string, g: FuncState)
    requires GoodFunction(f)
    ensures PrintFunction(f) == text + ";" && FeedFunc(NEWFUNC, text) == Some(g)
    ensures PushFunc(g, ';') == Next(g, true) && PartsOf(g) == FunctionParts(f)
  {
    text := Blank(f.before) + f.ret + " " + Blank(f.between) + f.name + "(" + PrintArgs(f.args) + ")";
    g := FeedToClose(f);
    BlankChars(f.after);
    GapKeepsFunc(g, Blank(f.after));
    var g' := FeedFunc(g, Blank(f.after)).value;
    FuncMore(NEWFUNC, text, Blank(f.after), g, g');
    if f.args != [] { FeedGap(g, f.after); }
    PartsAre(g', f.ret, f.name, f.args);
    text, g := text + Blank(f.after), g';
  }

  // ----- In a file -----

  lemma {:induction false} FeedConcat(s: State, a: string, b: string)
    requires Feed(s, a).Next?
    ensures Feed(s, a + b) == Feed(Feed(s, a).state, b)
    decreases |b|
  {
    if b == "" {
      assert a + b == a;
      FeedDone(s, a);
    } else {
      FeedConcat(s, a, b[..|b| - 1]);
      assert (a + b)[..|a + b| - 1] == a + b[..|b| - 1];
    }
  }

  lemma FeedDone(s: State, a: string)
    requires Feed(s, a).Next?
    ensures !Feed(s, a).done
  {}

  lemma FeedMore(s: State, a: string, b: string, s1: State, s2: State)
    requires Feed(s, a) == Next(s1, false) && Feed(s1, b) == Next(s2, false)
    ensures Feed(s, a + b) == Next(s2, false)
  {
    FeedConcat(s, a, b);
  }

  lemma FeedNothing(s: State)
    ensures Feed(s, "") == Next(s, false)
  {}

  lemma FeedOne(s: State, ch: char)
    ensures Feed(s, [ch]) == PushFile(s, ch)
  {
    assert [ch][..0] == "";
  }

  function Within(s: State, m: ModuleState, f: FuncState): State {
    s.(machine := InModule(m.(machine := Some(f))))
  }

  lemma {:induction false} FuncInFile(s: State, m: ModuleState, f: FuncState, text: string)
    requires FeedFunc(f, text).Some?
    ensures Feed(Within(s, m, f), text) == Next(Within(s, m, FeedFunc(f, text).value), false)
    decreases |text|
  {
    if text != "" { FuncInFile(s, m, f, text[..|text| - 1]); }
  }

  lemma FeedFunction(s: State, m: ModuleState, f: Function)
    requires GoodFunction(f)
    ensures Feed(Within(s, m, NEWFUNC), PrintFunction(f)) ==
      Next(Within(s, m.(functions := m.functions + [FunctionParts(f)]), NEWFUNC), false)
  {
    var text, g := FeedToEnd(f);
    FuncInFile(s, m, NEWFUNC, text);
    FeedOne(Within(s, m, g), ';');
    FeedMore(Within(s, m, NEWFUNC), text, ";", Within(s, m, g),
      Within(s, m.(functions := m.functions + [FunctionParts(f)]), NEWFUNC));
  }

  lemma PartsSnoc(done: seq<seq<Part>>, fs: seq<Function>)
    requires fs != []
    ensures done + InterfaceParts(fs) == done + InterfaceParts(fs[..|fs| - 1]) + [FunctionParts(fs[|fs| - 1])]
  {}

  /** m with the parts of fs behind its own. */
  function With(m: ModuleState, fs: seq<Function>): ModuleState {
    m.(functions := m.functions + InterfaceParts(fs))
  }

  lemma {:induction false} FeedFunctions(s: State, m: ModuleState, fs: seq<Function>)
    requires forall i :: 0 <= i < |fs| ==> GoodFunction(fs[i])
    ensures Feed(Within(s, m, NEWFUNC), PrintFunctions(fs)) == Next(Within(s, With(m, fs), NEWFUNC), false)
    decreases |fs|
  {
    if fs == [] {
      assert m.functions + InterfaceParts(fs) == m.functions;
    } else {
      var rest, f := fs[..|fs| - 1], fs[|fs| - 1];
      FeedFunctions(s, m, rest);
      FeedFunction(s, With(m, rest), f);
      PartsSnoc(m.functions, fs);
      FeedMore(Within(s, m, NEWFUNC), PrintFunctions(rest), PrintFunction(f), Within(s, With(m, rest), NEWFUNC),
        Within(s, With(m, fs), NEWFUNC));
    }
  }

  function InHeader(s: State, keyworld: string): State {
    s.(machine := InModule(NEWMODULE.(keyworld := keyworld)))
  }

  lemma KeywordStep(s: State, before: string, ch: char)
    requires s.machine.Idle? && s.keyworld == before && before + [ch] != "module" && before + [ch] != "struct"
    ensures Feed(s, [ch]) == Next(s.(keyworld := before + [ch]), false)
  {
    FeedOne(s, ch);
  }

  lemma FeedHalfKeyword(s: State)
    requires s.machine.Idle? && s.keyworld == ""
    ensures Feed(s, "mod") == Next(s.(keyworld := "mod"), false)
  {
    KeywordStep(s, "", 'm');
    assert "" + ['m'] == "m";
    KeywordStep(s.(keyworld := "m"), "m", 'o');
    assert "m" + ['o'] == "mo";
    FeedMore(s, "m", "o", s.(keyworld := "m"), s.(keyworld := "mo"));
    KeywordStep(s.(keyworld := "mo"), "mo", 'd');
    assert "mo" + ['d'] == "mod";
    FeedMore(s, "mo", "d", s.(keyworld := "mo"), s.(keyworld := "mod"));
  }

  lemma FeedKeyword(s: State)
    requires s.machine.Idle? && s.keyworld == ""
    ensures Feed(s, "module") == Next(InHeader(s, ""), false)
  {
    FeedHalfKeyword(s);
    KeywordStep(s.(keyworld := "mod"), "mod", 'u');
    assert "mod" + ['u'] == "modu";
    FeedMore(s, "mod", "u", s.(keyworld := "mod"), s.(keyworld := "modu"));
    KeywordStep(s.(keyworld := "modu"), "modu", 'l');
    assert "modu" + ['l'] == "modul";
    FeedMore(s, "modu", "l", s.(keyworld := "modu"), s.(keyworld := "modul"));
    FeedOne(s.(keyworld := "modul"), 'e');
    assert "modul" + ['e'] == "module";
    FeedMore(s, "modul", "e", s.(keyworld := "modul"), InHeader(s, ""));
  }

  lemma HeaderStep(s: State, keyworld: string, ch: char)
    requires ch != '{' && ch != '}'
    ensures Feed(InHeader(s, keyworld), [ch]) == Next(InHeader(s, keyworld + [ch]), false)
  {
    FeedOne(InHeader(s, keyworld), ch);
  }

  lemma {:induction false} FeedHeaderText(s: State, text: string)
    requires forall i :: 0 <= i < |text| ==> text[i] != '{' && text[i] != '}'
    ensures Feed(InHeader(s, ""), text) == Next(InHeader(s, text), false)
    decreases |text|
  {
    FeedNothing(InHeader(s, ""));
    hide Feed;
    if text != "" {
      var rest, ch := text[..|text| - 1], text[|text| - 1];
      FeedHeaderText(s, rest);
      HeaderStep(s, rest, ch);
      assert text == rest + [ch];
      FeedMore(InHeader(s, ""), rest, [ch], InHeader(s, rest), InHeader(s, text));
    }
  }

  lemma HeaderEnds(s: State, keyworld: string, name: string)
    requires Strip(keyworld) == name
    ensures Feed(InHeader(s, keyworld), "{") == Next(Within(s, ModuleState("", name, [], None), NEWFUNC), false)
  {
    FeedOne(InHeader(s, keyworld), '{');
  }

  lemma FeedName(s: State, m: Interface)
    requires Ident(m.name) && s.machine.Idle? && s.keyworld == ""
    ensures Feed(s, "module" + Blank(m.before) + m.name + "{") ==
      Next(Within(s, ModuleState("", m.name, [], None), NEWFUNC), false)
  {
    hide Feed, Strip, LStrip;
    var text, keyword := Blank(m.before) + m.name, "module";
    BlankChars(m.before);
    FeedKeyword(s);
    FeedHeaderText(s, text);
    FeedMore(s, keyword, text, InHeader(s, ""), InHeader(s, text));
    StripGap(m.before, m.name);
    HeaderEnds(s, text, m.name);
    FeedMore(s, keyword + text, "{", InHeader(s, text), Within(s, ModuleState("", m.name, [], None), NEWFUNC));
    assert keyword + text == keyword + Blank(m.before) + m.name;
  }

  lemma FeedInterface(s: State, m: Interface)
    requires GoodInterface(m) && s.machine.Idle? && s.keyworld == ""
    ensures Feed(s, PrintInterface(m)) == Next(s.(modules := s.modules[m.name := InterfaceParts(m.functions)]), false)
  {
    var head, m0 := "module" + Blank(m.before) + m.name + "{", ModuleState("", m.name, [], None);
    var m1 := With(m0, m.functions);
    FeedName(s, m);
    FeedFunctions(s, m0, m.functions);
    FeedMore(s, head, PrintFunctions(m.functions), Within(s, m0, NEWFUNC), Within(s, m1, NEWFUNC));
    FeedGap(NEWFUNC, m.end);
    FuncInFile(s, m1, NEWFUNC, Blank(m.end));
    var last := Within(s, m1, NEWFUNC.(keyworld := Left(m.end)));
    FeedMore(s, head + PrintFunctions(m.functions), Blank(m.end), Within(s, m1, NEWFUNC), last);
    FeedOne(last, '}');
    assert [] + InterfaceParts(m.functions) == InterfaceParts(m.functions);
    FeedMore(s, head + PrintFunctions(m.functions) + Blank(m.end), "}", last,
      s.(modules := s.modules[m.name := InterfaceParts(m.functions)]));
  }

  // ----- Main results -----

  /** Parsing a printed file gives the modules that were printed, the last one where two have
      one name; functions without arguments and any gaps included. */
  lemma {:induction false} ParsesWhatIsPrinted(ms: seq<Interface>)
    requires forall i :: 0 <= i < |ms| ==> GoodInterface(ms[i])
    ensures Feed(START, PrintFile(ms)) == Next(START.(modules := FileParts(ms)), false)
    decreases |ms|
  {
    if ms != [] {
      var rest, m := ms[..|ms| - 1], ms[|ms| - 1];
      ParsesWhatIsPrinted(rest);
      var s1 := START.(modules := FileParts(rest));
      FeedInterface(s1, m);
      FeedMore(START, PrintFile(rest), PrintInterface(m), s1, START.(modules := FileParts(ms)));
    }
  }

  lemma {:induction false} FilePartsAre(ms: seq<Interface>)
    requires forall i, j :: 0 <= i < j < |ms| ==> ms[i].name != ms[j].name
    ensures forall i ::
      0 <= i < |ms| ==> ms[i].name in FileParts(ms) && FileParts(ms)[ms[i].name] == InterfaceParts(ms[i].functions)
    ensures forall name :: name in FileParts(ms) ==> exists i :: 0 <= i < |ms| && ms[i].name == name
    decreases |ms|
  {
    if ms != [] {
      var rest := ms[..|ms| - 1];
      FilePartsAre(rest);
      forall name | name in FileParts(ms) ensures exists i :: 0 <= i < |ms| && ms[i].name == name {
        if name != ms[|ms| - 1].name {
          var i :| 0 <= i < |rest| && rest[i].name == name;
          assert ms[i].name == name;
        }
      }
    }
  }

  /** Two functions have the same types and names, and so do their arguments. */
  predicate Alike(f: Function, g: Function) {
    f.ret == g.ret && f.name == g.name && |f.args| == |g.args| &&
    forall k :: 0 <= k < |f.args| ==> ArgWords(f.args[k]) == ArgWords(g.args[k])
  }

  lemma PartsDetermineFunction(f: Function, g: Function)
    requires FunctionParts(f) == FunctionParts(g)
    ensures Alike(f, g)
  {
    var parts := FunctionParts(f);
    assert parts[0] == FunctionParts(g)[0] && parts[1] == FunctionParts(g)[1];
    forall k | 0 <= k < |f.args| ensures ArgWords(f.args[k]) == ArgWords(g.args[k]) {
      assert parts[k + 2] == FunctionParts(g)[k + 2];
    }
  }

  /** The two modules have one name and the same functions in the same order. */
  predicate SameModule(m: Interface, n: Interface) {
    m.name == n.name && |m.functions| == |n.functions| &&
    forall k :: 0 <= k < |m.functions| ==> Alike(m.functions[k], n.functions[k])
  }

  lemma PartsDetermineModule(m: Interface, n: Interface)
    requires m.name == n.name && InterfaceParts(m.functions) == InterfaceParts(n.functions)
    ensures SameModule(m, n)
  {
    assert |InterfaceParts(m.functions)| == |InterfaceParts(n.functions)|;
    forall k | 0 <= k < |m.functions| ensures Alike(m.functions[k], n.functions[k]) {
      assert FunctionParts(m.functions[k]) == InterfaceParts(m.functions)[k] == InterfaceParts(n.functions)[k];
      PartsDetermineFunction(m.functions[k], n.functions[k]);
    }
  }

  predicate GoodFile(ms: seq<Interface>) {
    && (forall i :: 0 <= i < |ms| ==> GoodInterface(ms[i]))
    && (forall i, j :: 0 <= i < j < |ms| ==> ms[i].name != ms[j].name)
  }

  /** The round trip: two lists of distinctly named modules that print to files parsed alike
      have the same modules with the same functions and arguments, so that parsing loses
      nothing but the gaps. */
  lemma ParsingLosesOnlyGaps(ms: seq<Interface>, ns: seq<Interface>, i: nat)
    requires GoodFile(ms) && GoodFile(ns) && Feed(START, PrintFile(ms)) == Feed(START, PrintFile(ns)) && i < |ms|
    ensures exists j :: 0 <= j < |ns| && SameModule(ms[i], ns[j])
  {
    hide Feed, PrintFile;
    ParsesWhatIsPrinted(ms);
    ParsesWhatIsPrinted(ns);
    FilePartsAre(ms);
    FilePartsAre(ns);
    assert FileParts(ms) == FileParts(ns);
    var name := ms[i].name;
    var j :| 0 <= j < |ns| && ns[j].name == name;
    PartsDetermineModule(ms[i], ns[j]);
  }

  // ----- Structs -----

  /** What a struct being parsed becomes by a text that does not end it. */
  function FeedStruct(r: StructState, text: string): StructState
    decreases |text|
  {
    if text == "" then r else PushStruct(FeedStruct(r, text[..|text| - 1]), text[|text| - 1]).state
  }

  /** word is what stands in the body in front of one of its blanks. */
  predicate EndsAtBlank(body: string, word: string) {
    word != "" && |word| < |body| && word == body[..|word|] && (body[|word|] == ' ' || body[|word|] == '\0')
  }

  ghost predicate AllEndAtBlanks(body: string, words: seq<string>) {
    forall i :: 0 <= i < |words| ==> EndsAtBlank(body, words[i])
  }

  lemma EndsStay(front: string, body: string, words: seq<string>)
    requires front <= body && AllEndAtBlanks(front, words)
    ensures AllEndAtBlanks(body, words)
  {
    forall i | 0 <= i < |words| ensures EndsAtBlank(body, words[i]) { assert EndsAtBlank(front, words[i]); }
  }

  /** r has read body since the opening brace. */
  ghost predicate HasRead(r: StructState, body: string) {
    && r.keyworld == body && AllEndAtBlanks(body, r.argvdef)
    && forall i :: 0 <= i < |r.fields| ==> AllEndAtBlanks(body, r.fields[i])
  }

  lemma ReadsOne(r: StructState, front: string, ch: char)
    requires HasRead(r, front) && ch != '{' && ch != '}'
    ensures HasRead(PushStruct(r, ch).state, front + [ch]) && PushStruct(r, ch).state.name == r.name
  {
    var body, r' := front + [ch], PushStruct(r, ch).state;
    EndsStay(front, body, r.argvdef);
    if (ch == ' ' || ch == '\0') && front != "" { assert EndsAtBlank(body, front); }
    forall i | 0 <= i < |r'.fields| ensures AllEndAtBlanks(body, r'.fields[i]) {
      if i < |r.fields| { EndsStay(front, body, r.fields[i]); }
    }
  }

  /** The members of a struct run together: its word is never reset, so each of the words kept
      for a member is everything from the opening brace up to a blank. */
  lemma {:induction false} MembersRunTogether(name: string, body: string)
    requires forall i :: 0 <= i < |body| ==> body[i] != '{' && body[i] != '}'
    ensures var r := FeedStruct(StructState("", name, [], []), body); HasRead(r, body) && r.name == name
    decreases |body|
  {
    if body != "" {
      var front, last := body[..|body| - 1], body[|body| - 1];
      MembersRunTogether(name, front);
      ReadsOne(FeedStruct(StructState("", name, [], []), front), front, last);
      assert front + [last] == body;
    }
  }
}

/** juggle/rpcmake/statemachine.py: a parser of interface files that takes one character at a
    time. */
module Parser {

  datatype Option<T> = None | Some(value: T)

  // ----- juggle/rpcmake/deletenonespacelstrip.py -----

  function LStrip(s: string, ch: char): (r: string)
    ensures |r| <= |s|
  {
    if s != [] && s[0] == ch then LStrip(s[1..], ch) else s
  }

  /** Newlines, tabs, zeros, tabs, spaces and tabs are stripped from the left, in this order. */
  function Strip(s: string): string {
    LStrip(LStrip(LStrip(LStrip(LStrip(LStrip(LStrip(s, '\n'), '\t'), '\0'), '\t'), '\t'), ' '), '\t')
  }

  // ----- One function -----

  /** A part of a function: a word, or a list of the words of an argument. */
  datatype Part = Word(s: string) | Words(words: seq<string>)

  /** The lists are objects: the list being filled may already be part of the function. */
  datatype Item = Text(s: string) | Ref(list: nat)

  datatype FuncState = FuncState(keyworld: string, func: seq<Item>, lists: seq<seq<string>>, argvtuple: Option<nat>)

  const NEWFUNC := FuncState("", [], [], None)

  /** Crash is an exception: a method call on None. */
  datatype Outcome<S> = Next(state: S, done: bool) | Crash

  /** argvtuple.append(s) */
  function Append(f: FuncState, list: nat, s: string): FuncState {
    if list < |f.lists| then f.(lists := f.lists[list := f.lists[list] + [s]]) else f
  }

  function NewList(f: FuncState): FuncState {
    f.(argvtuple := Some(|f.lists|), lists := f.lists + [[]])
  }

  function Keep(f: FuncState, ch: char): Outcome<FuncState> {
    Next(f.(keyworld := f.keyworld + [ch]), false)
  }

  function PushFunc(f: FuncState, ch: char): Outcome<FuncState> {
    if ch == ' ' || ch == '\0' then
      var word := Strip(f.keyworld);
      if word == "" then Keep(f.(keyworld := ""), ch)
      else
        (match f.argvtuple
         case None => Next(f.(keyworld := "", func := f.func + [Text(word)]), false)
         case Some(list) => Next(Append(f, list, word).(keyworld := ""), false))
    else if ch == ',' && f.keyworld != "" then
      (match f.argvtuple
       case None => Crash
       case Some(list) =>
         Next(NewList(Append(f, list, Strip(f.keyworld)).(keyworld := "", func := f.func + [Ref(list)])), false))
    else if ch == '(' then
      Next(NewList(f.(keyworld := "", func := f.func + [Text(Strip(f.keyworld))])), false)
    else if ch == ')' && f.keyworld != "" then
      (match f.argvtuple
       case None => Crash
       case Some(list) =>
         Next(Append(f, list, Strip(f.keyworld)).(keyworld := "", func := f.func + [Ref(list)]), false))
    else if ch == ';' then Next(f, true)
    else Keep(f, ch)
  }

  /** What the list of a function holds once no list is filled any more. */
  function PartsOf(f: FuncState): seq<Part> {
    seq(|f.func|, i requires 0 <= i < |f.func| =>
      match f.func[i]
      case Text(s) => Word(s)
      case Ref(list) => Words(if list < |f.lists| then f.lists[list] else []))
  }

  // ----- One module -----

  datatype ModuleState = ModuleState(keyworld: string, name: string, functions: seq<seq<Part>>,
    machine: Option<FuncState>)

  const NEWMODULE := ModuleState("", "", [], None)

  function PushModule(m: ModuleState, ch: char): Outcome<ModuleState> {
    if ch == '}' then Next(m.(machine := None), true)
    else
      match m.machine
      case Some(f) =>
        (match PushFunc(f, ch)
         case Crash => Crash
         case Next(f', done) =>
           if done then Next(m.(functions := m.functions + [PartsOf(f')], machine := Some(NEWFUNC)), false)
           else Next(m.(machine := Some(f')), false))
      case None =>
        if ch == '{' then Next(m.(name := Strip(m.keyworld), keyworld := "", machine := Some(NEWFUNC)), false)
        else Next(m.(keyworld := m.keyworld + [ch]), false)
  }

  // ----- One struct -----

  datatype StructState = StructState(keyworld: string, name: string, fields: seq<seq<string>>, argvdef: seq<string>)

  const NEWSTRUCT := StructState("", "", [], [])

  datatype StructOutcome = StructOutcome(state: StructState, done: bool)

  function PushStruct(r: StructState, ch: char): StructOutcome {
    var r1 := if (ch == ' ' || ch == '\0') && r.keyworld != "" then r.(argvdef := r.argvdef + [r.keyworld]) else r;
    if ch == '{' then StructOutcome(r1.(name := Strip(r1.keyworld), keyworld := ""), false)
    else
      var r2 := if ch == ';' then r1.(fields := r1.fields + [r1.argvdef], argvdef := []) else r1;
      if ch == '}' then StructOutcome(r2, true) else StructOutcome(r2.(keyworld := r2.keyworld + [ch]), false)
  }

  // ----- A file -----

  datatype Machine = Idle | InModule(m: ModuleState) | InStruct(r: StructState)

  datatype State = State(
    keyworld: string, modules: map<string, seq<seq<Part>>>, structs: map<string, seq<seq<string>>>, machine: Machine)

  const START := State("", map[], map[], Idle)

  function PushFile(s: State, ch: char): Outcome<State> {
    match s.machine
    case InModule(m) =>
      (match PushModule(m, ch)
       case Crash => Crash
       case Next(m', done) =>
         if done then Next(s.(modules := s.modules[m'.name := m'.functions], machine := Idle), false)
         else Next(s.(machine := InModule(m')), false))
    case InStruct(r) =>
      var out := PushStruct(r, ch);
      if out.done then Next(s.(structs := s.structs[out.state.name := out.state.fields], machine := Idle), false)
      else Next(s.(machine := InStruct(out.state)), false)
    case Idle =>
      var keyworld := s.keyworld + [ch];
      if keyworld == "module" then Next(s.(keyworld := "", machine := InModule(NEWMODULE)), false)
      else if keyworld == "struct" then Next(s.(keyworld := "", machine := InStruct(NEWSTRUCT)), false)
      else Next(s.(keyworld := keyworld), false)
  }

  function Feed(s: State, text: string): Outcome<State>
    decreases |text|
  {
    if text == "" then Next(s, false)
    else
      match Feed(s, text[..|text| - 1])
      case Crash => Crash
      case Next(s', _) => PushFile(s', text[|text| - 1])
  }

  /** The lines of a file, one after the other. */
  function Joined(lines: seq<string>): string {
    if lines == [] then "" else Joined(lines[..|lines| - 1]) + lines[|lines| - 1]
  }

  // ----- The objects -----

  class Func {
    var keyworld: string
    var func: seq<Item>
    var lists: seq<seq<string>>
    var argvtuple: Option<nat>

    function Value(): FuncState
      reads this
    {
      FuncState(keyworld, func, lists, argvtuple)
    }

    constructor ()
      ensures Value() == NEWFUNC
    {
      keyworld, func, lists, argvtuple := "", [], [], None;
    }

    method Clear()
      modifies this
      ensures Value() == NEWFUNC
    {
      keyworld, func, lists, argvtuple := "", [], [], None;
    }

    method AppendWord(list: nat, s: string)
      modifies this`lists
      ensures Value() == Append(old(Value()), list, s)
    {
      if list < |lists| { lists := lists[list := lists[list] + [s]]; }
    }

    method OpenList()
      modifies this`lists, this`argvtuple
      ensures Value() == NewList(old(Value()))
    {
      argvtuple := Some(|lists|);
      lists := lists + [[]];
    }

    method Push(ch: char) returns (done: bool, ok: bool)
      modifies this
      ensures ok ==> PushFunc(old(Value()), ch) == Next(Value(), done)
      ensures !ok ==> PushFunc(old(Value()), ch) == Crash
    {
      done, ok := false, true;
      if ch == ' ' || ch == '\0' {
        keyworld := Strip(keyworld);
        if keyworld != "" {
          if argvtuple.None? {
            func := func + [Text(keyworld)];
          } else {
            AppendWord(argvtuple.value, keyworld);
          }
          keyworld := "";
          return;
        }
      }
      if ch == ',' && keyworld != "" {
        if argvtuple.None? { ok := false; return; }
        AppendWord(argvtuple.value, Strip(keyworld));
        func := func + [Ref(argvtuple.value)];
        keyworld := "";
        OpenList();
        return;
      }
      if ch == '(' {
        func := func + [Text(Strip(keyworld))];
        OpenList();
        keyworld := "";
        return;
      }
      if ch == ')' && keyworld != "" {
        if argvtuple.None? { ok := false; return; }
        AppendWord(argvtuple.value, Strip(keyworld));
        func := func + [Ref(argvtuple.value)];
        keyworld := "";
        return;
      }
      if ch == ';' {
        done := true;
        return;
      }
      keyworld := keyworld + [ch];
    }
  }

  class Module {
    var keyworld: string
    var name: string
    var functions: seq<seq<Part>>
    var machine: Func?

    function Value(): ModuleState
      reads this, machine
    {
      ModuleState(keyworld, name, functions, if machine == null then None else Some(machine.Value()))
    }

    constructor ()
      ensures Value() == NEWMODULE
    {
      keyworld, name, functions, machine := "", "", [], null;
    }

    method Push(ch: char) returns (done: bool, ok: bool)
      modifies this, machine
      ensures machine == null || machine == old(machine) || fresh(machine)
      ensures ok ==> PushModule(old(Value()), ch) == Next(Value(), done)
      ensures !ok ==> PushModule(old(Value()), ch) == Crash
    {
      done, ok := false, true;
      if ch == '}' {
        machine := null;
        done := true;
        return;
      }
      if machine != null {
        var ended;
        ended, ok := machine.Push(ch);
        if ok && ended {
          functions := functions + [PartsOf(machine.Value())];
          machine.Clear();
        }
      } else {
        if ch == '{' {
          name := Strip(keyworld);
          keyworld := "";
          machine := new Func();
          return;
        }
        keyworld := keyworld + [ch];
      }
    }
  }

  class Struct {
    var keyworld: string
    var name: string
    var fields: seq<seq<string>>
    var argvdef: seq<string>

    function Value(): StructState
      reads this
    {
      StructState(keyworld, name, fields, argvdef)
    }

    constructor ()
      ensures Value() == NEWSTRUCT
    {
      keyworld, name, fields, argvdef := "", "", [], [];
    }

    method Push(ch: char) returns (done: bool)
      modifies this
      ensures PushStruct(old(Value()), ch) == StructOutcome(Value(), done)
    {
      done := false;
      if ch == ' ' || ch == '\0' {
        if keyworld != "" { argvdef := argvdef + [keyworld]; }
      }
      if ch == '{' {
        name := Strip(keyworld);
        keyworld := "";
        return;
      }
      if ch == ';' {
        fields := fields + [argvdef];
        argvdef := [];
      }
      if ch == '}' {
        done := true;
        return;
      }
      keyworld := keyworld + [ch];
    }
  }

  /** One variable of the source holds the machine: at most one of the two references is not null. */
  class StateMachine {
    var keyworld: string
    var modules: map<string, seq<seq<Part>>>
    var structs: map<string, seq<seq<string>>>
    var machine: Module?
    var record: Struct?

    function Footprint(): set<object?>
      reads this, machine
    {
      {this, machine, record} + (if machine == null then {} else {machine.machine})
    }

    function Value(): State
      reads this, machine, record, if machine == null then {} else {machine.machine}
    {
      State(keyworld, modules, structs,
        if machine != null then InModule(machine.Value())
        else if record != null then InStruct(record.Value())
        else Idle)
    }

    constructor ()
      ensures Value() == START && machine == null && record == null
    {
      keyworld, modules, structs, machine, record := "", map[], map[], null, null;
    }

    /** An exception of a machine goes through. */
    method Push(ch: char) returns (ok: bool)
      requires machine == null || record == null
      modifies Footprint()
      ensures machine == null || record == null
      ensures forall o :: o in Footprint() && o !in old(Footprint()) ==> fresh(o)
      ensures ok ==> PushFile(old(Value()), ch) == Next(Value(), false)
      ensures !ok ==> PushFile(old(Value()), ch) == Crash
    {
      ok := true;
      if machine != null {
        var ended;
        ended, ok := machine.Push(ch);
        if ok && ended {
          modules := modules[machine.name := machine.functions];
          machine := null;
        }
      } else if record != null {
        var ended := record.Push(ch);
        if ended {
          structs := structs[record.name := record.fields];
          record := null;
        }
      } else {
        keyworld := keyworld + [ch];
        if keyworld == "module" {
          machine := new Module();
          keyworld := "";
        }
        if keyworld == "struct" {
          record := new Struct();
          keyworld := "";
        }
      }
    }

    /** Lines are taken one after the other, each character by character; an exception ends it. */
    method SyntaxAnalysis(genfilestr: seq<string>) returns (ok: bool)
      requires machine == null || record == null
      modifies Footprint()
      ensures machine == null || record == null
      ensures forall o :: o in Footprint() && o !in old(Footprint()) ==> fresh(o)
      ensures ok ==> Feed(old(Value()), Joined(genfilestr)) == Next(Value(), false)
      ensures !ok ==> Feed(old(Value()), Joined(genfilestr)) == Crash
    {
      hide PushFile;
      ghost var start := Value();
      ok := true;
      var i := 0;
      while i < |genfilestr|
        invariant i <= |genfilestr|
        invariant machine == null || record == null
        invariant forall o :: o in Footprint() && o !in old(Footprint()) ==> fresh(o)
        invariant Feed(start, Joined(genfilestr[..i])) == Next(Value(), false)
      {
        var j := 0;
        assert genfilestr[..i + 1][..i] == genfilestr[..i];
        assert genfilestr[i][..0] == "";
        assert Joined(genfilestr[..i]) + "" == Joined(genfilestr[..i]);
        while j < |genfilestr[i]|
          invariant j <= |genfilestr[i]|
          invariant machine == null || record == null
          invariant forall o :: o in Footprint() && o !in old(Footprint()) ==> fresh(o)
          invariant Feed(start, Joined(genfilestr[..i]) + genfilestr[i][..j]) == Next(Value(), false)
        {
          FeedSnoc(start, Joined(genfilestr[..i]), genfilestr[i], j);
          ok := Push(genfilestr[i][j]);
          if !ok {
            CrashStays(start, genfilestr, i, j + 1);
            return;
          }
          j := j + 1;
        }
        assert genfilestr[i][..|genfilestr[i]|] == genfilestr[i];
        i := i + 1;
      }
      assert genfilestr[..|genfilestr|] == genfilestr;
    }
  }

  lemma FeedSnoc(s: State, before: string, line: string, j: nat)
    requires j < |line|
    ensures Feed(s, before + line[..j + 1]) ==
      match Feed(s, before + line[..j]) case Crash => Crash case Next(s', _) => PushFile(s', line[j])
  {
    var text := before + line[..j + 1];
    assert text[..|text| - 1] == before + line[..j];
  }

  lemma {:induction false} CrashGoesOn(s: State, a: string, b: string)
    requires Feed(s, a) == Crash
    ensures Feed(s, a + b) == Crash
    decreases |b|
  {
    if b == "" {
      assert a + b == a;
    } else {
      CrashGoesOn(s, a, b[..|b| - 1]);
      assert (a + b)[..|a + b| - 1] == a + b[..|b| - 1];
    }
  }

  lemma {:induction false} JoinedSplits(lines: seq<string>, i: nat) returns (rest: string)
    requires i <= |lines|
    ensures Joined(lines) == Joined(lines[..i]) + rest
    decreases |lines|
  {
    if i == |lines| {
      assert lines[..i] == lines;
      rest := "";
    } else {
      rest := JoinedSplits(lines[..|lines| - 1], i);
      assert lines[..|lines| - 1][..i] == lines[..i];
      assert Joined(lines) == Joined(lines[..i]) + (rest + lines[|lines| - 1]);
      rest := rest + lines[|lines| - 1];
    }
  }

  lemma CrashStays(s: State, lines: seq<string>, i: nat, j: nat)
    requires i < |lines| && j <= |lines[i]| && Feed(s, Joined(lines[..i]) + lines[i][..j]) == Crash
    ensures Feed(s, Joined(lines)) == Crash
  {
    var rest := JoinedSplits(lines, i + 1);
    assert lines[..i + 1][..i] == lines[..i];
    assert Joined(lines) == Joined(lines[..i]) + lines[i][..j] + (lines[i][j..] + rest);
    CrashGoesOn(s, Joined(lines[..i]) + lines[i][..j], lines[i][j..] + rest);
  }
}

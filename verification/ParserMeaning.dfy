/** What the interface parser makes of any text whatever: functions without shared lists, modules,
    structs, and what stands outside of them. */
module ParserMeaning {
  import opened Parser
  import opened ParserProof

  // ----- The words of a function -----

  /** A word and what ends it: a blank, a comma, or a parenthesis. */
  datatype Token = Spaced(word: string) | Comma(word: string) | Open(word: string) | Close(word: string)

  /** The words of a text that has pending in front of it.  A comma or a closing parenthesis with
      nothing pending, as after a word and a blank, begins a word. */
  function Tokens(pending: string, text: string): seq<Token>
    decreases |text|
  {
    if text == "" then []
    else
      var ch, rest, word := text[0], text[1..], Strip(pending);
      if IsBlank(ch) && word != "" then [Spaced(word)] + Tokens("", rest)
      else if IsBlank(ch) then Tokens([ch], rest)
      else if ch == '(' then [Open(word)] + Tokens("", rest)
      else if ch == ',' && pending != "" then [Comma(word)] + Tokens("", rest)
      else if ch == ')' && pending != "" then [Close(word)] + Tokens("", rest)
      else Tokens(pending + [ch], rest)
  }

  function Copies(n: nat, list: seq<string>): seq<Part> {
    seq(n, _ => Words(list))
  }

  /** The parts that words behind an opening parenthesis add: every comma and every closing
      parenthesis adds the argument once, with all its words, also those that come after a
      closing parenthesis; a comma or another opening parenthesis begins a new argument. */
  function Arguments(tokens: seq<Token>, list: seq<string>, copies: nat): seq<Part>
    decreases |tokens|
  {
    if tokens == [] then Copies(copies, list)
    else
      match tokens[0]
      case Spaced(word) => Arguments(tokens[1..], list + [word], copies)
      case Close(word) => Arguments(tokens[1..], list + [word], copies + 1)
      case Comma(word) => Copies(copies + 1, list + [word]) + Arguments(tokens[1..], [], 0)
      case Open(word) => Copies(copies, list) + [Word(word)] + Arguments(tokens[1..], [], 0)
  }

  /** The parts of a function; none if a comma or a closing parenthesis ends a word before the
      first opening parenthesis. */
  function Meaning(tokens: seq<Token>): Option<seq<Part>>
    decreases |tokens|
  {
    if tokens == [] then Some([])
    else
      match tokens[0]
      case Spaced(word) =>
        (match Meaning(tokens[1..]) case None => None case Some(parts) => Some([Word(word)] + parts))
      case Open(word) => Some([Word(word)] + Arguments(tokens[1..], [], 0))
      case Comma(_) => None
      case Close(_) => None
  }

  // ----- One character after the other -----

  lemma FeedFirst(s: State, ch: char, rest: string, s': State)
    requires PushFile(s, ch) == Next(s', false)
    ensures Feed(s, [ch] + rest) == Feed(s', rest)
  {
    FeedOne(s, ch);
    FeedConcat(s, [ch], rest);
  }

  lemma FuncFirst(s: State, m: ModuleState, f: FuncState, text: string, f': FuncState)
    requires text != "" && text[0] != '}' && PushFunc(f, text[0]) == Next(f', false)
    ensures Feed(Within(s, m, f), text + ";") == Feed(Within(s, m, f'), text[1..] + ";")
  {
    FeedFirst(Within(s, m, f), text[0], text[1..] + ";", Within(s, m, f'));
    assert text + ";" == [text[0]] + (text[1..] + ";");
  }

  lemma FuncCrashes(s: State, m: ModuleState, f: FuncState, text: string)
    requires text != "" && text[0] != '}' && PushFunc(f, text[0]) == Crash
    ensures Feed(Within(s, m, f), text + ";") == Crash
  {
    FeedOne(Within(s, m, f), text[0]);
    CrashGoesOn(Within(s, m, f), [text[0]], text[1..] + ";");
    assert text + ";" == [text[0]] + (text[1..] + ";");
  }

  /** The module with one more function. */
  function Plus(m: ModuleState, parts: seq<Part>): ModuleState {
    m.(functions := m.functions + [parts])
  }

  lemma FuncEnds(s: State, m: ModuleState, f: FuncState)
    ensures Feed(Within(s, m, f), "" + ";") == Next(Within(s, Plus(m, PartsOf(f)), NEWFUNC), false)
  {
    assert PushFunc(f, ';') == Next(f, true);
    FeedOne(Within(s, m, f), ';');
    assert PushFile(Within(s, m, f), ';') == Next(Within(s, Plus(m, PartsOf(f)), NEWFUNC), false);
    assert "" + ";" == [';'];
  }

  // ----- Behind the first parenthesis -----

  /** The item stands for the part, and for a list that is no longer filled. */
  predicate StandsFor(item: Item, lists: seq<seq<string>>, part: Part) {
    match item
    case Text(s) => part == Word(s)
    case Ref(list) => list < |lists| - 1 && part == Words(lists[list])
  }

  /** f holds the parts before, and then so many references to the list that is being filled. */
  ghost predicate Filling(f: FuncState, before: seq<Part>, copies: nat) {
    && |f.lists| > 0 && f.argvtuple == Some(|f.lists| - 1) && |f.func| == |before| + copies
    && (forall i :: 0 <= i < |before| ==> StandsFor(f.func[i], f.lists, before[i]))
    && forall i :: |before| <= i < |f.func| ==> f.func[i] == Ref(|f.lists| - 1)
  }

  function LastList(f: FuncState): seq<string> {
    if f.lists == [] then [] else f.lists[|f.lists| - 1]
  }

  lemma FillingParts(f: FuncState, before: seq<Part>, copies: nat)
    requires Filling(f, before, copies)
    ensures PartsOf(f) == before + Copies(copies, LastList(f))
  {}

  lemma FillingSpaced(f: FuncState, before: seq<Part>, copies: nat, ch: char, word: string) returns (f': FuncState)
    requires Filling(f, before, copies) && IsBlank(ch) && Strip(f.keyworld) == word != ""
    ensures PushFunc(f, ch) == Next(f', false)
    ensures Filling(f', before, copies) && f'.keyworld == "" && LastList(f') == LastList(f) + [word]
  {
    f' := Append(f, |f.lists| - 1, word).(keyworld := "");
  }

  lemma FillingClose(f: FuncState, before: seq<Part>, copies: nat) returns (f': FuncState)
    requires Filling(f, before, copies) && f.keyworld != ""
    ensures PushFunc(f, ')') == Next(f', false)
    ensures Filling(f', before, copies + 1) && f'.keyworld == ""
    ensures LastList(f') == LastList(f) + [Strip(f.keyworld)]
  {
    var last := |f.lists| - 1;
    f' := Append(f, last, Strip(f.keyworld)).(keyworld := "", func := f.func + [Ref(last)]);
  }

  lemma FillingComma(f: FuncState, before: seq<Part>, copies: nat) returns (f': FuncState)
    requires Filling(f, before, copies) && f.keyworld != ""
    ensures PushFunc(f, ',') == Next(f', false)
    ensures Filling(f', before + Copies(copies + 1, LastList(f) + [Strip(f.keyworld)]), 0)
    ensures f'.keyworld == "" && LastList(f') == []
  {
    var last := |f.lists| - 1;
    f' := NewList(Append(f, last, Strip(f.keyworld)).(keyworld := "", func := f.func + [Ref(last)]));
  }

  lemma FillingOpen(f: FuncState, before: seq<Part>, copies: nat) returns (f': FuncState)
    requires Filling(f, before, copies)
    ensures PushFunc(f, '(') == Next(f', false)
    ensures Filling(f', before + Copies(copies, LastList(f)) + [Word(Strip(f.keyworld))], 0)
    ensures f'.keyworld == "" && LastList(f') == []
  {
    f' := NewList(f.(keyworld := "", func := f.func + [Text(Strip(f.keyworld))]));
  }

  /** Neither the function nor the module ends. */
  predicate GoesOn(text: string) {
    forall i :: 0 <= i < |text| ==> text[i] != ';' && text[i] != '}'
  }

  /** A character that joins the pending word, or a blank with no word in front of it. */
  predicate Joins(pending: string, ch: char) {
    && ch != ';' && ch != '}' && ch != '(' && ((ch == ',' || ch == ')') ==> pending == "")
    && (IsBlank(ch) ==> Strip(pending) == "")
  }

  function Grown(pending: string, ch: char): string {
    if IsBlank(ch) then [ch] else pending + [ch]
  }

  lemma GrownIs(f: FuncState, ch: char, rest: string)
    requires Joins(f.keyworld, ch)
    ensures PushFunc(f, ch) == Next(f.(keyworld := Grown(f.keyworld, ch)), false)
    ensures Tokens(f.keyworld, [ch] + rest) == Tokens(Grown(f.keyworld, ch), rest)
  {
    assert "" + [ch] == [ch];
    assert ([ch] + rest)[1..] == rest;
  }

  /** What ends the pending word, if the character does not join it. */
  function Ended(pending: string, ch: char): Token
    requires !Joins(pending, ch) && ch != ';' && ch != '}'
  {
    var word := Strip(pending);
    if IsBlank(ch) then Spaced(word)
    else if ch == ')' then Close(word)
    else if ch == ',' then Comma(word)
    else Open(word)
  }

  lemma EndedIs(pending: string, ch: char, rest: string)
    requires !Joins(pending, ch) && ch != ';' && ch != '}'
    ensures Tokens(pending, [ch] + rest) == [Ended(pending, ch)] + Tokens("", rest)
  {
    assert ([ch] + rest)[1..] == rest;
  }

  /** The parts before, the number of references and the list that the next token leaves. */
  function Before(before: seq<Part>, list: seq<string>, copies: nat, t: Token): seq<Part> {
    match t
    case Spaced(_) => before
    case Close(_) => before
    case Comma(word) => before + Copies(copies + 1, list + [word])
    case Open(word) => before + Copies(copies, list) + [Word(word)]
  }

  function CopiesAfter(copies: nat, t: Token): nat {
    match t
    case Spaced(_) => copies
    case Close(_) => copies + 1
    case _ => 0
  }

  function ListAfter(list: seq<string>, t: Token): seq<string> {
    if t.Spaced? || t.Close? then list + [t.word] else []
  }

  lemma ArgumentsFirst(before: seq<Part>, list: seq<string>, copies: nat, t: Token, ts: seq<Token>)
    ensures before + Arguments([t] + ts, list, copies) ==
      Before(before, list, copies, t) + Arguments(ts, ListAfter(list, t), CopiesAfter(copies, t))
  {
    assert ([t] + ts)[1..] == ts;
  }

  lemma FillingEnds(f: FuncState, before: seq<Part>, copies: nat, ch: char) returns (f': FuncState)
    requires Filling(f, before, copies) && !Joins(f.keyworld, ch) && ch != ';' && ch != '}'
    ensures PushFunc(f, ch) == Next(f', false) && f'.keyworld == ""
    ensures var t := Ended(f.keyworld, ch);
      && Filling(f', Before(before, LastList(f), copies, t), CopiesAfter(copies, t))
      && LastList(f') == ListAfter(LastList(f), t)
  {
    hide PushFunc, Filling, Strip, LStrip;
    if IsBlank(ch) {
      f' := FillingSpaced(f, before, copies, ch, Strip(f.keyworld));
    } else if ch == ')' {
      f' := FillingClose(f, before, copies);
    } else if ch == ',' {
      f' := FillingComma(f, before, copies);
    } else {
      f' := FillingOpen(f, before, copies);
    }
  }

  lemma {:induction false} ReadsArguments(s: State, m: ModuleState, f: FuncState, before: seq<Part>, copies: nat,
                                          text: string)
    requires Filling(f, before, copies) && GoesOn(text)
    ensures Feed(Within(s, m, f), text + ";") ==
      Next(Within(s, Plus(m, before + Arguments(Tokens(f.keyworld, text), LastList(f), copies)), NEWFUNC), false)
    decreases |text|
  {
    if text == "" {
      FuncEnds(s, m, f);
      FillingParts(f, before, copies);
    } else {
      var ch, rest := text[0], text[1..];
      assert text == [ch] + rest && GoesOn(rest);
      FillingJoins(f, before, copies, Grown(f.keyworld, ch));
      hide Feed, PushFunc, Filling, Joins, Tokens, Strip, LStrip, Arguments, GoesOn;
      if Joins(f.keyworld, ch) {
        var f' := f.(keyworld := Grown(f.keyworld, ch));
        GrownIs(f, ch, rest);
        FuncFirst(s, m, f, text, f');
        ReadsArguments(s, m, f', before, copies, rest);
      } else {
        var t := Ended(f.keyworld, ch);
        var f' := FillingEnds(f, before, copies, ch);
        EndedIs(f.keyworld, ch, rest);
        ArgumentsFirst(before, LastList(f), copies, t, Tokens("", rest));
        FuncFirst(s, m, f, text, f');
        ReadsArguments(s, m, f', Before(before, LastList(f), copies, t), CopiesAfter(copies, t), rest);
      }
    }
  }

  lemma FillingJoins(f: FuncState, before: seq<Part>, copies: nat, keyworld: string)
    requires Filling(f, before, copies)
    ensures Filling(f.(keyworld := keyworld), before, copies)
  {}

  // ----- A whole function -----

  /** Before the first parenthesis. */
  ghost predicate Heading(f: FuncState) {
    f.argvtuple.None? && f.lists == [] && forall i :: 0 <= i < |f.func| ==> f.func[i].Text?
  }

  lemma HeadingSpaced(f: FuncState, ch: char) returns (f': FuncState)
    requires Heading(f) && IsBlank(ch) && Strip(f.keyworld) != ""
    ensures PushFunc(f, ch) == Next(f', false) && Heading(f') && f'.keyworld == ""
    ensures PartsOf(f') == PartsOf(f) + [Word(Strip(f.keyworld))]
  {
    f' := f.(keyworld := "", func := f.func + [Text(Strip(f.keyworld))]);
  }

  lemma HeadingOpen(f: FuncState) returns (f': FuncState)
    requires Heading(f)
    ensures PushFunc(f, '(') == Next(f', false) && Filling(f', PartsOf(f) + [Word(Strip(f.keyworld))], 0)
    ensures f'.keyworld == "" && LastList(f') == []
  {
    f' := NewList(f.(keyworld := "", func := f.func + [Text(Strip(f.keyworld))]));
  }

  lemma HeadingJoins(f: FuncState, keyworld: string)
    requires Heading(f)
    ensures Heading(f.(keyworld := keyworld)) && PartsOf(f.(keyworld := keyworld)) == PartsOf(f)
  {}

  lemma MeaningFirst(t: Token, ts: seq<Token>)
    ensures Meaning([t] + ts) ==
      match t
      case Spaced(word) => (match Meaning(ts) case None => None case Some(parts) => Some([Word(word)] + parts))
      case Open(word) => Some([Word(word)] + Arguments(ts, [], 0))
      case _ => None
  {
    assert ([t] + ts)[1..] == ts;
  }

  /** What the parser has after the function: the module with its parts, or an exception. */
  function OutcomeOf(s: State, m: ModuleState, before: seq<Part>, meaning: Option<seq<Part>>): Outcome<State> {
    match meaning
    case None => Crash
    case Some(parts) => Next(Within(s, Plus(m, before + parts), NEWFUNC), false)
  }

  lemma HeadingCrashes(s: State, m: ModuleState, f: FuncState, text: string)
    requires Heading(f) && text != "" && (text[0] == ',' || text[0] == ')') && f.keyworld != ""
    ensures Feed(Within(s, m, f), text + ";") == Crash
  {
    FuncCrashes(s, m, f, text);
  }

  lemma {:induction false} ReadsFunction(s: State, m: ModuleState, f: FuncState, text: string)
    requires Heading(f) && GoesOn(text)
    ensures Feed(Within(s, m, f), text + ";") == OutcomeOf(s, m, PartsOf(f), Meaning(Tokens(f.keyworld, text)))
    decreases |text|
  {
    if text == "" {
      FuncEnds(s, m, f);
      assert PartsOf(f) + [] == PartsOf(f);
    } else {
      var ch, rest := text[0], text[1..];
      assert text == [ch] + rest && GoesOn(rest);
      HeadingJoins(f, Grown(f.keyworld, ch));
      hide Feed, PushFunc, PartsOf, Heading, Tokens, Strip, LStrip, Meaning, Arguments, GoesOn;
      if Joins(f.keyworld, ch) {
        var f' := f.(keyworld := Grown(f.keyworld, ch));
        GrownIs(f, ch, rest);
        FuncFirst(s, m, f, text, f');
        ReadsFunction(s, m, f', rest);
      } else {
        var t := Ended(f.keyworld, ch);
        EndedIs(f.keyworld, ch, rest);
        MeaningFirst(t, Tokens("", rest));
        if IsBlank(ch) {
          var f' := HeadingSpaced(f, ch);
          FuncFirst(s, m, f, text, f');
          ReadsFunction(s, m, f', rest);
          Regrouped(PartsOf(f), Word(t.word), Meaning(Tokens("", rest)));
        } else if ch == '(' {
          var f' := HeadingOpen(f);
          FuncFirst(s, m, f, text, f');
          ReadsArguments(s, m, f', PartsOf(f) + [Word(t.word)], 0, rest);
          Regrouped(PartsOf(f), Word(t.word), Some(Arguments(Tokens("", rest), [], 0)));
        } else {
          HeadingCrashes(s, m, f, text);
        }
      }
    }
  }

  lemma Regrouped(before: seq<Part>, part: Part, parts: Option<seq<Part>>)
    ensures parts.Some? ==> before + [part] + parts.value == before + ([part] + parts.value)
  {}

  /** Any text without a semicolon or closing brace, and a semicolon: the parser adds the parts
      the words mean to the module, or raises an exception exactly when they mean nothing. */
  lemma FunctionMeans(s: State, m: ModuleState, text: string)
    requires GoesOn(text)
    ensures Feed(Within(s, m, NEWFUNC), text + ";") ==
      match Meaning(Tokens("", text))
      case None => Crash
      case Some(parts) => Next(Within(s, Plus(m, parts), NEWFUNC), false)
  {
    ReadsFunction(s, m, NEWFUNC, text);
    assert PartsOf(NEWFUNC) == [];
    assert Meaning(Tokens("", text)).Some? ==> [] + Meaning(Tokens("", text)).value == Meaning(Tokens("", text)).value;
  }

  // ----- A whole module -----

  /** Functions, each with its semicolon. */
  function Functions(texts: seq<string>): string {
    if texts == [] then "" else texts[0] + ";" + Functions(texts[1..])
  }

  /** What the functions mean, if they all mean something. */
  function Meanings(texts: seq<string>): Option<seq<seq<Part>>> {
    if texts == [] then Some([])
    else
      match (Meaning(Tokens("", texts[0])), Meanings(texts[1..]))
      case (Some(parts), Some(more)) => Some([parts] + more)
      case _ => None
  }

  /** Without a semicolon and a closing brace the parser stays in the function, or crashes. */
  lemma {:induction false} StaysWithin(s: State, m: ModuleState, f: FuncState, text: string)
    requires GoesOn(text)
    ensures Feed(Within(s, m, f), text) != Crash ==>
      exists f' :: Feed(Within(s, m, f), text) == Next(Within(s, m, f'), false)
    decreases |text|
  {
    if text == "" {
      FeedNothing(Within(s, m, f));
    } else {
      var front, ch := text[..|text| - 1], text[|text| - 1];
      StaysWithin(s, m, f, front);
      if Feed(Within(s, m, f), front) != Crash {
        var f' :| Feed(Within(s, m, f), front) == Next(Within(s, m, f'), false);
        assert PushFunc(f', ch) != Crash ==> !PushFunc(f', ch).done;
        assert PushFunc(f', ch) != Crash ==>
          Feed(Within(s, m, f), text) == Next(Within(s, m, PushFunc(f', ch).state), false);
      }
    }
  }

  /** A function without its semicolon is forgotten at the closing brace, if it means anything. */
  lemma BraceEnds(s: State, m: ModuleState, last: string)
    requires GoesOn(last)
    ensures Feed(Within(s, m, NEWFUNC), last + "}") ==
      if Meaning(Tokens("", last)).None? then Crash
      else Next(s.(modules := s.modules[m.name := m.functions], machine := Idle), false)
  {
    var w := Within(s, m, NEWFUNC);
    FunctionMeans(s, m, last);
    StaysWithin(s, m, NEWFUNC, last);
    hide Tokens, Meaning, Feed, GoesOn;
    if Feed(w, last) == Crash {
      CrashGoesOn(w, last, ";");
      CrashGoesOn(w, last, "}");
    } else {
      var f' :| Feed(w, last) == Next(Within(s, m, f'), false);
      FeedConcat(w, last, ";");
      FuncEnds(s, m, f');
      assert "" + ";" == ";";
      FeedConcat(w, last, "}");
      FeedOne(Within(s, m, f'), '}');
    }
  }

  lemma MeaningsFirst(texts: seq<string>)
    requires texts != []
    ensures Functions(texts) == texts[0] + ";" + Functions(texts[1..])
    ensures Meanings(texts) ==
      match (Meaning(Tokens("", texts[0])), Meanings(texts[1..]))
      case (Some(parts), Some(more)) => Some([parts] + more)
      case _ => None
  {}

  /** What the parser has after the last function: the module, or an exception. */
  function Recorded(s: State, m: ModuleState, meanings: Option<seq<seq<Part>>>, last: Option<seq<Part>>)
    : Outcome<State>
  {
    if meanings.None? || last.None? then Crash
    else Next(s.(modules := s.modules[m.name := m.functions + meanings.value], machine := Idle), false)
  }

  lemma RecordedFirst(s: State, m: ModuleState, parts: seq<Part>, more: Option<seq<seq<Part>>>, last: Option<seq<Part>>)
    ensures Recorded(s, Plus(m, parts), more, last) ==
      Recorded(s, m, match more case None => None case Some(all) => Some([parts] + all), last)
  {
    assert more.Some? ==> m.functions + [parts] + more.value == m.functions + ([parts] + more.value);
  }

  lemma {:induction false} ReadsFunctions(s: State, m: ModuleState, texts: seq<string>, last: string)
    requires (forall i :: 0 <= i < |texts| ==> GoesOn(texts[i])) && GoesOn(last)
    ensures Feed(Within(s, m, NEWFUNC), Functions(texts) + last + "}") ==
      Recorded(s, m, Meanings(texts), Meaning(Tokens("", last)))
    decreases |texts|
  {
    var w := Within(s, m, NEWFUNC);
    if texts == [] {
      BraceEnds(s, m, last);
      assert Functions(texts) + last + "}" == last + "}" && m.functions + [] == m.functions;
    } else {
      hide Feed, Tokens, Meaning, Meanings, Functions, GoesOn, Recorded;
      var first, rest := texts[0] + ";", Functions(texts[1..]) + last + "}";
      FunctionMeans(s, m, texts[0]);
      MeaningsFirst(texts);
      assert Functions(texts) + last + "}" == first + rest;
      match Meaning(Tokens("", texts[0]))
      case None =>
        CrashGoesOn(w, first, rest);
        assert Recorded(s, m, None, Meaning(Tokens("", last))) == Crash by { NothingRecorded(s, m, last); }
      case Some(parts) =>
        FeedConcat(w, first, rest);
        ReadsFunctions(s, Plus(m, parts), texts[1..], last);
        RecordedFirst(s, m, parts, Meanings(texts[1..]), Meaning(Tokens("", last)));
    }
  }

  lemma NothingRecorded(s: State, m: ModuleState, last: string)
    ensures Recorded(s, m, None, Meaning(Tokens("", last))) == Crash
  {}

  predicate NoBraces(text: string) {
    forall i :: 0 <= i < |text| ==> text[i] != '{' && text[i] != '}'
  }

  /** A whole module, whatever stands in it: its name is the stripped header, its functions are
      what the texts before the semicolons mean, and there is an exception exactly when one of
      them, or what stands behind the last semicolon, means nothing. */
  lemma ModuleMeans(s: State, header: string, texts: seq<string>, last: string)
    requires s.machine.Idle? && s.keyworld == "" && NoBraces(header)
    requires (forall i :: 0 <= i < |texts| ==> GoesOn(texts[i])) && GoesOn(last)
    ensures Feed(s, "module" + header + "{" + (Functions(texts) + last + "}")) ==
      if Meanings(texts).None? || Meaning(Tokens("", last)).None? then Crash
      else Next(s.(modules := s.modules[Strip(header) := Meanings(texts).value]), false)
  {
    var m, keyword := ModuleState("", Strip(header), [], None), "module";
    FeedKeyword(s);
    FeedHeaderText(s, header);
    ReadsFunctions(s, m, texts, last);
    hide Feed, Strip, LStrip, Functions, Tokens, Meaning, Meanings;
    FeedMore(s, keyword, header, InHeader(s, ""), InHeader(s, header));
    HeaderEnds(s, header, Strip(header));
    FeedMore(s, keyword + header, "{", InHeader(s, header), Within(s, m, NEWFUNC));
    FeedConcat(s, keyword + header + "{", Functions(texts) + last + "}");
    assert Meanings(texts).Some? ==> [] + Meanings(texts).value == Meanings(texts).value;
  }

  // ----- A whole struct -----

  /** What stands in text up to each of its blanks from a to b, if anything does. */
  function UpToBlanks(text: string, a: nat, b: nat): seq<string>
    requires a <= b <= |text|
    decreases b - a
  {
    if a == b then []
    else if a > 0 && IsBlank(text[a]) then [text[..a]] + UpToBlanks(text, a + 1, b)
    else UpToBlanks(text, a + 1, b)
  }

  /** The place of the first semicolon from a on, or the end. */
  function Semicolon(text: string, a: nat): (i: nat)
    requires a <= |text|
    ensures a <= i <= |text| && (i < |text| ==> text[i] == ';') && forall j :: a <= j < i ==> text[j] != ';'
    decreases |text| - a
  {
    if a == |text| || text[a] == ';' then a else Semicolon(text, a + 1)
  }

  /** The members that end at the semicolons from a on, the first of which begins with some words,
      and the words behind the last semicolon. */
  function Members(text: string, a: nat, words: seq<string>): (seq<seq<string>>, seq<string>)
    requires a <= |text|
    decreases |text| - a
  {
    var i := Semicolon(text, a);
    var all := words + UpToBlanks(text, a, i);
    if i == |text| then ([], all)
    else
      var (members, open) := Members(text, i + 1, []);
      ([all] + members, open)
  }

  lemma MembersEnd(text: string, words: seq<string>)
    ensures Members(text, |text|, words) == ([], words)
  {
    assert words + [] == words;
  }

  lemma MembersFirst(text: string, a: nat, fields: seq<seq<string>>, words: seq<string>)
    requires a < |text|
    ensures text[a] == ';' ==>
      fields + Members(text, a, words).0 == fields + [words] + Members(text, a + 1, []).0 &&
        Members(text, a, words).1 == Members(text, a + 1, []).1
    ensures text[a] != ';' ==>
      Members(text, a, words) ==
        Members(text, a + 1, if a > 0 && IsBlank(text[a]) then words + [text[..a]] else words)
  {
    var i := Semicolon(text, a);
    if text[a] != ';' && a > 0 && IsBlank(text[a]) {
      assert words + ([text[..a]] + UpToBlanks(text, a + 1, i)) == words + [text[..a]] + UpToBlanks(text, a + 1, i);
    }
    if text[a] == ';' {
      assert words + [] == words;
      assert fields + ([words] + Members(text, a + 1, []).0) == fields + [words] + Members(text, a + 1, []).0;
    }
  }

  function Reading(s: State, r: StructState): State {
    s.(machine := InStruct(r))
  }

  lemma StructStep(s: State, r: StructState, text: string, a: nat) returns (r': StructState)
    requires NoBraces(text) && a < |text| && r.keyworld == text[..a]
    ensures PushFile(Reading(s, r), text[a]) == Next(Reading(s, r'), false)
    ensures r'.keyworld == text[..a + 1] && r'.name == r.name
    ensures r'.fields == if text[a] == ';' then r.fields + [r.argvdef] else r.fields
    ensures r'.argvdef ==
      if text[a] == ';' then [] else if a > 0 && IsBlank(text[a]) then r.argvdef + [text[..a]] else r.argvdef
  {
    r' := PushStruct(r, text[a]).state;
    assert text[..a + 1] == text[..a] + [text[a]];
  }

  /** From place a on, everything before it being the pending word. */
  lemma {:induction false} ReadsMembers(s: State, r: StructState, text: string, a: nat)
    requires NoBraces(text) && a <= |text| && r.keyworld == text[..a]
    ensures var (members, open) := Members(text, a, r.argvdef);
      Feed(Reading(s, r), text[a..]) == Next(Reading(s, StructState(text, r.name, r.fields + members, open)), false)
    decreases |text| - a
  {
    hide *;
    if a == |text| {
      FeedNothing(Reading(s, r));
      MembersEnd(text, r.argvdef);
      assert text[..a] == text && text[a..] == "" && r.fields + [] == r.fields;
    } else {
      var r' := StructStep(s, r, text, a);
      assert text[a..] == [text[a]] + text[a + 1..];
      FeedFirst(Reading(s, r), text[a], text[a + 1..], Reading(s, r'));
      MembersFirst(text, a, r.fields, r.argvdef);
      ReadsMembers(s, r', text, a + 1);
    }
  }

  // ----- Outside -----

  /** Outside of modules and structs characters pile up until they spell a keyword. */
  lemma {:induction false} PilesUp(s: State, text: string)
    requires s.machine.Idle?
    requires forall i :: 0 < i <= |text| ==> s.keyworld + text[..i] != "module" && s.keyworld + text[..i] != "struct"
    ensures Feed(s, text) == Next(s.(keyworld := s.keyworld + text), false)
    decreases |text|
  {
    if text == "" {
      assert s.keyworld + "" == s.keyworld;
    } else {
      var front, ch := text[..|text| - 1], text[|text| - 1];
      assert forall i :: 0 < i <= |front| ==> front[..i] == text[..i];
      PilesUp(s, front);
      assert text[..|text|] == text && s.keyworld + text == s.keyworld + front + [ch];
    }
  }

  /** Once something else stands there, be it a newline, no keyword is found any more. */
  lemma NothingIsFoundBehind(s: State, text: string)
    requires s.machine.Idle? && !(s.keyworld <= "module") && !(s.keyworld <= "struct")
    ensures Feed(s, text) == Next(s.(keyworld := s.keyworld + text), false)
  {
    forall i | 0 < i <= |text| ensures s.keyworld + text[..i] != "module" && s.keyworld + text[..i] != "struct" {
      assert s.keyworld <= s.keyworld + text[..i];
    }
    PilesUp(s, text);
  }

  lemma FeedStructKeyword(s: State)
    requires s.machine.Idle? && s.keyworld == ""
    ensures Feed(s, "struct") == Next(Reading(s, NEWSTRUCT), false)
  {
    PilesUp(s, "struc");
    assert "" + "struc" == "struc" && "struc" + ['t'] == "struct";
    FeedOne(s.(keyworld := "struc"), 't');
    FeedMore(s, "struc", "t", s.(keyworld := "struc"), Reading(s, NEWSTRUCT));
  }

  lemma StructBraces(s: State, r: StructState)
    ensures Feed(Reading(s, r), "{") == Next(Reading(s, r.(name := Strip(r.keyworld), keyworld := "")), false)
    ensures Feed(Reading(s, r), "}") == Next(s.(structs := s.structs[r.name := r.fields], machine := Idle), false)
  {
    FeedOne(Reading(s, r), '{');
    FeedOne(Reading(s, r), '}');
  }

  lemma ReadsAllMembers(s: State, r: StructState, text: string)
    requires NoBraces(text) && r.keyworld == ""
    ensures var (members, open) := Members(text, 0, r.argvdef);
      Feed(Reading(s, r), text) == Next(Reading(s, StructState(text, r.name, r.fields + members, open)), false)
  {
    ReadsMembers(s, r, text, 0);
    assert text[0..] == text;
  }

  /** A whole struct, whatever stands in it: its name is the stripped header, and every semicolon
      ends a member, whose words are everything in front of a blank, from the opening brace on;
      words of the header that end at a blank begin the first member. */
  lemma StructMeans(s: State, header: string, body: string)
    requires s.machine.Idle? && s.keyworld == "" && NoBraces(header) && NoBraces(body)
    ensures var (early, open) := Members(header, 0, []);
      Feed(s, "struct" + header + "{" + body + "}") ==
        Next(s.(structs := s.structs[Strip(header) := early + Members(body, 0, open).0]), false)
  {
    hide Feed, Members, Strip, LStrip, NoBraces;
    var (early, open) := Members(header, 0, []);
    var keyword, name, fields := "struct", Strip(header), early + Members(body, 0, open).0;
    var r1, r2 := StructState(header, "", early, open), StructState("", name, early, open);
    var r3 := StructState(body, name, fields, Members(body, 0, open).1);
    FeedStructKeyword(s);
    ReadsAllMembers(s, NEWSTRUCT, header);
    assert [] + early == early;
    FeedMore(s, keyword, header, Reading(s, NEWSTRUCT), Reading(s, r1));
    StructBraces(s, r1);
    FeedMore(s, keyword + header, "{", Reading(s, r1), Reading(s, r2));
    ReadsAllMembers(s, r2, body);
    FeedMore(s, keyword + header + "{", body, Reading(s, r2), Reading(s, r3));
    StructBraces(s, r3);
    FeedMore(s, keyword + header + "{" + body, "}", Reading(s, r3), s.(structs := s.structs[name := fields]));
  }

  /** A closing brace without an opening one records a module or a struct without a name. */
  lemma ClosedBeforeOpened(s: State, header: string)
    requires s.machine.Idle? && s.keyworld == "" && NoBraces(header)
    ensures Feed(s, "module" + header + "}") == Next(s.(modules := s.modules["" := []]), false)
    ensures Feed(s, "struct" + header + "}") ==
      Next(s.(structs := s.structs["" := Members(header, 0, []).0]), false)
  {
    var r := StructState(header, "", Members(header, 0, []).0, Members(header, 0, []).1);
    FeedOne(InHeader(s, header), '}');
    hide Feed, Members, NoBraces;
    FeedKeyword(s);
    FeedHeaderText(s, header);
    FeedMore(s, "module", header, InHeader(s, ""), InHeader(s, header));
    FeedMore(s, "module" + header, "}", InHeader(s, header), s.(modules := s.modules["" := []]));
    FeedStructKeyword(s);
    ReadsAllMembers(s, NEWSTRUCT, header);
    assert [] + Members(header, 0, []).0 == Members(header, 0, []).0;
    FeedMore(s, "struct", header, Reading(s, NEWSTRUCT), Reading(s, r));
    StructBraces(s, r);
    FeedMore(s, "struct" + header, "}", Reading(s, r), s.(structs := s.structs["" := r.fields]));
  }

  /** A newline between two modules hides the second one and everything behind it. */
  lemma NewlineHidesTheRest(m: Interface, rest: string)
    requires GoodInterface(m)
    ensures Feed(START, PrintInterface(m) + ("\n" + rest)) ==
      Next(START.(modules := map[m.name := InterfaceParts(m.functions)], keyworld := "\n" + rest), false)
  {
    hide Feed, PrintInterface, InterfaceParts, GoodInterface;
    var s1 := START.(modules := map[m.name := InterfaceParts(m.functions)]);
    FeedInterface(START, m);
    PilesUp(s1, "\n");
    assert "" + "\n" == "\n" && "\n"[0] != "module"[0] && "\n"[0] != "struct"[0];
    NothingIsFoundBehind(s1.(keyworld := "\n"), rest);
    FeedMore(s1, "\n", rest, s1.(keyworld := "\n"), s1.(keyworld := "\n" + rest));
    FeedMore(START, PrintInterface(m), "\n" + rest, s1, s1.(keyworld := "\n" + rest));
  }
}

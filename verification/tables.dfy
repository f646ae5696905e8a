/** The two static, ordered name tables of `lib/interpret.c` (calculator builtins and
    REPL commands), exact-name lookup in them, and the prefix-completion generators
    the line editor calls. */
module Tables {
  import opened Outcomes
  import opened Text

  /** One table row: a name and the handler it selects. The row's one-line
      description is given by `BuiltinDoc` and `CommandDoc`, keyed by the handler. */
  datatype Entry<F> = Entry(name: string, func: F)

  datatype BuiltinFn = PeekFn | PopFn
  datatype CommandFn = QuitFn | HelpFn

  const Builtins: seq<Entry<BuiltinFn>> := [Entry("peek", PeekFn), Entry("pop", PopFn)]

  const Commands: seq<Entry<CommandFn>> := [Entry(":quit", QuitFn), Entry(":help", HelpFn)]

  /** The `doc` column of the builtin table. */
  function BuiltinDoc(f: BuiltinFn): string
  {
    match f
    case PeekFn => "Display the top value on the stack without removing it"
    case PopFn => "Remove and display the top value from the stack"
  }

  /** The `doc` column of the command table. */
  function CommandDoc(f: CommandFn): string
  {
    match f
    case QuitFn => "Quit REPL"
    case HelpFn => "Show available REPL commands"
  }

  function Names<F>(table: seq<Entry<F>>): (r: seq<string>)
    ensures |r| == |table|
    ensures forall i :: 0 <= i < |table| ==> r[i] == table[i].name
  {
    if table == [] then [] else [table[0].name] + Names(table[1..])
  }

  /** Index of the first name equal to `name`, scanning from the start. */
  function FirstIndex(names: seq<string>, name: string): (r: Option<nat>)
    ensures r.None? <==> name !in names
    ensures r.Some? ==> r.value < |names| && names[r.value] == name
    ensures r.Some? ==> forall j :: 0 <= j < r.value ==> names[j] != name
  {
    if names == [] then None
    else if names[0] == name then Some(0)
    else match FirstIndex(names[1..], name)
      case None => None
      case Some(i) => Some(i + 1)
  }

  /** `find_builtin` and `find_command`: the first row whose name is exactly `name`
      (case-sensitive), or nothing. */
  function Find<F>(table: seq<Entry<F>>, name: string): (r: Option<Entry<F>>)
    ensures r.None? <==> name !in Names(table)
    ensures r.Some? ==> r.value.name == name
  {
    match FirstIndex(Names(table), name)
    case None => None
    case Some(i) => Some(table[i])
  }

  /** The row `Find` returns is the first one with that name. */
  lemma FindIsFirst<F>(table: seq<Entry<F>>, name: string)
    ensures Find(table, name).Some? ==> exists i :: 0 <= i < |table| && table[i] == Find(table, name).value
                                          && forall j :: 0 <= j < i ==> table[j].name != name
  {
    match FirstIndex(Names(table), name)
    case None =>
    case Some(i) =>
      assert table[i] == Find(table, name).value;
  }

  /** The builtin table maps `peek` and `pop` to their own functions. */
  lemma FindBuiltin(name: string)
    requires name in Names(Builtins)
    ensures Find(Builtins, name).Some?
    ensures Find(Builtins, name).value.func == (if name == "peek" then PeekFn else PopFn)
  {
    BuiltinNameIff(name);
    if name == "peek" {
      FindPeek();
    } else {
      FindPop();
    }
  }

  lemma FindPeek()
    ensures Find(Builtins, "peek") == Some(Entry("peek", PeekFn))
  {
    assert Names(Builtins) == ["peek", "pop"];
    assert FirstIndex(Names(Builtins), "peek") == Some(0);
  }

  lemma FindPop()
    ensures Find(Builtins, "pop") == Some(Entry("pop", PopFn))
  {
    assert Names(Builtins) == ["peek", "pop"];
    assert FirstIndex(Names(Builtins), "pop") == Some(1);
  }

  /** The command table maps `:quit` and `:help` to their own functions, and knows no
      other name. */
  lemma FindCommand(name: string)
    ensures Find(Commands, name).Some? <==> name == ":quit" || name == ":help"
    ensures Find(Commands, name).Some? ==>
              Find(Commands, name).value.func == (if name == ":quit" then QuitFn else HelpFn)
  {
    assert Names(Commands) == [":quit", ":help"];
    if name == ":quit" {
      assert FirstIndex(Names(Commands), name) == Some(0);
      assert Find(Commands, name) == Some(Entry(":quit", QuitFn));
    } else if name == ":help" {
      assert FirstIndex(Names(Commands), name) == Some(1);
      assert Find(Commands, name) == Some(Entry(":help", HelpFn));
    }
  }

  /** The names of the builtin table, as a predicate. */
  predicate IsBuiltinName(name: string)
  {
    name == "peek" || name == "pop"
  }

  lemma BuiltinNameIff(name: string)
    ensures name in Names(Builtins) <==> IsBuiltinName(name)
  {
    assert Names(Builtins) == ["peek", "pop"];
  }

  /** No builtin name is a single character, so none can be mistaken for an
      operator. */
  lemma BuiltinNamesAreWords(name: string)
    requires name in Names(Builtins)
    ensures |name| > 1
  {
    assert Names(Builtins) == ["peek", "pop"];
  }

  /** Reference definition of completion: the names that start with `text`, in table
      order. */
  function Matching(names: seq<string>, text: string): (r: seq<string>)
    ensures forall n :: n in r <==> n in names && text <= n
    ensures |r| <= |names|
  {
    if names == [] then []
    else (if text <= names[0] then [names[0]] else []) + Matching(names[1..], text)
  }

  /** The static variables of a completion generator: where the scan has got to, and
      the length of the text saved when the scan was restarted. */
  datatype Generator = Generator(listIndex: nat, len: nat)

  /** The scan of one generator call, from the saved position: returns the next name
      that agrees with `text` on the saved length, and the position just after it, or
      nothing once the table is exhausted. */
  function NextMatch(names: seq<string>, text: string, g: Generator): (r: (Option<string>, Generator))
    ensures r.1.len == g.len && r.1.listIndex >= g.listIndex
    ensures r.0.Some? ==> g.listIndex < r.1.listIndex <= |names|
                          && r.0.value == names[r.1.listIndex - 1]
                          && StrncmpEqual(r.0.value, text, g.len)
    ensures r.0.Some? ==> forall k :: g.listIndex <= k < r.1.listIndex - 1 ==>
                          !StrncmpEqual(names[k], text, g.len)
    ensures r.0.None? ==> forall k :: g.listIndex <= k < |names| ==>
                          !StrncmpEqual(names[k], text, g.len)
    decreases |names| - g.listIndex
  {
    if g.listIndex >= |names| then (None, g)
    else
      var name := names[g.listIndex];
      var next := g.(listIndex := g.listIndex + 1);
      if StrncmpEqual(name, text, g.len) then (Some(name), next)
      else NextMatch(names, text, next)
  }

  /** `builtin_generator` / `command_generator`: a call with `state == 0` restarts the
      scan at the top of the table and saves the length of `text`; any other call
      continues from the saved position. */
  function Generate(names: seq<string>, text: string, state: int, g: Generator): (Option<string>, Generator)
  {
    NextMatch(names, text, if state == 0 then Generator(0, |text|) else g)
  }

  /** Every name a caller collects by calling the generator again (with a non-zero
      state) until it answers with nothing. */
  function Drain(names: seq<string>, text: string, g: Generator): seq<string>
    decreases |names| - g.listIndex
  {
    var (r, g') := NextMatch(names, text, g);
    match r
    case None => []
    case Some(n) => [n] + Drain(names, text, g')
  }

  /** All names a restarted generator yields. */
  function Completions(names: seq<string>, text: string): seq<string>
  {
    var (r, g) := Generate(names, text, 0, Generator(0, 0));
    match r
    case None => []
    case Some(n) => [n] + Drain(names, text, g)
  }

  lemma {:induction false} DrainMatches(names: seq<string>, text: string, i: nat)
    requires i <= |names|
    ensures Drain(names, text, Generator(i, |text|)) == Matching(names[i..], text)
    decreases |names| - i
  {
    if i < |names| {
      StrncmpIsPrefix(names[i], text);
      assert names[i..] == [names[i]] + names[i + 1..];
      DrainMatches(names, text, i + 1);
      if text <= names[i] {
        assert Drain(names, text, Generator(i, |text|)) == [names[i]] + Drain(names, text, Generator(i + 1, |text|));
      } else {
        assert NextMatch(names, text, Generator(i, |text|)) == NextMatch(names, text, Generator(i + 1, |text|));
      }
    }
  }

  /** The generator protocol yields, in table order, exactly the names that have the
      typed text as a prefix. */
  lemma CompletionsAreMatching(names: seq<string>, text: string)
    ensures Completions(names, text) == Matching(names, text)
  {
    DrainMatches(names, text, 0);
    assert names[0..] == names;
  }

  /** Which table a completion request draws from (`hsilop_completion`): commands when
      the word being completed starts the line and begins with ':', builtins
      otherwise. */
  function CompletionCandidates(text: string, start: nat): (r: seq<string>)
    ensures start == 0 && text != [] && text[0] == ':' ==>
              forall n :: n in r <==> n in Names(Commands) && text <= n
    ensures !(start == 0 && text != [] && text[0] == ':') ==>
              forall n :: n in r <==> n in Names(Builtins) && text <= n
  {
    if start == 0 && text != [] && text[0] == ':' then
      CompletionsAreMatching(Names(Commands), text);
      Completions(Names(Commands), text)
    else
      CompletionsAreMatching(Names(Builtins), text);
      Completions(Names(Builtins), text)
  }

  /** `com_help`: the command rows, then the number placeholder, then the builtin
      rows, each as (name, description), in table order. */
  function HelpEntries(): (r: seq<(string, string)>)
    ensures |r| == |Commands| + 1 + |Builtins|
    ensures forall i :: 0 <= i < |Commands| ==> r[i] == (Commands[i].name, CommandDoc(Commands[i].func))
    ensures r[|Commands|] == NumberRow
    ensures forall i :: 0 <= i < |Builtins| ==>
              r[|Commands| + 1 + i] == (Builtins[i].name, BuiltinDoc(Builtins[i].func))
  {
    Rows(Commands, CommandDoc) + [NumberRow] + Rows(Builtins, BuiltinDoc)
  }

  /** The help row between the commands and the builtins, for a number token. */
  const NumberRow: (string, string) := ("<number>", "Push a number onto the stack")

  function Rows<F>(table: seq<Entry<F>>, doc: F -> string): (r: seq<(string, string)>)
    ensures |r| == |table|
    ensures forall i :: 0 <= i < |table| ==> r[i] == (table[i].name, doc(table[i].func))
  {
    if table == [] then [] else [(table[0].name, doc(table[0].func))] + Rows(table[1..], doc)
  }
}

/** Token classification and execution of `lib/interpret.c`: `try_parse_double`,
    `exec`, the two builtins and `exec_line`. */
module Interpreter {
  import opened Values
  import opened Outcomes
  import opened Output
  import opened Stacks
  import opened Operators
  import opened Text
  import opened Tables

  /** What `strtod` reports about a token: how many leading characters it consumed and
      the number it read from them. */
  datatype Scan = Scan(consumed: nat, value: real)

  /** `strtod` as an oracle. Its grammar (signs, exponents, hex floats, `inf`, `nan`,
      leading whitespace, locale) is not modelled. */
  type Strtod = string -> Scan

  /** The three answers of `try_parse_double`: 0, 1 and -1. */
  datatype Parsed = Number(value: real) | Malformed | NotNumeric

  /** `try_parse_double`: nothing consumed means the token is not number-like; a
      parse that stops anywhere but at the terminating NUL is a malformed number;
      consuming exactly the whole token is a number. */
  function TryParseDouble(strtod: Strtod, token: string): (r: Parsed)
    ensures r.NotNumeric? <==> strtod(token).consumed == 0
    ensures r.Malformed? <==> StopsShort(strtod, token)
    ensures r.Number? <==> token != [] && strtod(token).consumed == |token|
    ensures r.Number? ==> r.value == strtod(token).value
  {
    var scan := strtod(token);
    if scan.consumed == 0 then NotNumeric
    else if scan.consumed != |token| then Malformed
    else Number(scan.value)
  }

  /** `strtod` consumed something, but its end pointer is not at the NUL. */
  predicate StopsShort(strtod: Strtod, token: string)
  {
    strtod(token).consumed != 0 && strtod(token).consumed != |token|
  }

  /** The single-character operator switch of `exec`. */
  function OperatorOf(token: string): (r: Option<Op>)
    ensures r.Some? <==> |token| == 1 && token[0] in "+-/*"
    ensures r == Some(Add) <==> token == "+"
    ensures r == Some(Sub) <==> token == "-"
    ensures r == Some(Div) <==> token == "/"
    ensures r == Some(Mul) <==> token == "*"
  {
    if |token| != 1 then None
    else match token[0]
      case '+' => Some(Add)
      case '-' => Some(Sub)
      case '/' => Some(Div)
      case '*' => Some(Mul)
      case _ => None
  }

  /** What `exec` decides to do with one token. */
  datatype Action =
    | PushNumber(value: real)
    | ReportInvalidNumber
    | CallBuiltin(func: BuiltinFn)
    | ApplyOperator(op: Op)
    | ReportInvalidOperator

  /** The dispatch order of `exec`: a number first, then a builtin name, then a
      one-character operator; anything else is an invalid operator. */
  function Classify(strtod: Strtod, token: string): (a: Action)
    ensures a.PushNumber? <==> token != [] && strtod(token).consumed == |token|
    ensures a.PushNumber? ==> a.value == strtod(token).value
    ensures a == ReportInvalidNumber <==> StopsShort(strtod, token)
    ensures a.CallBuiltin? <==> strtod(token).consumed == 0 && token in Names(Builtins)
    ensures a.ApplyOperator? <==>
              strtod(token).consumed == 0 && token !in Names(Builtins) && OperatorOf(token).Some?
    ensures a.ApplyOperator? ==> Some(a.op) == OperatorOf(token)
    ensures a == ReportInvalidOperator <==>
              strtod(token).consumed == 0 && token !in Names(Builtins) && OperatorOf(token).None?
  {
    match TryParseDouble(strtod, token)
    case Number(v) => PushNumber(v)
    case Malformed => ReportInvalidNumber
    case NotNumeric =>
      match Find(Builtins, token)
      case Some(b) => CallBuiltin(b.func)
      case None =>
        match OperatorOf(token)
        case Some(op) => ApplyOperator(op)
        case None => ReportInvalidOperator
  }

  /** What executing part of a line produced: the events, in order, and either the new
      stack or the fatal fault that ended the process. */
  datatype Step = Step(events: seq<Event>, result: Outcome<Stack>)

  /** `builtin_peek` shows the top without changing anything; `builtin_pop` removes
      exactly the top value and shows it. */
  function RunBuiltin(f: BuiltinFn, s: Stack): (r: Step)
    ensures f == PeekFn ==> r == Step([Peek(s)], Ok(s))
    ensures f == PopFn && !IsEmpty(s) ==>
              r == Step([Popped(s[|s| - 1])], Ok(s[..|s| - 1]))
    ensures f == PopFn && IsEmpty(s) ==> r == Step([], Abort(Underflow))
  {
    match f
    case PeekFn => Step([Peek(s)], Ok(s))
    case PopFn =>
      match Pop(s)
      case Ok(p) => Step([Popped(p.value)], Ok(p.rest))
      case Abort(fault) => Step([], Abort(fault))
  }

  function Perform(a: Action, token: string, s: Stack): Step
  {
    match a
    case PushNumber(v) => Step([], Push(s, Num(v)))
    case ReportInvalidNumber => Step([InvalidNumber(token)], Ok(s))
    case CallBuiltin(f) => RunBuiltin(f, s)
    case ApplyOperator(op) => Step([], Binary(op, s))
    case ReportInvalidOperator => Step([InvalidOperator(token)], Ok(s))
  }

  /** `exec`: one token against the stack. Its effect, case by case, is stated by
      the lemmas below. */
  function Exec(strtod: Strtod, token: string, s: Stack): Step
  {
    Perform(Classify(strtod, token), token, s)
  }

  /** A fully parsed token pushes exactly its value and prints nothing. */
  lemma ExecNumber(strtod: Strtod, token: string, s: Stack)
    requires token != [] && strtod(token).consumed == |token|
    ensures Exec(strtod, token, s) == Step([], Push(s, Num(strtod(token).value)))
  {
    assert Classify(strtod, token) == PushNumber(strtod(token).value);
  }

  /** A partially parsed token is reported as an invalid number; the stack is
      untouched. */
  lemma ExecMalformed(strtod: Strtod, token: string, s: Stack)
    requires StopsShort(strtod, token)
    ensures Exec(strtod, token, s) == Step([InvalidNumber(token)], Ok(s))
  {
    assert Classify(strtod, token) == ReportInvalidNumber;
  }

  /** A token that is not number-like and names a builtin runs that builtin (whose
      effect `RunBuiltin` states). */
  lemma ExecBuiltin(strtod: Strtod, token: string, s: Stack)
    requires strtod(token).consumed == 0 && token in Names(Builtins)
    ensures Exec(strtod, token, s) == RunBuiltin(if token == "peek" then PeekFn else PopFn, s)
  {
    FindBuiltin(token);
    assert Classify(strtod, token) == CallBuiltin(if token == "peek" then PeekFn else PopFn);
  }

  /** An operator character is too short to be a builtin name. */
  lemma OperatorNamesNoBuiltin(token: string)
    requires OperatorOf(token).Some?
    ensures token !in Names(Builtins)
  {
    if token in Names(Builtins) {
      BuiltinNamesAreWords(token);
    }
  }

  /** A token that is neither a number nor a builtin name, and is one of the four
      operator characters, applies that operator to the top two values. */
  lemma ExecOperator(strtod: Strtod, token: string, s: Stack)
    requires strtod(token).consumed == 0 && token !in Names(Builtins) && OperatorOf(token).Some?
    ensures Exec(strtod, token, s) == Step([], Binary(OperatorOf(token).value, s))
  {
    assert Classify(strtod, token) == ApplyOperator(OperatorOf(token).value);
  }

  /** Any other token is reported as an invalid operator; the stack is untouched. */
  lemma ExecUnknown(strtod: Strtod, token: string, s: Stack)
    requires strtod(token).consumed == 0 && token !in Names(Builtins) && OperatorOf(token).None?
    ensures Exec(strtod, token, s) == Step([InvalidOperator(token)], Ok(s))
  {
    assert Classify(strtod, token) == ReportInvalidOperator;
  }

  /** `exec` with the parser fixed, as the step the token loop repeats. */
  function ExecWith(strtod: Strtod): (string, Stack) -> Step
  {
    (token: string, s: Stack) => Exec(strtod, token, s)
  }

  /** Continues after `first` with the remaining tokens, unless `first` ended the
      process. */
  function Then(first: Step, step: (string, Stack) -> Step, rest: seq<string>): Step
    decreases |rest| + 1, 0
  {
    match first.result
    case Abort(_) => first
    case Ok(t) =>
      var next := RunTokens(step, rest, t);
      Step(first.events + next.events, next.result)
  }

  /** Every token, left to right, until one of them ends the process. */
  function RunTokens(step: (string, Stack) -> Step, tokens: seq<string>, s: Stack): Step
    decreases |tokens|, 1
  {
    if tokens == [] then Step([], Ok(s))
    else Then(step(tokens[0], s), step, tokens[1..])
  }

  /** The token loop of `exec_line`. */
  function ExecTokens(strtod: Strtod, tokens: seq<string>, s: Stack): Step
  {
    RunTokens(ExecWith(strtod), tokens, s)
  }

  /** `exec_line`: the tokens `strtok` finds on the line, executed in order. */
  function ExecLine(strtod: Strtod, line: string, s: Stack): Step
  {
    ExecTokens(strtod, Tokenize(line), s)
  }

  /** `exec_line` with the parser fixed, as the line runner of the REPL loop. */
  function ExecLineWith(strtod: Strtod): (string, Stack) -> Step
  {
    (line: string, s: Stack) => ExecLine(strtod, line, s)
  }

  /** The line runner is the token loop over the line's tokens. */
  lemma ExecLineIsTokenRun(strtod: Strtod, line: string, s: Stack)
    ensures ExecLineWith(strtod)(line, s) == RunTokens(ExecWith(strtod), Tokenize(line), s)
  {
  }

  /** Running two token lists one after the other is running their concatenation. */
  lemma {:induction false} RunTokensAppend(step: (string, Stack) -> Step, a: seq<string>, b: seq<string>, s: Stack)
    ensures RunTokens(step, a + b, s) == Then(RunTokens(step, a, s), step, b)
    decreases |a|
  {
    if a == [] {
      assert a + b == b;
    } else {
      assert (a + b)[0] == a[0] && (a + b)[1..] == a[1..] + b;
      var first := step(a[0], s);
      if first.result.Ok? {
        var t := first.result.value;
        RunTokensAppend(step, a[1..], b, t);
        var y := RunTokens(step, a[1..], t);
        if y.result.Ok? {
          var w := RunTokens(step, b, y.result.value);
          assert first.events + (y.events + w.events) == (first.events + y.events) + w.events;
        }
      }
    }
  }

  /** A one-token list runs just that token. */
  lemma RunOneToken(step: (string, Stack) -> Step, t: string, s: Stack)
    ensures RunTokens(step, [t], s) == step(t, s)
  {
    assert [t][1..] == [];
    var first := step(t, s);
    if first.result.Ok? {
      assert RunTokens(step, [], first.result.value) == Step([], first.result);
      assert first.events + [] == first.events;
    }
  }

  /** A first token that prints nothing and keeps the process alive hands its stack on
      to the rest of the list. */
  lemma QuietFirstToken(step: (string, Stack) -> Step, t: string, rest: seq<string>, s: Stack, next: Stack)
    requires step(t, s) == Step([], Ok(next))
    ensures RunTokens(step, [t] + rest, s) == RunTokens(step, rest, next)
  {
    assert ([t] + rest)[0] == t && ([t] + rest)[1..] == rest;
    assert [] + RunTokens(step, rest, next).events == RunTokens(step, rest, next).events;
  }

  /** The token loop on a list with a first token: that token runs first. */
  lemma ExecTokensCons(strtod: Strtod, t: string, rest: seq<string>, s: Stack)
    ensures ExecTokens(strtod, [t] + rest, s) == Then(Exec(strtod, t, s), ExecWith(strtod), rest)
  {
    assert ExecWith(strtod)(t, s) == Exec(strtod, t, s);
    assert ([t] + rest)[0] == t && ([t] + rest)[1..] == rest;
  }

  /** A token `exec` reports as an invalid number or an invalid operator. */
  predicate Invalid(strtod: Strtod, t: string)
  {
    Classify(strtod, t).ReportInvalidNumber? || Classify(strtod, t).ReportInvalidOperator?
  }

  /** The message an invalid token is reported with. */
  function Complaint(strtod: Strtod, t: string): Event
  {
    if Classify(strtod, t).ReportInvalidNumber? then InvalidNumber(t) else InvalidOperator(t)
  }

  /** An invalid token is reported and changes nothing. */
  lemma InvalidTokenReported(strtod: Strtod, t: string, s: Stack)
    requires Invalid(strtod, t)
    ensures Exec(strtod, t, s) == Step([Complaint(strtod, t)], Ok(s))
  {
    if Classify(strtod, t).ReportInvalidNumber? {
      ExecMalformed(strtod, t, s);
    } else {
      ExecUnknown(strtod, t, s);
    }
  }

  /** An invalid token is reported and skipped; it does not stop the tokens after
      it. */
  lemma InvalidTokenIsSkipped(strtod: Strtod, t: string, rest: seq<string>, s: Stack)
    requires Invalid(strtod, t)
    ensures ExecTokens(strtod, [t] + rest, s)
              == Step([Complaint(strtod, t)] + ExecTokens(strtod, rest, s).events, ExecTokens(strtod, rest, s).result)
  {
    InvalidTokenReported(strtod, t, s);
    ExecTokensCons(strtod, t, rest, s);
  }

  /** A token loop whose every token leaves the stack as it was and prints one
      message runs to the end, prints one message per token and leaves the stack as it
      was. */
  lemma {:induction false} StayingTokens(step: (string, Stack) -> Step, tokens: seq<string>, s: Stack)
    requires forall i :: 0 <= i < |tokens| ==> step(tokens[i], s).result == Ok(s) && |step(tokens[i], s).events| == 1
    ensures RunTokens(step, tokens, s).result == Ok(s)
    ensures |RunTokens(step, tokens, s).events| == |tokens|
    decreases |tokens|
  {
    if tokens != [] {
      assert step(tokens[0], s).result == Ok(s);
      StayingTokens(step, tokens[1..], s);
    }
  }

  /** Only a fatal fault stops a token list early: a list whose tokens are all
      reported as invalid runs to the end, prints one message per token and leaves the
      stack as it was. */
  lemma InvalidTokensLeaveStack(strtod: Strtod, tokens: seq<string>, s: Stack)
    requires forall i :: 0 <= i < |tokens| ==> Invalid(strtod, tokens[i])
    ensures ExecTokens(strtod, tokens, s).result == Ok(s)
    ensures |ExecTokens(strtod, tokens, s).events| == |tokens|
  {
    forall i | 0 <= i < |tokens|
      ensures ExecWith(strtod)(tokens[i], s).result == Ok(s) && |ExecWith(strtod)(tokens[i], s).events| == 1
    {
      InvalidTokenReported(strtod, tokens[i], s);
    }
    StayingTokens(ExecWith(strtod), tokens, s);
  }
}

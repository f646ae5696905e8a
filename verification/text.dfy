/** String handling the calculator borrows from the C library: `strtok` on a single
    space, `strncmp`, `isspace`, and cutting a line at its first newline. Strings are
    C strings without their terminating NUL. */
module Text {

  /** `isspace` in the C locale. */
  predicate IsSpace(c: char)
  {
    c in " \t\n\U{000B}\U{000C}\r"
  }

  /** Length of the leading run of non-space characters (space meaning ' ' only, the
      one delimiter `strtok` is given). */
  function WordEnd(line: string): (n: nat)
    ensures n <= |line|
    ensures forall i :: 0 <= i < n ==> line[i] != ' '
    ensures n == |line| || line[n] == ' '
  {
    if line == [] || line[0] == ' ' then 0 else 1 + WordEnd(line[1..])
  }

  /** The tokens `strtok(line, " ")` hands out one by one: maximal runs of characters
      other than ' ', left to right; runs of spaces, leading spaces and trailing spaces
      produce no token. */
  function Tokenize(line: string): (r: seq<string>)
    ensures forall i :: 0 <= i < |r| ==> r[i] != [] && ' ' !in r[i]
    decreases |line|
  {
    if line == [] then []
    else if line[0] == ' ' then Tokenize(line[1..])
    else
      var n := WordEnd(line);
      [line[..n]] + Tokenize(line[n..])
  }

  /** The tokens account for every character of the line except the spaces, in
      order. */
  lemma {:induction false} TokensKeepText(line: string)
    ensures Concat(Tokenize(line)) == WithoutSpaces(line)
    decreases |line|
  {
    if line == [] {
    } else if line[0] == ' ' {
      TokensKeepText(line[1..]);
    } else {
      var n := WordEnd(line);
      assert line == line[..n] + line[n..];
      WithoutSpacesAppend(line[..n], line[n..]);
      WithoutSpacesOfWord(line[..n]);
      TokensKeepText(line[n..]);
      var r := Tokenize(line);
      assert r[0] == line[..n] && r[1..] == Tokenize(line[n..]);
    }
  }

  function Concat(ts: seq<string>): string
  {
    if ts == [] then [] else ts[0] + Concat(ts[1..])
  }

  /** The line with every ' ' deleted: the characters the tokens must account for. */
  function WithoutSpaces(s: string): string
  {
    if s == [] then [] else (if s[0] == ' ' then [] else [s[0]]) + WithoutSpaces(s[1..])
  }

  lemma {:induction false} WithoutSpacesAppend(a: string, b: string)
    ensures WithoutSpaces(a + b) == WithoutSpaces(a) + WithoutSpaces(b)
  {
    if a != [] {
      assert (a + b)[0] == a[0] && (a + b)[1..] == a[1..] + b;
      WithoutSpacesAppend(a[1..], b);
      var h := if a[0] == ' ' then [] else [a[0]];
      assert WithoutSpaces(a + b) == h + (WithoutSpaces(a[1..]) + WithoutSpaces(b));
    } else {
      assert a + b == b;
    }
  }

  lemma {:induction false} WithoutSpacesOfWord(w: string)
    requires forall i :: 0 <= i < |w| ==> w[i] != ' '
    ensures WithoutSpaces(w) == w
  {
    if w != [] {
      WithoutSpacesOfWord(w[1..]);
    }
  }

  /** The tokens joined back with one space between neighbours. */
  function Join(ts: seq<string>): string
  {
    if ts == [] then [] else if |ts| == 1 then ts[0] else ts[0] + " " + Join(ts[1..])
  }

  /** A space splits the token stream: what is left of it and what is right of it are
      tokenized independently. */
  lemma {:induction false} TokenizeSplit(a: string, b: string)
    ensures Tokenize(a + " " + b) == Tokenize(a) + Tokenize(b)
    decreases |a|
  {
    var line := a + " " + b;
    if a == [] {
      assert line[1..] == b;
    } else if a[0] == ' ' {
      assert line[1..] == a[1..] + " " + b;
      TokenizeSplit(a[1..], b);
    } else {
      var n := WordEnd(a);
      WordEndSplit(a, b);
      assert line[..n] == a[..n];
      assert line[n..] == a[n..] + " " + b;
      TokenizeSplit(a[n..], b);
    }
  }

  lemma {:induction false} WordEndSplit(a: string, b: string)
    ensures WordEnd(a + " " + b) == WordEnd(a)
  {
    if a != [] && a[0] != ' ' {
      assert (a + " " + b)[1..] == a[1..] + " " + b;
      WordEndSplit(a[1..], b);
    }
  }

  /** Splitting a single word yields exactly that word. */
  lemma {:induction false} TokenizeWord(w: string)
    requires w != [] && ' ' !in w
    ensures Tokenize(w) == [w]
  {
    assert forall i :: 0 <= i < |w| ==> w[i] != ' ';
    assert WordEnd(w) == |w|;
    assert w[..|w|] == w && w[|w|..] == [];
    assert Tokenize(w) == [w] + Tokenize([]);
  }

  /** Round trip: tokens without spaces, joined by single spaces, split back into the
      same tokens. */
  lemma {:induction false} TokenizeJoin(ts: seq<string>)
    requires forall i :: 0 <= i < |ts| ==> ts[i] != [] && ' ' !in ts[i]
    ensures Tokenize(Join(ts)) == ts
  {
    if |ts| == 1 {
      TokenizeWord(ts[0]);
    } else if |ts| > 1 {
      TokenizeSplit(ts[0], Join(ts[1..]));
      TokenizeWord(ts[0]);
      TokenizeJoin(ts[1..]);
    }
  }

  /** `strncmp(a, b, n) == 0`: the two strings agree on their first `n` characters,
      where running off the end of one string counts as its NUL terminator. */
  predicate StrncmpEqual(a: string, b: string, n: nat)
  {
    if n == 0 then true
    else if a == [] || b == [] then a == [] && b == []
    else a[0] == b[0] && StrncmpEqual(a[1..], b[1..], n - 1)
  }

  /** Comparing a name with the typed text over the length of that text succeeds
      exactly when the text is a prefix of the name. */
  lemma {:induction false} StrncmpIsPrefix(name: string, text: string)
    ensures StrncmpEqual(name, text, |text|) <==> text <= name
  {
    if text != [] && name != [] {
      StrncmpIsPrefix(name[1..], text[1..]);
      assert text <= name <==> text[0] == name[0] && text[1..] <= name[1..];
    }
  }

  /** `line[strcspn(line, "\n")] = 0`: everything from the first newline on is dropped. */
  function CutAtNewline(line: string): (r: string)
    ensures r <= line
    ensures '\n' !in r
    ensures |r| < |line| ==> line[|r|] == '\n'
  {
    if line == [] || line[0] == '\n' then [] else [line[0]] + CutAtNewline(line[1..])
  }

  /** The first position at or after `i` that is not whitespace (or the end). */
  function SkipSpaces(line: string, i: nat): (j: nat)
    requires i <= |line|
    ensures i <= j <= |line|
    ensures forall k :: i <= k < j ==> IsSpace(line[k])
    ensures j == |line| || !IsSpace(line[j])
    decreases |line| - i
  {
    if i < |line| && IsSpace(line[i]) then SkipSpaces(line, i + 1) else i
  }

  /** The first position at or after `i` that is whitespace (or the end). */
  function SkipWord(line: string, i: nat): (j: nat)
    requires i <= |line|
    ensures i <= j <= |line|
    ensures forall k :: i <= k < j ==> !IsSpace(line[k])
    ensures j == |line| || IsSpace(line[j])
    decreases |line| - i
  {
    if i < |line| && !IsSpace(line[i]) then SkipWord(line, i + 1) else i
  }
}

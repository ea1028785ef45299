/** Whitespace tokenisation of the generator's argument string, as done by
    repeated `std::istream >> std::string` extraction: skip white space, then
    take characters up to the next white space or the end. */
module Words {

  /** `std::isspace` in the "C" locale: space, tab, newline, vertical tab,
      form feed and carriage return. */
  predicate IsSpace(c: char)
  {
    c == ' ' || '\t' <= c <= '\r'
  }

  /** A token: non-empty and free of white space. */
  predicate IsWord(w: string)
  {
    |w| > 0 && forall k :: 0 <= k < |w| ==> !IsSpace(w[k])
  }

  /** Length of the maximal white-space-free prefix of `s`. */
  function WordLength(s: string): (n: nat)
    ensures n <= |s|
    ensures forall k :: 0 <= k < n ==> !IsSpace(s[k])
    ensures n < |s| ==> IsSpace(s[n])
  {
    if s == [] || IsSpace(s[0]) then 0 else 1 + WordLength(s[1..])
  }

  /** The maximal white-space-free runs of `s`, in order. */
  function Tokens(s: string): (ts: seq<string>)
    ensures forall i :: 0 <= i < |ts| ==> IsWord(ts[i])
    decreases |s|
  {
    if s == [] then []
    else if IsSpace(s[0]) then Tokens(s[1..])
    else
      var n := WordLength(s);
      [s[..n]] + Tokens(s[n..])
  }

  /** The maximal prefix measured by WordLength is the only one that ends at
      white space or at the end. */
  lemma {:induction false} WordLengthExact(s: string, n: nat)
    requires n <= |s|
    requires forall k :: 0 <= k < n ==> !IsSpace(s[k])
    requires n == |s| || IsSpace(s[n])
    ensures WordLength(s) == n
  {
    if n > 0 {
      WordLengthExact(s[1..], n - 1);
    }
  }

  /** A single word is its own only token. */
  lemma TokensOfWord(w: string)
    requires IsWord(w)
    ensures Tokens(w) == [w]
  {
    WordLengthExact(w, |w|);
    assert w[..|w|] == w;
    assert w[|w|..] == [];
  }

  /** A white-space character separates the tokens on its two sides. */
  lemma {:induction false} TokensSplit(a: string, c: char, b: string)
    requires IsSpace(c)
    ensures Tokens(a + [c] + b) == Tokens(a) + Tokens(b)
    decreases |a|
  {
    var s := a + [c] + b;
    if a == [] {
      assert s[1..] == b;
    } else if IsSpace(a[0]) {
      assert s[1..] == a[1..] + [c] + b;
      TokensSplit(a[1..], c, b);
    } else {
      var n := WordLength(a);
      WordLengthExact(s, n);
      assert s[..n] == a[..n];
      assert s[n..] == a[n..] + [c] + b;
      TokensSplit(a[n..], c, b);
    }
  }

  /** Words joined by single spaces. */
  function Join(ws: seq<string>): string
  {
    if |ws| == 0 then ""
    else if |ws| == 1 then ws[0]
    else ws[0] + " " + Join(ws[1..])
  }

  /** Tokenising space-joined words gives back exactly those words. */
  lemma {:induction false} TokensOfJoin(ws: seq<string>)
    requires forall i :: 0 <= i < |ws| ==> IsWord(ws[i])
    ensures Tokens(Join(ws)) == ws
  {
    if |ws| == 1 {
      TokensOfWord(ws[0]);
    } else if |ws| > 1 {
      TokensOfJoin(ws[1..]);
      TokensSplit(ws[0], ' ', Join(ws[1..]));
      TokensOfWord(ws[0]);
      assert ws[0] + " " + Join(ws[1..]) == ws[0] + [' '] + Join(ws[1..]);
      assert ws == [ws[0]] + ws[1..];
    }
  }

  /** The fixed first argument the external parser expects. */
  const ProgramName: string := "./Spatter"

  /** The argument string the generator builds from its `args` parameter. */
  function CommandLine(args: string): (r: string)
    ensures |r| == |ProgramName| + 1 + |args|
    ensures r[..|ProgramName| + 1] == "./Spatter " && r[|ProgramName| + 1..] == args
  {
    ProgramName + " " + args
  }

  /** Token 0 of the command line is always the program name, and the user's
      tokens follow it unchanged, also when `args` is empty. */
  lemma CommandLineTokens(args: string)
    ensures Tokens(CommandLine(args)) == [ProgramName] + Tokens(args)
    ensures Tokens(CommandLine(args))[0] == ProgramName
    ensures |Tokens(CommandLine(args))| == 1 + |Tokens(args)|
  {
    assert IsWord(ProgramName) by {
      forall k | 0 <= k < |ProgramName| ensures !IsSpace(ProgramName[k]) {
      }
    }
    TokensOfWord(ProgramName);
    assert CommandLine(args) == ProgramName + [' '] + args;
    TokensSplit(ProgramName, ' ', args);
  }

  /** Leading white space contributes no token. */
  lemma TokensSkipSpace(s: string, j: nat)
    requires j < |s| && IsSpace(s[j])
    ensures Tokens(s[j..]) == Tokens(s[j + 1..])
  {
    assert s[j..][1..] == s[j + 1..];
  }

  /** A maximal white-space-free run at position `start` is the next token. */
  lemma TokensAtWord(s: string, start: nat, j: nat)
    requires start < j <= |s|
    requires forall k :: start <= k < j ==> !IsSpace(s[k])
    requires j == |s| || IsSpace(s[j])
    ensures Tokens(s[start..]) == [s[start..j]] + Tokens(s[j..])
  {
    var rest := s[start..];
    WordLengthExact(rest, j - start);
    assert rest[..j - start] == s[start..j];
    assert rest[j - start..] == s[j..];
  }

  /** One `iss >> token` extraction from position `i`: either the next token
      and the position after it, or failure at the end of the input. */
  method NextToken(s: string, i: nat) returns (found: bool, token: string, j: nat)
    requires i <= |s|
    ensures i <= j <= |s|
    ensures found ==> i < j && Tokens(s[i..]) == [token] + Tokens(s[j..])
    ensures !found ==> j == |s| && Tokens(s[i..]) == []
  {
    j := i;
    while j < |s| && IsSpace(s[j])
      invariant i <= j <= |s|
      invariant Tokens(s[i..]) == Tokens(s[j..])
    {
      TokensSkipSpace(s, j);
      j := j + 1;
    }
    if j == |s| {
      assert s[j..] == [];
      return false, "", j;
    }
    var start := j;
    j := j + 1;
    while j < |s| && !IsSpace(s[j])
      invariant start < j <= |s|
      invariant forall k :: start <= k < j ==> !IsSpace(s[k])
    {
      j := j + 1;
    }
    token := s[start..j];
    found := true;
    TokensAtWord(s, start, j);
  }

  /** An entry of the argument vector: a token or the terminating null. */
  datatype Arg = Str(s: string) | Null

  function AsArgs(ts: seq<string>): (a: seq<Arg>)
    ensures |a| == |ts| && forall i :: 0 <= i < |ts| ==> a[i] == Str(ts[i])
  {
    if ts == [] then [] else [Str(ts[0])] + AsArgs(ts[1..])
  }

  /** The strings of an argument vector, as the parser reads them. */
  function ArgStrings(a: seq<Arg>): (ts: seq<string>)
    ensures |ts| == |a|
    ensures forall i :: 0 <= i < |a| && a[i].Str? ==> ts[i] == a[i].s
  {
    if a == [] then [] else [if a[0].Str? then a[0].s else ""] + ArgStrings(a[1..])
  }

  /** Reading an argument vector back gives the tokens it was built from. */
  lemma ArgStringsOfAsArgs(ts: seq<string>)
    ensures ArgStrings(AsArgs(ts)) == ts
  {
  }

  /** `countArgs`: the number of tokens in `args`. */
  method CountArgs(args: string) returns (count: nat)
    ensures count == |Tokens(args)|
  {
    count := 0;
    assert args[0..] == args;
    var found, token, pos := NextToken(args, 0);
    ghost var seen: seq<string> := [];
    while found
      invariant pos <= |args|
      invariant count == |seen|
      invariant Tokens(args) == seen + (if found then [token] else []) + Tokens(args[pos..])
      invariant !found ==> Tokens(args[pos..]) == []
      decreases |args| - pos + (if found then 1 else 0)
    {
      count := count + 1;
      seen := seen + [token];
      found, token, pos := NextToken(args, pos);
    }
  }

  /** `tokenizeArgs`: an argument vector of `argc + 1` entries holding the
      tokens of `args` in order, followed by the null terminator. */
  method TokenizeArgs(args: string, argc: nat) returns (argv: array<Arg>)
    requires |Tokens(args)| <= argc
    ensures fresh(argv)
    ensures argv.Length == argc + 1
    ensures argv[..|Tokens(args)|] == AsArgs(Tokens(args))
    ensures argv[|Tokens(args)|] == Null
  {
    argv := new Arg[argc + 1](_ => Null);
    var argvIdx := 0;
    assert args[0..] == args;
    var found, token, pos := NextToken(args, 0);
    ghost var seen: seq<string> := [];
    while found
      invariant pos <= |args|
      invariant argvIdx == |seen|
      invariant Tokens(args) == seen + (if found then [token] else []) + Tokens(args[pos..])
      invariant !found ==> Tokens(args[pos..]) == []
      invariant argvIdx <= argc
      invariant argv[..argvIdx] == AsArgs(seen)
      decreases |args| - pos + (if found then 1 else 0)
    {
      argv[argvIdx] := Str(token);
      seen := seen + [token];
      argvIdx := argvIdx + 1;
      found, token, pos := NextToken(args, pos);
    }
    argv[argvIdx] := Null;
  }
}

/**
 * scripts/install.sh: `build_sudo_args`, under bash, and the shell's reading of what it prints
 * (sections 2.2.1, 2.2.2 and 2.3 of POSIX.1-2017, Shell Command Language).
 */
module SudoArgs {
  import opened Common

  // ----- what the script prints -----

  /** `sed "s/'/'\\''/g"`: every quote becomes quote, backslash, quote, quote. */
  function SedQuote(s: string): string {
    if s == [] then []
    else (if s[0] == '\'' then "'\\''" else [s[0]]) + SedQuote(s[1..])
  }

  /** What bash's `echo` takes for options: a dash and letters n, e, E. */
  predicate IsEchoOption(arg: string) {
    |arg| >= 2 && arg[0] == '-' && forall i :: 1 <= i < |arg| ==> arg[i] in {'n', 'e', 'E'}
  }

  /** `echo "$1"`. */
  function Echo(arg: string): string {
    if IsEchoOption(arg) then if 'n' in arg then "" else "\n" else arg + "\n"
  }

  /** `$(...)` drops trailing newlines. */
  function StripNewlines(s: string): string {
    if s != [] && s[|s| - 1] == '\n' then StripNewlines(s[..|s| - 1]) else s
  }

  function QuotedArg(arg: string): string {
    "'" + StripNewlines(SedQuote(Echo(arg))) + "'"
  }

  /** `QUOTED_ARGS` after the loop has gone through `args`, starting from `quoted`. */
  function Accumulate(quoted: string, args: seq<string>): string
    decreases |args|
  {
    if args == [] then quoted
    else Accumulate((if quoted != "" then quoted + " " else quoted) + QuotedArg(args[0]), args[1..])
  }

  // ----- how a shell reads it -----

  /** Characters that, unquoted, mean something other than themselves; none is left unquoted in the output. */
  const SPECIAL: set<char> :=
    {'|', '&', ';', '<', '>', '(', ')', '$', '`', '"', '*', '?', '[', ']', '#', '~', '=', '%', '{', '}', '!'}

  /**
   * The words of a line, from inside or outside single quotes with the current word so far (None between
   * words). None for an unterminated quote, and for unquoted characters that would start something else
   * than a word.
   */
  function Scan(s: string, inQuotes: bool, word: Option<string>): Option<seq<string>>
    decreases |s|
  {
    var current := if word.Some? then word.value else "";
    if s == [] then
      if inQuotes then None else Some(if word.Some? then [current] else [])
    else if inQuotes then
      if s[0] == '\'' then Scan(s[1..], false, Some(current)) else Scan(s[1..], true, Some(current + [s[0]]))
    else if s[0] == ' ' || s[0] == '\t' then
      var rest := Scan(s[1..], false, None);
      if rest.Some? && word.Some? then Some([current] + rest.value) else rest
    else if s[0] == '\n' then
      // the end of the line, and here of the input
      if |s| == 1 then Some(if word.Some? then [current] else []) else None
    else if s[0] == '\'' then Scan(s[1..], true, Some(current))
    else if s[0] == '\\' then
      if |s| == 1 then None
      else if s[1] == '\n' then Scan(s[2..], false, word)
      else Scan(s[2..], false, Some(current + [s[1]]))
    else if s[0] in SPECIAL then None
    else Scan(s[1..], false, Some(current + [s[0]]))
  }

  function Tokenize(s: string): Option<seq<string>> {
    Scan(s, false, None)
  }

  // ----- the round trip -----

  /** The argument as it gets through `echo` and `$(...)`. */
  function Effective(arg: string): string {
    StripNewlines(Echo(arg))
  }

  function Effectives(args: seq<string>): seq<string> {
    seq(|args|, i requires 0 <= i < |args| => Effective(args[i]))
  }

  lemma {:induction false} SedQuoteConcat(s: string, t: string)
    ensures SedQuote(s + t) == SedQuote(s) + SedQuote(t)
    decreases |s|
  {
    if s == [] {
      assert s + t == t;
    } else {
      assert (s + t)[1..] == s[1..] + t;
      SedQuoteConcat(s[1..], t);
    }
  }

  /** Quoting leaves the newlines at the end alone. */
  lemma {:induction false} SedQuoteKeepsNewlines(s: string)
    ensures StripNewlines(SedQuote(s)) == SedQuote(StripNewlines(s))
    decreases |s|
  {
    if s != [] {
      var front, last := s[..|s| - 1], s[|s| - 1];
      assert s == front + [last];
      SedQuoteConcat(front, [last]);
      assert [last][1..] == [];
      var q := SedQuote(s);
      if last == '\n' {
        assert q == SedQuote(front) + "\n";
        assert q[..|q| - 1] == SedQuote(front);
        SedQuoteKeepsNewlines(front);
      } else {
        assert q[|q| - 1] != '\n';
      }
    }
  }

  /** From inside the quotes, a quoted text and the closing quote add the text to the word. */
  lemma {:induction false} ScanQuoted(x: string, rest: string, word: string)
    ensures Scan(SedQuote(x) + "'" + rest, true, Some(word)) == Scan(rest, false, Some(word + x))
    decreases |x|
  {
    var s := SedQuote(x) + "'" + rest;
    if x == [] {
      assert s == "'" + rest && s[1..] == rest;
      assert word + x == word;
    } else {
      var tail := SedQuote(x[1..]) + "'" + rest;
      assert word + x == word + [x[0]] + x[1..];
      ScanQuoted(x[1..], rest, word + [x[0]]);
      if x[0] == '\'' {
        ScanEmbeddedQuote(tail, word);
        assert s == "'\\''" + tail;
      } else {
        assert s == [x[0]] + tail && s[1..] == tail;
      }
    }
  }

  /** Quote, backslash, quote, quote: out of the quotes, a literal quote, and in again. */
  lemma ScanEmbeddedQuote(tail: string, word: string)
    ensures Scan("'\\''" + tail, true, Some(word)) == Scan(tail, true, Some(word + "'"))
  {
    var s := "'\\''" + tail;
    var escaped, reopened := "\\''" + tail, "'" + tail;
    assert s[1..] == escaped && Scan(s, true, Some(word)) == Scan(escaped, false, Some(word));
    assert escaped[2..] == reopened && escaped[1] == '\'';
    assert Scan(escaped, false, Some(word)) == Scan(reopened, false, Some(word + "'"));
    assert reopened[1..] == tail;
  }

  lemma ScanQuotedArg(arg: string, rest: string)
    ensures Scan(QuotedArg(arg) + rest, false, None) == Scan(rest, false, Some(Effective(arg)))
  {
    var x := Effective(arg);
    var quoted := SedQuote(x) + "'" + rest;
    assert QuotedArg(arg) + rest == "'" + quoted by {
      SedQuoteKeepsNewlines(Echo(arg));
    }
    ScanOpens(quoted);
    ScanQuoted(x, rest, "");
    assert "" + x == x;
  }

  lemma ScanOpens(quoted: string)
    ensures Scan("'" + quoted, false, None) == Scan(quoted, true, Some(""))
  {
    assert ("'" + quoted)[1..] == quoted;
  }

  /** The rest of the line after a first argument. */
  function Tail(args: seq<string>): string
    decreases |args|
  {
    if args == [] then "\n" else " " + QuotedArg(args[0]) + Tail(args[1..])
  }

  lemma {:induction false} AccumulateIsTail(quoted: string, args: seq<string>)
    requires quoted != ""
    ensures Accumulate(quoted, args) + "\n" == quoted + Tail(args)
    decreases |args|
  {
    if args != [] {
      var arg, rest := QuotedArg(args[0]), args[1..];
      AccumulateIsTail(quoted + " " + arg, rest);
      Assoc(quoted, " ", arg, Tail(rest));
    }
  }

  lemma Assoc(a: string, b: string, c: string, d: string)
    ensures a + b + c + d == a + (b + c + d)
  {
  }

  /** An unquoted blank ends the word. */
  lemma ScanBlank(rest: string, word: string)
    ensures var words := Scan(rest, false, None);
      Scan(" " + rest, false, Some(word)) == if words.Some? then Some([word] + words.value) else None
  {
    assert (" " + rest)[1..] == rest;
  }

  lemma {:induction false} ScanTail(word: string, args: seq<string>)
    ensures Scan(Tail(args), false, Some(word)) == Some([word] + Effectives(args))
    decreases |args|
  {
    if args == [] {
      assert [word] + Effectives(args) == [word];
    } else {
      var rest := QuotedArg(args[0]) + Tail(args[1..]);
      assert Tail(args) == " " + rest;
      ScanBlank(rest, word);
      ScanQuotedArg(args[0], Tail(args[1..]));
      ScanTail(Effective(args[0]), args[1..]);
      EffectivesCons(args);
    }
  }

  lemma EffectivesCons(args: seq<string>)
    requires args != []
    ensures Effectives(args) == [Effective(args[0])] + Effectives(args[1..])
  {
  }

  lemma OutputIsTail(args: seq<string>)
    requires args != []
    ensures Accumulate("", args) + "\n" == QuotedArg(args[0]) + Tail(args[1..])
  {
    var first := QuotedArg(args[0]);
    assert "" + first == first;
    AccumulateIsTail(first, args[1..]);
  }

  /**
   * How an argument comes back as a word: as nothing if `echo` takes it for options (a dash and only
   * letters n, e and E after it), otherwise as itself without the newlines at its end.
   */
  predicate ComesBackAs(arg: string, word: string) {
    if |arg| >= 2 && arg[0] == '-' && (forall i :: 1 <= i < |arg| ==> arg[i] == 'n' || arg[i] == 'e' || arg[i] == 'E')
    then word == ""
    else
      && word <= arg && (word == "" || word[|word| - 1] != '\n')
      && forall i :: |word| <= i < |arg| ==> arg[i] == '\n'
  }

  lemma EffectiveComesBack(arg: string)
    ensures ComesBackAs(arg, Effective(arg))
  {
    if IsEchoOption(arg) {
      OptionsVanish();
    } else {
      var s := arg + "\n";
      assert s[..|s| - 1] == arg;
      assert Effective(arg) == StripNewlines(arg);
      StripLeaves(arg);
    }
  }

  lemma OptionsVanish()
    ensures StripNewlines("") == "" && StripNewlines("\n") == ""
  {
    assert "\n"[..0] == "";
  }

  lemma {:induction false} StripLeaves(s: string)
    ensures StripNewlines(s) <= s && (StripNewlines(s) == "" || !EndsInNewline(StripNewlines(s)))
    ensures forall i :: |StripNewlines(s)| <= i < |s| ==> s[i] == '\n'
    decreases |s|
  {
    if EndsInNewline(s) {
      StripLeaves(s[..|s| - 1]);
    }
  }

  /** `words` are what became of `args`, one word for each. */
  predicate ComeBackAs(args: seq<string>, words: seq<string>) {
    |words| == |args| && forall i :: 0 <= i < |args| ==> ComesBackAs(args[i], words[i])
  }

  lemma EffectivesComeBack(args: seq<string>)
    ensures ComeBackAs(args, Effectives(args))
  {
    forall i | 0 <= i < |args|
      ensures ComesBackAs(args[i], Effectives(args)[i])
    {
      EffectiveComesBack(args[i]);
    }
  }

  /** For every argument list a shell reads the output as one word for each argument, what became of it. */
  lemma OutputReadsBack(args: seq<string>)
    ensures var words := Tokenize(Accumulate("", args) + "\n");
      words.Some? && ComeBackAs(args, words.value)
  {
    TokensOfOutput(args);
    EffectivesComeBack(args);
  }

  /** The output itself, with a quote and an empty argument in it. */
  lemma OutputFormat()
    ensures Accumulate("", ["it's", ""]) == "'it'\\''s' ''"
  {
    SedQuoteOfIts();
    QuotedFormat("it's", "it'\\''s");
    QuotedFormat("", "");
    AccumulateTwo("it's", "");
  }

  lemma AccumulateTwo(x: string, y: string)
    ensures Accumulate("", [x, y]) == QuotedArg(x) + " " + QuotedArg(y)
  {
    var first := QuotedArg(x);
    assert "" + first == first;
    assert [x, y][1..] == [y] && [y][1..] == [];
    assert Accumulate(first, [y]) == Accumulate(first + " " + QuotedArg(y), []);
  }

  lemma SedQuoteOfIts()
    ensures SedQuote("it's") == "it'\\''s"
  {
    assert "it's"[1..] == "t's" && "t's"[1..] == "'s" && "'s"[1..] == "s" && "s"[1..] == "";
    assert SedQuote("s") == "s";
    assert SedQuote("'s") == "'\\''s";
    assert SedQuote("t's") == "t'\\''s";
  }

  lemma QuotedFormat(arg: string, quoted: string)
    requires !IsEchoOption(arg) && !EndsInNewline(arg) && SedQuote(arg) == quoted
    ensures QuotedArg(arg) == "'" + quoted + "'"
  {
    EffectiveIsIdentity(arg);
    SedQuoteKeepsNewlines(Echo(arg));
  }

  /** The install script's own flags: `-t` comes through, but `echo` swallows `-n`. */
  lemma FlagsComeBack(token: string, name: string)
    requires ComesBackAs(token, token) && ComesBackAs(name, name)
    ensures Tokenize(Accumulate("", ["-t", token, "-n", name]) + "\n") == Some(["-t", token, "", name])
  {
    var args := ["-t", token, "-n", name];
    OutputReadsBack(args);
    var words := Tokenize(Accumulate("", args) + "\n").value;
    assert ComesBackAs(args[0], words[0]) && ComesBackAs(args[1], words[1]);
    assert ComesBackAs(args[2], words[2]) && ComesBackAs(args[3], words[3]);
    ComesBackOneWay(token, token, words[1]);
    ComesBackOneWay(name, name, words[3]);
    assert "-t"[1] == 't';
    ComesBackOneWay("-t", "-t", words[0]);
    assert words == ["-t", token, "", name];
  }

  /** An argument comes back as one word only. */
  lemma ComesBackOneWay(arg: string, word: string, word': string)
    requires ComesBackAs(arg, word) && ComesBackAs(arg, word')
    ensures word == word'
  {
    if word <= arg && word' <= arg {
      EndsBefore(arg, word, |word'|);
      EndsBefore(arg, word', |word|);
    }
  }

  lemma EndsBefore(arg: string, word: string, n: nat)
    requires word <= arg
    ensures (word == "" || word[|word| - 1] != '\n') && (forall i :: n <= i < |arg| ==> arg[i] == '\n') ==> |word| <= n
  {
    assert word != "" ==> arg[|word| - 1] == word[|word| - 1];
  }

  /** The same through the functions above. */
  lemma TokensOfOutput(args: seq<string>)
    ensures Tokenize(Accumulate("", args) + "\n") == Some(Effectives(args))
  {
    if args == [] {
      assert Accumulate("", args) + "\n" == "\n" && Effectives(args) == [];
    } else {
      var rest := Tail(args[1..]);
      OutputIsTail(args);
      ScanQuotedArg(args[0], rest);
      ScanTail(Effective(args[0]), args[1..]);
      EffectivesCons(args);
    }
  }

  /** The loop over the positional parameters, with `shift`. */
  method BuildSudoArgs(args: seq<string>) returns (output: string)
    ensures output == Accumulate("", args) + "\n"
    ensures Tokenize(output).Some? && ComeBackAs(args, Tokenize(output).value)
  {
    var quotedArgs := "";
    var params := args;
    while |params| > 0
      invariant Accumulate(quotedArgs, params) == Accumulate("", args)
      decreases |params|
    {
      if quotedArgs != "" {
        quotedArgs := quotedArgs + " ";
      }
      quotedArgs := quotedArgs + QuotedArg(params[0]);
      params := params[1..];
    }
    OutputReadsBack(args);
    return quotedArgs + "\n";
  }

  predicate EndsInNewline(arg: string) {
    arg != [] && arg[|arg| - 1] == '\n'
  }

  /** An argument survives exactly if it is no `echo` option and has no newline at its end. */
  lemma EffectiveIsIdentity(arg: string)
    ensures Effective(arg) == arg <==> !IsEchoOption(arg) && !EndsInNewline(arg)
  {
    if IsEchoOption(arg) {
      assert StripNewlines("") == "" && "\n"[..0] == "" && StripNewlines("\n") == "";
    } else {
      var s := arg + "\n";
      assert s[..|s| - 1] == arg;
      assert Effective(arg) == StripNewlines(arg);
      StripShortens(arg);
    }
  }

  lemma {:induction false} StripShortens(s: string)
    ensures |StripNewlines(s)| <= |s|
    ensures EndsInNewline(s) ==> |StripNewlines(s)| < |s|
    decreases |s|
  {
    if EndsInNewline(s) {
      StripShortens(s[..|s| - 1]);
    }
  }

  /**
   * For every argument list, empty arguments, quotes, blanks and backslashes included, the shell reads
   * back the very list if and only if no argument ends in a newline or is an `echo` option.
   */
  lemma RoundTripExactly(args: seq<string>)
    ensures Tokenize(Accumulate("", args) + "\n") == Some(args) <==>
      forall i :: 0 <= i < |args| ==> !IsEchoOption(args[i]) && !EndsInNewline(args[i])
  {
    TokensOfOutput(args);
    forall i | 0 <= i < |args|
      ensures Effectives(args)[i] == args[i] <==> !IsEchoOption(args[i]) && !EndsInNewline(args[i])
    {
      EffectiveIsIdentity(args[i]);
    }
    if Effectives(args) == args {
      assert forall i :: 0 <= i < |args| ==> Effectives(args)[i] == args[i];
    }
  }
}

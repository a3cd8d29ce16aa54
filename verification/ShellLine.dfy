/**
 Rendering a command as the one string an SSH session takes, against a shell's
 own reading of it: token recognition (section 2.3) with quoting (sections 2.2.1
 to 2.2.3) and quote removal (section 2.6.7) of the Shell Command Language of IEEE
 Std 1003.1.
 */
module Shell {
  import opened Basics

  datatype Token = Word(text: string) | Op(text: string)

  const AND_IF := Op("&&")

  /** Where in the line a character stands: outside quotes, or in single or double ones. */
  datatype Mode = Bare | Single | Double

  predicate IsBlank(c: char) {
    c == ' ' || c == '\t'
  }

  /** The characters an operator begins with; a newline is one. */
  predicate BeginsOperator(c: char) {
    c in "|&;<>()\n"
  }

  /** What a word is expanded at, so that the line alone does not say how it reads. */
  predicate Expands(c: char) {
    c == '$' || c == '`'
  }

  /** Characters that are part of a word outside quotes, and stand for themselves. A
      number sign is one except at the start of a token. */
  predicate Plain(c: char) {
    !IsBlank(c) && !BeginsOperator(c) && !Expands(c) && c != '\'' && c != '"' && c != '\\'
  }

  function Flush(word: Option<string>): seq<Token> {
    if word.None? then [] else [Word(word.value)]
  }

  function Prepend(ts: seq<Token>, r: Option<seq<Token>>): Option<seq<Token>> {
    if r.None? then None else Some(ts + r.value)
  }

  lemma PrependTwice(a: seq<Token>, b: seq<Token>, r: Option<seq<Token>>)
    ensures Prepend(a, Prepend(b, r)) == Prepend(a + b, r)
    ensures Prepend([], r) == r
  {
    if r.Some? {
      assert a + (b + r.value) == a + b + r.value;
      assert [] + r.value == r.value;
    }
  }

  function Grown(word: Option<string>, c: char): Option<string> {
    Some((if word.None? then "" else word.value) + [c])
  }

  function Begin(word: Option<string>): Option<string> {
    Some(if word.None? then "" else word.value)
  }

  /** The longest operator the line begins with. */
  function Operator(s: string): (op: string)
    requires s != ""
    ensures 1 <= |op| <= |s| && op == s[..|op|]
  {
    if |s| >= 3 && s[..3] == "<<-" then s[..3]
    else if |s| >= 2 && s[..2] in {"&&", "||", ";;", "<<", ">>", "<&", ">&", "<>", ">|"} then s[..2]
    else s[..1]
  }

  /** What is left of a line once a comment is discarded: the newline it ends at. */
  function AfterComment(s: string): (rest: string)
    ensures |rest| <= |s| && (rest == "" || rest[0] == '\n')
    ensures s != "" && s[0] != '\n' ==> |rest| < |s|
  {
    if s == "" || s[0] == '\n' then s else AfterComment(s[1..])
  }

  /** The tokens of `s`, quotes removed; `word` is the word begun so far, if any.
      None where a quote is not closed, or where a word is to be expanded. The body
      of a here-document is not taken out. */
  function Lex(s: string, mode: Mode, word: Option<string>): Option<seq<Token>>
    decreases |s|
  {
    if s == "" then (if mode.Bare? then Some(Flush(word)) else None)
    else match mode
    case Single =>
      if s[0] == '\'' then Lex(s[1..], Bare, word) else Lex(s[1..], Single, Grown(word, s[0]))
    case Double =>
      if s[0] == '"' then Lex(s[1..], Bare, word)
      else if Expands(s[0]) then None
      else if s[0] == '\\' && |s| > 1 && s[1] == '\n' then Lex(s[2..], Double, word)
      else if s[0] == '\\' && |s| > 1 && (Expands(s[1]) || s[1] == '"' || s[1] == '\\') then
        Lex(s[2..], Double, Grown(word, s[1]))
      else Lex(s[1..], Double, Grown(word, s[0]))
    case Bare =>
      if s[0] == '\'' then Lex(s[1..], Single, Begin(word))
      else if s[0] == '"' then Lex(s[1..], Double, Begin(word))
      else if s[0] == '\\' then
        if |s| == 1 then None
        else if s[1] == '\n' then Lex(s[2..], Bare, word)
        else Lex(s[2..], Bare, Grown(word, s[1]))
      else if IsBlank(s[0]) then Prepend(Flush(word), Lex(s[1..], Bare, None))
      else if BeginsOperator(s[0]) then
        var op := Operator(s);
        Prepend(Flush(word) + [Op(op)], Lex(s[|op|..], Bare, None))
      else if s[0] == '#' && word.None? then Lex(AfterComment(s), Bare, None)
      else if Expands(s[0]) then None
      else Lex(s[1..], Bare, Grown(word, s[0]))
  }

  /** What the shell reads a whole command line as. */
  function Tokens(s: string): Option<seq<Token>> {
    Lex(s, Bare, None)
  }

  // ---------------------------------------------------------------- rendering

  function Escaped(s: string): string {
    if s == "" then ""
    else (if s[0] == '\'' then "'\\''" else [s[0]]) + Escaped(s[1..])
  }

  function Quote(s: string): string {
    "'" + Escaped(s) + "'"
  }

  lemma LexChar(c: char, rest: string, word: Option<string>)
    requires Plain(c) && (word.Some? || c != '#')
    ensures Lex([c] + rest, Bare, word) == Lex(rest, Bare, Grown(word, c))
  {
    assert ([c] + rest)[1..] == rest;
  }

  lemma {:induction false} LexPlain(s: string, rest: string, word: string)
    requires forall c :: c in s ==> Plain(c)
    ensures Lex(s + rest, Bare, Some(word)) == Lex(rest, Bare, Some(word + s))
  {
    if s == "" {
      assert s + rest == rest && word + s == word;
    } else {
      assert s + rest == [s[0]] + (s[1..] + rest);
      LexChar(s[0], s[1..] + rest, Some(word));
      LexPlain(s[1..], rest, word + [s[0]]);
      assert word + [s[0]] + s[1..] == word + s;
    }
  }

  /** The four characters that render a quote leave and re-enter the quotes. */
  lemma LexEscapedQuote(rest: string, word: string)
    ensures Lex("'\\''" + rest, Single, Some(word)) == Lex(rest, Single, Some(word + "'"))
  {
    var s := "'\\''" + rest;
    assert s[1..] == "\\''" + rest;
    assert s[1..][2..] == "'" + rest;
    assert s[1..][2..][1..] == rest;
    assert Grown(Some(word), '\'') == Some(word + "'");
    assert Lex(s[1..], Bare, Some(word)) == Lex(s[1..][2..], Bare, Some(word + "'"));
  }

  lemma LexQuotedChar(c: char, rest: string, word: string)
    requires c != '\''
    ensures Lex([c] + rest, Single, Some(word)) == Lex(rest, Single, Some(word + [c]))
  {
    assert ([c] + rest)[1..] == rest;
  }

  lemma {:induction false} LexEscaped(s: string, rest: string, word: string)
    ensures Lex(Escaped(s) + rest, Single, Some(word)) == Lex(rest, Single, Some(word + s))
  {
    if s == "" {
      assert Escaped(s) + rest == rest && word + s == word;
    } else {
      var first, after := if s[0] == '\'' then "'\\''" else [s[0]], Escaped(s[1..]);
      assert Escaped(s) == first + after;
      hide Lex, Escaped;
      Regroup(first, after, rest);
      if s[0] == '\'' {
        LexEscapedQuote(after + rest, word);
        assert "'" == [s[0]];
      } else {
        LexQuotedChar(s[0], after + rest, word);
      }
      LexEscaped(s[1..], rest, word + [s[0]]);
      Regroup(word, [s[0]], s[1..]);
      assert [s[0]] + s[1..] == s;
    }
  }

  lemma Regroup(a: string, b: string, c: string)
    ensures (a + b) + c == a + (b + c)
  {
  }

  /** A quoted string adds exactly itself to the word it is read in. */
  lemma LexQuote(s: string, rest: string, word: Option<string>)
    ensures Lex(Quote(s) + rest, Bare, word)
         == Lex(rest, Bare, Some((if word.None? then "" else word.value) + s))
  {
    var w := if word.None? then "" else word.value;
    var inner := Escaped(s) + ("'" + rest);
    assert Quote(s) + rest == "'" + inner;
    assert ("'" + inner)[1..] == inner;
    LexEscaped(s, "'" + rest, w);
    assert ("'" + rest)[1..] == rest;
  }

  lemma LexBlank(rest: string, word: Option<string>)
    ensures Lex(" " + rest, Bare, word) == Prepend(Flush(word), Lex(rest, Bare, None))
  {
    assert (" " + rest)[1..] == rest;
  }

  lemma LexOperator(rest: string)
    ensures Lex("&&" + rest, Bare, None) == Prepend([AND_IF], Lex(rest, Bare, None))
  {
    var s := "&&" + rest;
    assert s[..2] == "&&" && s[2..] == rest;
    assert Operator(s) == "&&" by {
      assert |s| >= 3 ==> s[..3][0] == '&' && "<<-"[0] == '<';
    }
    assert Flush(None) + [AND_IF] == [AND_IF];
  }

  lemma LexAnd(rest: string, word: string)
    ensures Lex(" && " + rest, Bare, Some(word)) == Prepend([Word(word), AND_IF], Lex(rest, Bare, None))
  {
    hide Lex;
    var r := Lex(rest, Bare, None);
    assert " && " + rest == " " + ("&&" + (" " + rest));
    LexBlank("&&" + (" " + rest), Some(word));
    LexOperator(" " + rest);
    LexBlank(rest, None);
    PrependTwice([AND_IF], [], r);
    PrependTwice([Word(word)], [AND_IF], r);
    assert [Word(word)] + [AND_IF] == [Word(word), AND_IF];
  }

  lemma LexName(k: string, rest: string)
    requires k != "" && k[0] != '#' && forall c :: c in k ==> Plain(c)
    ensures Lex(k + rest, Bare, None) == Lex(rest, Bare, Some(k))
  {
    hide Lex, Plain;
    assert k + rest == [k[0]] + (k[1..] + rest);
    LexChar(k[0], k[1..] + rest, None);
    assert "" + [k[0]] == [k[0]];
    LexPlain(k[1..], rest, [k[0]]);
    assert [k[0]] + k[1..] == k;
  }

  /** A command word of plain characters and the blank after it. */
  lemma LexCommand(name: string, rest: string)
    requires name != "" && name[0] != '#' && forall c :: c in name ==> Plain(c)
    ensures Lex(name + " " + rest, Bare, None) == Prepend([Word(name)], Lex(rest, Bare, None))
  {
    hide Lex, Plain;
    assert name + " " + rest == name + (" " + rest);
    LexName(name, " " + rest);
    LexBlank(rest, Some(name));
  }

  // ---------------------------------------------------------------- the command line

  datatype Command = Command(dir: string, env: map<string, string>, path: string, args: seq<string>)

  function CdPart(dir: string): string {
    if dir == "" then "" else "cd " + Quote(dir) + " && "
  }

  function ExportPart(k: string, v: string): string {
    "export " + k + "=" + Quote(v) + " && "
  }

  function EnvPart(keys: seq<string>, env: map<string, string>): string
    requires forall k :: k in keys ==> k in env
  {
    if keys == [] then "" else ExportPart(keys[0], env[keys[0]]) + EnvPart(keys[1..], env)
  }

  function ArgsPart(args: seq<string>): string {
    if args == [] then "" else " " + Quote(args[0]) + ArgsPart(args[1..])
  }

  function Line(cmd: Command, keys: seq<string>): string
    requires forall k :: k in keys ==> k in cmd.env
  {
    CdPart(cmd.dir) + EnvPart(keys, cmd.env) + "exec " + Quote(cmd.path) + ArgsPart(cmd.args)
  }

  // The words the shell is meant to see.

  function CdTokens(dir: string): seq<Token> {
    if dir == "" then [] else [Word("cd"), Word(dir), AND_IF]
  }

  function EnvTokens(keys: seq<string>, env: map<string, string>): seq<Token>
    requires forall k :: k in keys ==> k in env
  {
    if keys == [] then []
    else [Word("export"), Word(keys[0] + "=" + env[keys[0]]), AND_IF] + EnvTokens(keys[1..], env)
  }

  function Intended(cmd: Command, keys: seq<string>): seq<Token>
    requires forall k :: k in keys ==> k in cmd.env
  {
    CdTokens(cmd.dir) + EnvTokens(keys, cmd.env) + [Word("exec"), Word(cmd.path)]
    + Words(cmd.args)
  }

  function Words(args: seq<string>): (ts: seq<Token>)
    ensures |ts| == |args| && forall i :: 0 <= i < |args| ==> ts[i] == Word(args[i])
  {
    if args == [] then [] else [Word(args[0])] + Words(args[1..])
  }

  /** Every character is plain where it stands. */
  predicate PlainKey(k: string) {
    (forall i :: 0 <= i < |k| ==> Plain(k[i])) && (k != "" ==> k[0] != '#')
  }

  /** A variable name: letters, digits and underscores. */
  predicate NameChar(c: char) {
    'a' <= c <= 'z' || 'A' <= c <= 'Z' || '0' <= c <= '9' || c == '_'
  }

  lemma NameIsPlain(k: string)
    requires forall i :: 0 <= i < |k| ==> NameChar(k[i])
    ensures PlainKey(k)
  {
    forall i | 0 <= i < |k|
      ensures Plain(k[i])
    {
      assert NameChar(k[i]);
    }
  }

  lemma CommandNamesArePlain()
    ensures forall c :: c in "cd" ==> Plain(c)
    ensures forall c :: c in "export" ==> Plain(c)
    ensures forall c :: c in "exec" ==> Plain(c)
  {
  }

  lemma {:induction false} LexArgs(args: seq<string>, word: string)
    ensures Lex(ArgsPart(args), Bare, Some(word))
         == Some([Word(word)] + Words(args))
  {
    if args == [] {
      assert [Word(word)] + Words(args) == [Word(word)];
    } else {
      hide Lex;
      var more := Quote(args[0]) + ArgsPart(args[1..]);
      assert ArgsPart(args) == " " + more;
      LexBlank(more, Some(word));
      LexQuote(args[0], ArgsPart(args[1..]), None);
      assert "" + args[0] == args[0];
      LexArgs(args[1..], args[0]);
    }
  }

  lemma LexAssign(k: string, v: string, rest: string)
    requires PlainKey(k)
    ensures Lex(k + ("=" + (Quote(v) + (" && " + rest))), Bare, None)
         == Prepend([Word(k + "=" + v), AND_IF], Lex(rest, Bare, None))
  {
    assert Plain('=');
    hide Lex, Plain, Quote;
    var tail := " && " + rest;
    assert k + ("=" + (Quote(v) + tail)) == (k + "=") + (Quote(v) + tail);
    LexName(k + "=", Quote(v) + tail);
    LexQuote(v, tail, Some(k + "="));
    LexAnd(rest, k + "=" + v);
  }

  lemma LexExport(k: string, v: string, rest: string)
    requires PlainKey(k)
    ensures Lex(ExportPart(k, v) + rest, Bare, None)
         == Prepend([Word("export"), Word(k + "=" + v), AND_IF], Lex(rest, Bare, None))
  {
    hide Lex, Plain, Quote;
    var assign := k + ("=" + (Quote(v) + (" && " + rest)));
    assert ExportPart(k, v) + rest == "export" + " " + assign;
    CommandNamesArePlain();
    LexCommand("export", assign);
    LexAssign(k, v, rest);
    PrependTwice([Word("export")], [Word(k + "=" + v), AND_IF], Lex(rest, Bare, None));
    assert [Word("export")] + [Word(k + "=" + v), AND_IF] == [Word("export"), Word(k + "=" + v), AND_IF];
  }

  lemma {:induction false} LexEnv(keys: seq<string>, env: map<string, string>, rest: string)
    requires forall k :: k in keys ==> k in env && PlainKey(k)
    ensures Lex(EnvPart(keys, env) + rest, Bare, None)
         == Prepend(EnvTokens(keys, env), Lex(rest, Bare, None))
  {
    var r := Lex(rest, Bare, None);
    hide Lex;
    PrependTwice([], [], r);
    if keys == [] {
      assert EnvPart(keys, env) + rest == rest;
    } else {
      var more := EnvPart(keys[1..], env) + rest;
      assert EnvPart(keys, env) + rest == ExportPart(keys[0], env[keys[0]]) + more;
      LexExport(keys[0], env[keys[0]], more);
      LexEnv(keys[1..], env, rest);
      var first := [Word("export"), Word(keys[0] + "=" + env[keys[0]]), AND_IF];
      PrependTwice(first, EnvTokens(keys[1..], env), r);
    }
  }

  lemma LexCd(dir: string, rest: string)
    ensures Lex(CdPart(dir) + rest, Bare, None) == Prepend(CdTokens(dir), Lex(rest, Bare, None))
  {
    var r := Lex(rest, Bare, None);
    hide Lex, Plain;
    PrependTwice([Word("cd")], [Word(dir), AND_IF], r);
    if dir == "" {
      assert CdPart(dir) + rest == rest;
    } else {
      var tail := " && " + rest;
      assert CdPart(dir) + rest == "cd" + " " + (Quote(dir) + tail);
      CommandNamesArePlain();
      LexCommand("cd", Quote(dir) + tail);
      LexQuote(dir, tail, None);
      assert "" + dir == dir;
      LexAnd(rest, dir);
      assert [Word("cd")] + [Word(dir), AND_IF] == CdTokens(dir);
    }
  }

  function ExecPart(path: string, args: seq<string>): string {
    "exec " + Quote(path) + ArgsPart(args)
  }

  lemma LexExec(path: string, args: seq<string>)
    ensures Lex(ExecPart(path, args), Bare, None) == Some([Word("exec"), Word(path)] + Words(args))
  {
    hide Lex, Plain, Quote;
    var called := Quote(path) + ArgsPart(args);
    assert ExecPart(path, args) == "exec" + " " + called;
    CommandNamesArePlain();
    LexCommand("exec", called);
    LexQuote(path, ArgsPart(args), None);
    assert "" + path == path;
    LexArgs(args, path);
    assert [Word("exec")] + ([Word(path)] + Words(args)) == [Word("exec"), Word(path)] + Words(args);
  }

  /** For every directory, path and argument list and every environment whose
      keys are plain, the shell reads the line as exactly the words
      meant, quotes, blanks and empty strings intact. */
  lemma LineReadsAsIntended(cmd: Command, keys: seq<string>)
    requires forall k :: k in keys ==> k in cmd.env && PlainKey(k)
    ensures Tokens(Line(cmd, keys)) == Some(Intended(cmd, keys))
  {
    hide Lex, Plain, Quote, ArgsPart, Words, CdPart, CdTokens, EnvPart, EnvTokens;
    var call := ExecPart(cmd.path, cmd.args);
    assert Line(cmd, keys) == CdPart(cmd.dir) + (EnvPart(keys, cmd.env) + call);
    hide Line, ExecPart;
    LexCd(cmd.dir, EnvPart(keys, cmd.env) + call);
    LexEnv(keys, cmd.env, call);
    LexExec(cmd.path, cmd.args);
    var words := [Word("exec"), Word(cmd.path)] + Words(cmd.args);
    assert CdTokens(cmd.dir) + (EnvTokens(keys, cmd.env) + words) == Intended(cmd, keys);
  }

  /** In particular every environment of variable names. */
  lemma VariableNamesReadAsIntended(cmd: Command, keys: seq<string>)
    requires forall k :: k in keys ==> k in cmd.env && forall i :: 0 <= i < |k| ==> NameChar(k[i])
    ensures Tokens(Line(cmd, keys)) == Some(Intended(cmd, keys))
  {
    forall k | k in keys
      ensures PlainKey(k)
    {
      NameIsPlain(k);
    }
    hide Tokens, Line, Intended, PlainKey, NameChar;
    LineReadsAsIntended(cmd, keys);
  }

  // ---------------------------------------------------------------- keys that are not plain

  function Begun(word: Option<string>): nat {
    if word.None? then 0 else |word.value|
  }

  /** A word once begun is only added to. */
  lemma {:induction false} BegunWordComesFirst(s: string, mode: Mode, word: string)
    requires Lex(s, mode, Some(word)).Some?
    ensures var ts := Lex(s, mode, Some(word)).value;
            ts != [] && ts[0].Word? && word <= ts[0].text
    decreases |s|
  {
    if s != "" {
      var grown := word + [s[0]];
      if mode.Single? {
        if s[0] == '\'' { BegunWordComesFirst(s[1..], Bare, word); }
        else { BegunWordComesFirst(s[1..], Single, grown); }
      } else if mode.Double? {
        if s[0] == '"' { BegunWordComesFirst(s[1..], Bare, word); }
        else if s[0] == '\\' && |s| > 1 && s[1] == '\n' { BegunWordComesFirst(s[2..], Double, word); }
        else if s[0] == '\\' && |s| > 1 && (Expands(s[1]) || s[1] == '"' || s[1] == '\\') {
          BegunWordComesFirst(s[2..], Double, word + [s[1]]);
        } else { BegunWordComesFirst(s[1..], Double, grown); }
      } else if s[0] == '\'' {
        BegunWordComesFirst(s[1..], Single, word);
      } else if s[0] == '"' {
        BegunWordComesFirst(s[1..], Double, word);
      } else if s[0] == '\\' {
        if s[1] == '\n' { BegunWordComesFirst(s[2..], Bare, word); }
        else { BegunWordComesFirst(s[2..], Bare, word + [s[1]]); }
      } else if !IsBlank(s[0]) && !BeginsOperator(s[0]) {
        BegunWordComesFirst(s[1..], Bare, grown);
      }
    }
  }

  /** Either the first word ends before the equals sign at `m` is reached, or the
      sign is in it, no further along than it stands in the line: reading can
      drop characters and never adds any. */
  ghost predicate EqualsIn(ts: seq<Token>, from: nat, m: nat) {
    ts != [] && ts[0].Word? ==>
      || |ts[0].text| <= from + m
      || exists g :: from <= g <= from + m && g < |ts[0].text| && ts[0].text[g] == '='
  }

  lemma EqualsIsAdded(s: string, mode: Mode, word: Option<string>)
    requires Lex(s, mode, Grown(word, '=')).Some?
    ensures EqualsIn(Lex(s, mode, Grown(word, '=')).value, Begun(word), 0)
  {
    hide Lex;
    var w := Grown(word, '=').value;
    BegunWordComesFirst(s, mode, w);
    assert w[Begun(word)] == '=';
  }

  lemma {:induction false} EqualsIsKept(s: string, m: nat, mode: Mode, word: Option<string>)
    requires m < |s| && s[m] == '=' && Lex(s, mode, word).Some?
    ensures EqualsIn(Lex(s, mode, word).value, Begun(word), m)
    decreases |s|, 1
  {
    if m == 0 {
      EqualsIsAdded(s[1..], mode, word);
    } else if mode.Single? {
      EqualsIsKept(s[1..], m - 1, if s[0] == '\'' then Bare else Single, if s[0] == '\'' then word else Grown(word, s[0]));
    } else if mode.Double? {
      EqualsInDouble(s, m, word);
    } else {
      EqualsInBare(s, m, word);
    }
  }

  lemma {:induction false} EqualsInDouble(s: string, m: nat, word: Option<string>)
    requires 0 < m < |s| && s[m] == '=' && Lex(s, Double, word).Some?
    ensures EqualsIn(Lex(s, Double, word).value, Begun(word), m)
    decreases |s|, 0
  {
    if s[0] == '"' {
      EqualsIsKept(s[1..], m - 1, Bare, word);
    } else if s[0] == '\\' && s[1] == '\n' {
      EqualsIsKept(s[2..], m - 2, Double, word);
    } else if s[0] == '\\' && (Expands(s[1]) || s[1] == '"' || s[1] == '\\') {
      EqualsIsKept(s[2..], m - 2, Double, Grown(word, s[1]));
    } else {
      EqualsIsKept(s[1..], m - 1, Double, Grown(word, s[0]));
    }
  }

  lemma {:induction false} EqualsInBare(s: string, m: nat, word: Option<string>)
    requires 0 < m < |s| && s[m] == '=' && Lex(s, Bare, word).Some?
    ensures EqualsIn(Lex(s, Bare, word).value, Begun(word), m)
    ensures !Plain(s[0]) ==> EqualsIn(Lex(s, Bare, word).value, Begun(word), m - 1)
    decreases |s|, 0
  {
    if s[0] == '\'' {
      EqualsIsKept(s[1..], m - 1, Single, Begin(word));
    } else if s[0] == '"' {
      EqualsIsKept(s[1..], m - 1, Double, Begin(word));
    } else if s[0] == '\\' {
      if m == 1 {
        EqualsIsAdded(s[2..], Bare, word);
      } else {
        EqualsIsKept(s[2..], m - 2, Bare, if s[1] == '\n' then word else Grown(word, s[1]));
      }
    } else if IsBlank(s[0]) {
      EqualsIsKept(s[1..], m - 1, Bare, None);
    } else if s[0] == '#' && word.None? {
      CommentIsNoWord(s);
    } else if !BeginsOperator(s[0]) {
      EqualsIsKept(s[1..], m - 1, Bare, Grown(word, s[0]));
    }
  }

  lemma CommentIsNoWord(s: string)
    requires s != "" && s[0] == '#' && Lex(s, Bare, None).Some?
    ensures var ts := Lex(s, Bare, None).value;
            ts == [] || ts[0].Op?
  {
    var rest := AfterComment(s);
    assert Lex(s, Bare, None) == Lex(rest, Bare, None);
    hide AfterComment;
  }

  /** Where the first equals sign at or after `i` stands, the one after the key counted. */
  function FirstEquals(k: string, i: nat): (m: nat)
    requires i <= |k|
    ensures i <= m <= |k| && (m < |k| ==> k[m] == '=') && forall j :: i <= j < m ==> k[j] != '='
    decreases |k| - i
  {
    if i == |k| || k[i] == '=' then i else FirstEquals(k, i + 1)
  }

  /** Reading on from a character that is not plain loses it, so the first word
      cannot be the assignment. */
  lemma LosesCharacter(k: string, i: nat, rest: string, word: Option<string>)
    requires i < |k| && !Plain(k[i]) && Begun(word) == i
    requires Lex(k[i..] + ("=" + rest), Bare, word).Some?
    ensures var ts := Lex(k[i..] + ("=" + rest), Bare, word).value;
            EqualsIn(ts, i, FirstEquals(k, i) - i - 1)
  {
    var s := k[i..] + ("=" + rest);
    assert Plain('=');
    var m := FirstEquals(k, i) - i;
    assert s[m] == '=' && s[0] == k[i] && m > 0;
    EqualsInBare(s, m, word);
  }

  lemma NotTheAssignment(k: string, i: nat, v: string, ts: seq<Token>)
    requires i < |k| && i < FirstEquals(k, i) && EqualsIn(ts, i, FirstEquals(k, i) - i - 1)
    ensures ts == [] || ts[0] != Word(k + "=" + v)
  {
    var w := k + "=" + v;
    forall g | i <= g < FirstEquals(k, i)
      ensures w[g] != '='
    {
      assert w[g] == k[g];
    }
  }

  function FirstNotPlain(k: string, i: nat): (j: nat)
    requires i <= |k| && exists l :: i <= l < |k| && !Plain(k[l])
    ensures i <= j < |k| && !Plain(k[j]) && forall l :: i <= l < j ==> Plain(k[l])
    decreases |k| - i
  {
    if Plain(k[i]) then FirstNotPlain(k, i + 1) else i
  }

  lemma LexUpTo(k: string, i: nat, rest: string)
    requires i < |k| && k[0] != '#' && forall l :: 0 <= l < i ==> Plain(k[l])
    ensures Lex(k + rest, Bare, None) == Lex(k[i..] + rest, Bare, if i == 0 then None else Some(k[..i]))
  {
    hide Lex, Plain;
    if i == 0 {
      assert k[0..] == k;
    } else {
      assert k + rest == k[..i] + (k[i..] + rest);
      LexName(k[..i], k[i..] + rest);
    }
  }

  lemma OtherKeyIsNotRead(k: string, v: string, rest: string)
    requires !PlainKey(k)
    ensures var r := Lex(k + ("=" + rest), Bare, None);
            r.None? || r.value == [] || r.value[0] != Word(k + "=" + v)
  {
    assert Plain('=');
    hide Lex, Plain;
    if k[0] == '#' {
      var s := k + ("=" + rest);
      assert s[0] == '#';
      if Lex(s, Bare, None).Some? {
        CommentIsNoWord(s);
      }
    } else {
      var i := FirstNotPlain(k, 0);
      var word := if i == 0 then None else Some(k[..i]);
      LexUpTo(k, i, "=" + rest);
      var r := Lex(k[i..] + ("=" + rest), Bare, word);
      if r.Some? {
        LosesCharacter(k, i, rest, word);
        NotTheAssignment(k, i, v, r.value);
      }
    }
  }

  lemma {:induction false} EnvReadsOnlyPlainKeys(keys: seq<string>, env: map<string, string>, rest: string,
                                                 more: seq<Token>)
    requires forall k :: k in keys ==> k in env
    requires Lex(EnvPart(keys, env) + rest, Bare, None) == Some(EnvTokens(keys, env) + more)
    ensures forall k :: k in keys ==> PlainKey(k)
  {
    if keys != [] {
      var k, v := keys[0], env[keys[0]];
      var after := EnvPart(keys[1..], env) + rest;
      var words := EnvTokens(keys[1..], env) + more;
      hide Lex, Plain, Quote, PlainKey;
      assert EnvPart(keys, env) + rest == ExportPart(k, v) + after;
      assert EnvTokens(keys, env) + more == [Word("export"), Word(k + "=" + v), AND_IF] + words;
      hide EnvPart, EnvTokens;
      FirstKeyIsPlain(k, v, after, words);
      LexExport(k, v, after);
      CancelPrefix([Word("export"), Word(k + "=" + v), AND_IF], Lex(after, Bare, None), words);
      EnvReadsOnlyPlainKeys(keys[1..], env, rest, more);
      assert keys == [k] + keys[1..];
    }
  }

  lemma FirstKeyIsPlain(k: string, v: string, after: string, words: seq<Token>)
    requires Lex(ExportPart(k, v) + after, Bare, None) == Some([Word("export"), Word(k + "=" + v), AND_IF] + words)
    ensures PlainKey(k)
  {
    hide Lex, Plain, Quote, PlainKey;
    var value := Quote(v) + (" && " + after);
    assert ExportPart(k, v) + after == "export" + " " + (k + ("=" + value));
    CommandNamesArePlain();
    LexCommand("export", k + ("=" + value));
    var words' := [Word(k + "=" + v), AND_IF] + words;
    assert [Word("export")] + words' == [Word("export"), Word(k + "=" + v), AND_IF] + words;
    CancelPrefix([Word("export")], Lex(k + ("=" + value), Bare, None), words');
    if !PlainKey(k) {
      OtherKeyIsNotRead(k, v, value);
    }
  }

  lemma CancelPrefix(a: seq<Token>, r: Option<seq<Token>>, b: seq<Token>)
    requires Prepend(a, r) == Some(a + b)
    ensures r == Some(b)
  {
    assert (a + r.value)[|a|..] == r.value && (a + b)[|a|..] == b;
  }

  lemma OnlyPlainKeysReadAsIntended(cmd: Command, keys: seq<string>)
    requires forall k :: k in keys ==> k in cmd.env
    requires Tokens(Line(cmd, keys)) == Some(Intended(cmd, keys))
    ensures forall k :: k in keys ==> PlainKey(k)
  {
    hide Lex, Plain, Quote, ArgsPart, Words, CdPart, CdTokens, EnvPart, EnvTokens, PlainKey;
    var call := ExecPart(cmd.path, cmd.args);
    var words := [Word("exec"), Word(cmd.path)] + Words(cmd.args);
    assert Line(cmd, keys) == CdPart(cmd.dir) + (EnvPart(keys, cmd.env) + call);
    assert Intended(cmd, keys) == CdTokens(cmd.dir) + (EnvTokens(keys, cmd.env) + words);
    hide Line, ExecPart, Intended;
    LexCd(cmd.dir, EnvPart(keys, cmd.env) + call);
    CancelPrefix(CdTokens(cmd.dir), Lex(EnvPart(keys, cmd.env) + call, Bare, None),
                 EnvTokens(keys, cmd.env) + words);
    EnvReadsOnlyPlainKeys(keys, cmd.env, call, words);
  }

  /** The shell reads the line as the words meant exactly when every environment
      key is made of plain characters: the code quotes values and not keys. */
  lemma LineReadsAsIntendedIffKeysPlain(cmd: Command, keys: seq<string>)
    requires forall k :: k in keys ==> k in cmd.env
    ensures Tokens(Line(cmd, keys)) == Some(Intended(cmd, keys)) <==> forall k :: k in keys ==> PlainKey(k)
  {
    hide Tokens, Line, Intended, PlainKey;
    if forall k :: k in keys ==> PlainKey(k) {
      LineReadsAsIntended(cmd, keys);
    } else if Tokens(Line(cmd, keys)) == Some(Intended(cmd, keys)) {
      OnlyPlainKeysReadAsIntended(cmd, keys);
    }
  }

  /** So a key with a blank in it is misread, whatever its value. */
  lemma BlankInKeyIsMisread(v: string, path: string)
    ensures var cmd := Command("", map["A B" := v], path, []);
            Tokens(Line(cmd, ["A B"])) != Some(Intended(cmd, ["A B"]))
  {
    var cmd := Command("", map["A B" := v], path, []);
    assert "A B"[1] == ' ' && !PlainKey("A B");
    assert "A B" in ["A B"];
    hide Tokens, Line, Intended, PlainKey;
    LineReadsAsIntendedIffKeysPlain(cmd, ["A B"]);
  }

  // ---------------------------------------------------------------- the order of the environment

  /** The order sort.Strings puts strings in. */
  predicate Less(a: string, b: string) {
    b != "" && (a == "" || a[0] < b[0] || (a[0] == b[0] && Less(a[1..], b[1..])))
  }

  lemma {:induction false} LessIsOrder(a: string, b: string)
    ensures !(Less(a, b) && Less(b, a)) && !Less(a, a)
    ensures a == b || Less(a, b) || Less(b, a)
  {
    if a != "" && b != "" {
      LessIsOrder(a[1..], b[1..]);
      LessIsOrder(a[1..], a[1..]);
      if a[1..] == b[1..] && a[0] == b[0] {
        assert a == [a[0]] + a[1..] && b == [b[0]] + b[1..];
      }
    } else if a != "" {
      LessIsOrder(a[1..], a[1..]);
    }
  }

  lemma {:induction false} LessTransitive(a: string, b: string, c: string)
    requires Less(a, b) && Less(b, c)
    ensures Less(a, c)
  {
    if a != "" && a[0] == b[0] && b[0] == c[0] {
      LessTransitive(a[1..], b[1..], c[1..]);
    }
  }

  ghost predicate Sorted(keys: seq<string>) {
    forall i, j :: 0 <= i < j < |keys| ==> Less(keys[i], keys[j])
  }

  lemma SameFirst(a: seq<string>, b: seq<string>)
    requires Sorted(a) && Sorted(b) && forall k :: k in a <==> k in b
    ensures |a| == 0 <==> |b| == 0
    ensures |a| > 0 && |b| > 0 ==> a[0] == b[0]
  {
    if |a| > 0 {
      assert a[0] in b;
    }
    if |b| > 0 {
      assert b[0] in a;
      LessIsOrder(a[0], b[0]);
    }
  }

  /** There is only one sorted sequence of an environment's keys, so the line is
      the same every time. */
  lemma {:induction false} SortedIsUnique(a: seq<string>, b: seq<string>)
    requires Sorted(a) && Sorted(b) && forall k :: k in a <==> k in b
    ensures a == b
  {
    SameFirst(a, b);
    if |a| > 0 {
      forall k
        ensures k in a[1..] <==> k in b[1..]
      {
        LessIsOrder(a[0], a[0]);
        assert k in a <==> k == a[0] || k in a[1..];
        assert k in b <==> k == b[0] || k in b[1..];
      }
      SortedIsUnique(a[1..], b[1..]);
      assert a == [a[0]] + a[1..] && b == [b[0]] + b[1..];
    }
  }

  method SmallestOf(keys: set<string>) returns (k: string)
    requires keys != {}
    ensures k in keys && forall x :: x in keys && x != k ==> Less(k, x)
  {
    k :| k in keys;
    var rest := keys - {k};
    while rest != {}
      invariant k in keys && rest <= keys
      invariant forall x :: x in keys - rest && x != k ==> Less(k, x)
      decreases rest
    {
      var x :| x in rest;
      rest := rest - {x};
      LessIsOrder(k, x);
      if Less(x, k) {
        forall y | y in keys - rest && y != x && y != k
          ensures Less(x, y)
        {
          LessTransitive(x, k, y);
        }
        k := x;
      }
    }
  }

  method SortKeys(env: map<string, string>) returns (keys: seq<string>)
    ensures Sorted(keys) && forall k :: k in keys <==> k in env
  {
    keys := [];
    var rest := env.Keys;
    while rest != {}
      invariant rest <= env.Keys && Sorted(keys)
      invariant forall k :: k in env <==> k in keys || k in rest
      invariant forall k, x :: k in keys && x in rest ==> Less(k, x)
      decreases rest
    {
      var k := SmallestOf(rest);
      keys := keys + [k];
      rest := rest - {k};
    }
  }

  lemma EnvPartAt(keys: seq<string>, i: nat, env: map<string, string>)
    requires i < |keys| && forall k :: k in keys ==> k in env
    ensures EnvPart(keys[i..], env) == ExportPart(keys[i], env[keys[i]]) + EnvPart(keys[i + 1..], env)
  {
    hide ExportPart;
    assert keys[i..][1..] == keys[i + 1..];
  }

  lemma ArgsPartAt(args: seq<string>, i: nat)
    requires i < |args|
    ensures ArgsPart(args[i..]) == " " + Quote(args[i]) + ArgsPart(args[i + 1..])
  {
    hide Quote;
    assert args[i..][1..] == args[i + 1..];
  }

  /** The builder: each part is appended in turn. */
  method CommandLine(cmd: Command) returns (line: string, ghost keys: seq<string>)
    ensures Sorted(keys) && forall k :: k in keys <==> k in cmd.env
    ensures line == Line(cmd, keys)
    ensures Tokens(line) == Some(Intended(cmd, keys)) <==> forall k :: k in cmd.env ==> PlainKey(k)
  {
    hide Lex, Quote, Intended, Tokens, Sorted, EnvPart, ArgsPart, PlainKey;
    var sorted := SortKeys(cmd.env);
    keys := sorted;
    var b := "";
    if cmd.dir != "" {
      b := b + "cd ";
      b := b + Quote(cmd.dir);
      b := b + " && ";
    }
    assert b == CdPart(cmd.dir);
    hide CdPart;
    ghost var whole := b + EnvPart(keys, cmd.env);
    assert sorted[0..] == sorted;
    var i := 0;
    while i < |sorted|
      invariant 0 <= i <= |sorted|
      invariant b + EnvPart(sorted[i..], cmd.env) == whole
    {
      EnvPartAt(sorted, i, cmd.env);
      ghost var rest := EnvPart(sorted[i + 1..], cmd.env);
      var part := "export " + sorted[i] + "=" + Quote(cmd.env[sorted[i]]) + " && ";
      assert b + (part + rest) == (b + part) + rest;
      b := b + part;
      i := i + 1;
    }
    assert b == whole by {
      NoKeys(sorted[i..], cmd.env);
    }
    b := b + "exec " + Quote(cmd.path);
    ghost var start := b;
    assert cmd.args[0..] == cmd.args;
    i := 0;
    while i < |cmd.args|
      invariant 0 <= i <= |cmd.args|
      invariant b + ArgsPart(cmd.args[i..]) == start + ArgsPart(cmd.args)
    {
      ArgsPartAt(cmd.args, i);
      ghost var rest := ArgsPart(cmd.args[i + 1..]);
      var part := " " + Quote(cmd.args[i]);
      assert b + (part + rest) == (b + part) + rest;
      b := b + part;
      i := i + 1;
    }
    assert b == start + ArgsPart(cmd.args) by {
      NoArgs(cmd.args[i..]);
    }
    line := b;
    LineReadsAsIntendedIffKeysPlain(cmd, keys);
  }

  lemma NoKeys(keys: seq<string>, env: map<string, string>)
    requires keys == []
    ensures EnvPart(keys, env) == ""
  {
  }

  lemma NoArgs(args: seq<string>)
    requires args == []
    ensures ArgsPart(args) == ""
  {
  }
}

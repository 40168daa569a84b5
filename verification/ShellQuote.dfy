/**
 Quoting of command arguments, against the word rules of the shell: POSIX.1-2017, XCU section 2.2 (quoting)
 and the blank-separated words of section 2.3, without any expansion.
 */
module ShellQuote {
  import opened JobTypes
  import Strings

  // ---- the reader: words ----

  datatype Mode = Between | InWord | InSingle | InDouble

  predicate Blank(c: char) { c == ' ' || c == '\t' }

  // Unquoted, these start an operator, an expansion or a pattern, or end the command.
  predicate Active(c: char) { c in "|&;<>()$`*?[{}\n" }

  // Inside double quotes, a backslash keeps its meaning only before these.
  predicate Escapable(c: char) { c in "$`\"\\" }

  // Splits s into words from a given mode; cur is the word read so far and acc the words before it. None when
  // an expansion, an operator or a pattern would be needed, or a quotation is left open.
  function Lex(s: string, mode: Mode, cur: string, acc: seq<string>): Option<seq<string>>
    decreases |s|
  {
    if s == "" then
      match mode
      case Between => Some(acc)
      case InWord => Some(acc + [cur])
      case _ => None
    else
      var c := s[0];
      match mode
      case InSingle => if c == '\'' then Lex(s[1..], InWord, cur, acc) else Lex(s[1..], InSingle, cur + [c], acc)
      case InDouble =>
        if c == '"' then Lex(s[1..], InWord, cur, acc)
        else if c == '$' || c == '`' then None
        else if c == '\\' && |s| >= 2 && Escapable(s[1]) then Lex(s[2..], InDouble, cur + [s[1]], acc)
        else if c == '\\' && |s| >= 2 && s[1] == '\n' then Lex(s[2..], InDouble, cur, acc)
        else Lex(s[1..], InDouble, cur + [c], acc)
      case _ =>
        var word := if mode.InWord? then cur else "";
        if Blank(c) then Lex(s[1..], Between, "", if mode.InWord? then acc + [cur] else acc)
        else if c == '\'' then Lex(s[1..], InSingle, word, acc)
        else if c == '"' then Lex(s[1..], InDouble, word, acc)
        else if Active(c) then None
        else if mode.Between? && (c == '#' || c == '~') then None
        else if c == '\\' then
          if |s| < 2 then None
          else if s[1] == '\n' then Lex(s[2..], mode, cur, acc)
          else Lex(s[2..], InWord, word + [s[1]], acc)
        else Lex(s[1..], InWord, word + [c], acc)
  }

  function Words(s: string): Option<seq<string>> { Lex(s, Between, "", []) }

  // ---- the writer: qq and qqif ----

  const APOSTROPHE := "'\"'\"'"

  function Quoted(s: string): string { "'" + Strings.Subst(s, "'", APOSTROPHE, 0) + "'" }

  // The characters for which qqif quotes.
  const TRIGGERS := " \t\n\U{0B}\U{08}\r\U{0C}\U{07}|<>[]{}()&'\\*?`;"

  predicate NeedsQuote(s: string) { exists i :: 0 <= i < |s| && s[i] in TRIGGERS }

  function QuotedIf(s: string): string { if NeedsQuote(s) then Quoted(s) else s }

  method Qq(str: string) returns (r: string)
    ensures r == Quoted(str)
  {
    r := Strings.ReplaceAll(str, "'", APOSTROPHE, 0);
    r := "'" + r;
    r := r + "'";
  }

  method Qqif(str: string) returns (r: string)
    ensures r == QuotedIf(str)
  {
    if NeedsQuote(str) {
      r := Qq(str);
    } else {
      r := str;
    }
  }

  // What run_a_job appends to the command: one blank-separated word for each argument.
  function JoinArgs(args: seq<string>): string {
    if args == [] then "" else if |args| == 1 then QuotedIf(args[0]) else QuotedIf(args[0]) + " " + JoinArgs(args[1..])
  }

  // ---- qq ----

  // Inside the quotation, the rewritten text reads back as the text.
  lemma {:induction false} QuotedBody(s: string, rest: string, cur: string, acc: seq<string>)
    ensures Lex(Strings.Subst(s, "'", APOSTROPHE, 0) + "'" + rest, InSingle, cur, acc) ==
            Lex(rest, InWord, cur + s, acc)
    decreases |s|
  {
    if s == "" {
      assert ("" + "'" + rest)[1..] == rest && cur + "" == cur;
    } else {
      var tail := Strings.Subst(s[1..], "'", APOSTROPHE, 0) + "'" + rest;
      Strings.SubstCharAppend(s, '\'', APOSTROPHE);
      QuotedBody(s[1..], rest, cur + [s[0]], acc);
      assert cur + [s[0]] + s[1..] == cur + s;
      var text := Strings.Subst(s, "'", APOSTROPHE, 0) + "'" + rest;
      if s[0] == '\'' {
        assert text == APOSTROPHE + tail;
        ApostropheReads(tail, cur, acc);
      } else {
        assert text == [s[0]] + tail;
        assert text[1..] == tail;
      }
    }
  }

  // Close, quote an apostrophe in double quotes, open again.
  lemma ApostropheReads(tail: string, cur: string, acc: seq<string>)
    ensures Lex(APOSTROPHE + tail, InSingle, cur, acc) == Lex(tail, InSingle, cur + "'", acc)
  {
    var t1 := "\"'\"'" + tail;
    var t2 := "'\"'" + tail;
    var t3 := "\"'" + tail;
    var t4 := "'" + tail;
    assert (APOSTROPHE + tail)[1..] == t1 && t1[1..] == t2 && t2[1..] == t3 && t3[1..] == t4 && t4[1..] == tail;
    assert Lex(APOSTROPHE + tail, InSingle, cur, acc) == Lex(t1, InWord, cur, acc);
    assert Lex(t1, InWord, cur, acc) == Lex(t2, InDouble, cur, acc);
    assert Lex(t2, InDouble, cur, acc) == Lex(t3, InDouble, cur + "'", acc);
    assert Lex(t3, InDouble, cur + "'", acc) == Lex(t4, InWord, cur + "'", acc);
    assert Lex(t4, InWord, cur + "'", acc) == Lex(tail, InSingle, cur + "'", acc);
  }

  // A quoted string is read as one word, the string itself, wherever a word may start.
  lemma QuotedReads(s: string, rest: string, acc: seq<string>)
    ensures Lex(Quoted(s) + rest, Between, "", acc) == Lex(rest, InWord, s, acc)
  {
    var body := Strings.Subst(s, "'", APOSTROPHE, 0) + "'" + rest;
    assert Quoted(s) + rest == "'" + body;
    assert ("'" + body)[1..] == body;
    QuotedBody(s, rest, "", acc);
    assert "" + s == s;
  }

  // qq makes any string exactly one word.
  lemma QqIsOneWord(s: string)
    ensures Words(Quoted(s)) == Some([s])
  {
    QuotedReads(s, "", []);
    assert Quoted(s) + "" == Quoted(s) && [] + [s] == [s];
  }

  // ---- qqif ----

  // Text that qqif leaves alone and the shell reads as one word.
  predicate Plain(s: string) { s != "" && s[0] != '#' && s[0] != '~' && '"' !in s && '$' !in s }

  predicate Ordinary(c: char) { c !in TRIGGERS && c != '"' && c != '$' }

  lemma {:induction false} PlainReads(s: string, rest: string, cur: string, acc: seq<string>)
    requires forall i | 0 <= i < |s| :: Ordinary(s[i])
    ensures Lex(s + rest, InWord, cur, acc) == Lex(rest, InWord, cur + s, acc)
    decreases |s|
  {
    if s == "" {
      assert "" + rest == rest && cur + "" == cur;
    } else {
      OrdinaryIsInert(s[0]);
      assert (s + rest)[1..] == s[1..] + rest;
      PlainReads(s[1..], rest, cur + [s[0]], acc);
      assert cur + [s[0]] + s[1..] == cur + s;
    }
  }

  lemma OrdinaryIsInert(c: char)
    requires Ordinary(c)
    ensures !Blank(c) && !Active(c) && c != '\'' && c != '"' && c != '\\'
  {
    assert TRIGGERS[0] == ' ' && TRIGGERS[1] == '\t' && TRIGGERS[2] == '\n';
    assert TRIGGERS[8..] == "|<>[]{}()&'\\*?`;";
    assert c !in TRIGGERS[8..];
    assert c !in "|<>[]{}()&'\\*?`;";
  }

  lemma ArgReads(a: string, rest: string, acc: seq<string>)
    requires Readable(a)
    ensures Lex(QuotedIf(a) + rest, Between, "", acc) == Lex(rest, InWord, a, acc)
  {
    if NeedsQuote(a) {
      QuotedReads(a, rest, acc);
    } else {
      OrdinaryIsInert(a[0]);
      assert (a + rest)[1..] == a[1..] + rest;
      PlainReads(a[1..], rest, [a[0]], acc);
      assert "" + [a[0]] == [a[0]] && [a[0]] + a[1..] == a;
    }
  }

  // A blank ends the word.
  lemma BlankEnds(rest: string, cur: string, acc: seq<string>)
    ensures Lex(" " + rest, InWord, cur, acc) == Lex(rest, Between, "", acc + [cur])
  {
    assert (" " + rest)[1..] == rest;
  }

  predicate Readable(a: string) { NeedsQuote(a) || Plain(a) }

  lemma LastArg(a: string, acc: seq<string>)
    requires Readable(a)
    ensures Lex(QuotedIf(a), Between, "", acc) == Some(acc + [a])
  {
    assert QuotedIf(a) + "" == QuotedIf(a);
    hide QuotedIf, Readable;
    ArgReads(a, "", acc);
  }

  lemma ArgsStep(args: seq<string>, acc: seq<string>)
    requires args != [] && Readable(args[0])
    ensures Lex(JoinArgs(args), Between, "", acc) ==
            if |args| == 1 then Some(acc + [args[0]]) else Lex(JoinArgs(args[1..]), Between, "", acc + [args[0]])
  {
    var a := args[0];
    if |args| == 1 {
      LastArg(a, acc);
    } else {
      var rest := JoinArgs(args[1..]);
      assert JoinArgs(args) == QuotedIf(a) + (" " + rest) by {
        hide QuotedIf;
        assert QuotedIf(a) + " " + rest == QuotedIf(a) + (" " + rest);
      }
      hide *;
      ArgReads(a, " " + rest, acc);
      BlankEnds(rest, a, acc);
    }
  }

  // Arguments that qqif quotes, or that are plain, come back as the words they were.
  lemma {:induction false} ArgsReadFrom(args: seq<string>, acc: seq<string>)
    requires forall i | 0 <= i < |args| :: Readable(args[i])
    ensures Lex(JoinArgs(args), Between, "", acc) == Some(acc + args)
    decreases |args|
  {
    if args == [] {
      assert acc + args == acc;
    } else {
      hide *;
      ArgsStep(args, acc);
      FirstMoved(acc, args);
      if |args| > 1 {
        ArgsReadFrom(args[1..], acc + [args[0]]);
      }
    }
  }

  lemma FirstMoved(acc: seq<string>, args: seq<string>)
    requires args != []
    ensures (acc + [args[0]]) + args[1..] == acc + args
    ensures |args| == 1 ==> acc + [args[0]] == acc + args
  {
    assert [args[0]] + args[1..] == args;
  }

  lemma ArgsRoundTrip(args: seq<string>)
    requires forall i | 0 <= i < |args| :: Readable(args[i])
    ensures Words(JoinArgs(args)) == Some(args)
  {
    ArgsReadFrom(args, []);
    assert [] + args == args;
  }

  // ---- the command line of a job ----

  // The command, and behind it each argument with a blank in front.
  function CommandLine(command: string, args: seq<string>): string {
    if args == [] then command
    else CommandLine(command, args[..|args| - 1]) + (" " + QuotedIf(args[|args| - 1]))
  }

  method BuildCommand(command: string, args: seq<string>) returns (cmd: string)
    ensures cmd == CommandLine(command, args)
  {
    cmd := command;
    assert args[..0] == [];
    for a := 0 to |args|
      invariant cmd == CommandLine(command, args[..a])
    {
      assert args[..a + 1][..a] == args[..a];
      var arg := Qqif(args[a]);
      cmd := cmd + (" " + arg);
    }
    assert args[..|args|] == args;
  }

  // A text that reads as words goes on as it was if a blank follows it.
  lemma {:induction false} LexGoesOn(s: string, rest: string, mode: Mode, cur: string, acc: seq<string>)
    requires Lex(s, mode, cur, acc).Some?
    ensures Lex(s + (" " + rest), mode, cur, acc) == Lex(rest, Between, "", Lex(s, mode, cur, acc).value)
    decreases |s|
  {
    var t := s + (" " + rest);
    if s == "" {
      assert t == " " + rest && t[1..] == rest;
    } else {
      assert t[0] == s[0] && t[1..] == s[1..] + (" " + rest);
      if |s| >= 2 {
        assert t[1] == s[1] && t[2..] == s[2..] + (" " + rest);
      }
      var c := s[0];
      match mode
      case InSingle =>
        LexGoesOn(s[1..], rest, if c == '\'' then InWord else InSingle, if c == '\'' then cur else cur + [c], acc);
      case InDouble =>
        if c == '"' { LexGoesOn(s[1..], rest, InWord, cur, acc); }
        else if c == '\\' && |s| >= 2 && Escapable(s[1]) { LexGoesOn(s[2..], rest, InDouble, cur + [s[1]], acc); }
        else if c == '\\' && |s| >= 2 && s[1] == '\n' { LexGoesOn(s[2..], rest, InDouble, cur, acc); }
        else { LexGoesOn(s[1..], rest, InDouble, cur + [c], acc); }
      case _ =>
        var word := if mode.InWord? then cur else "";
        if Blank(c) { LexGoesOn(s[1..], rest, Between, "", if mode.InWord? then acc + [cur] else acc); }
        else if c == '\'' { LexGoesOn(s[1..], rest, InSingle, word, acc); }
        else if c == '"' { LexGoesOn(s[1..], rest, InDouble, word, acc); }
        else if c == '\\' {
          if s[1] == '\n' {
            LexGoesOn(s[2..], rest, mode, cur, acc);
          } else {
            LexGoesOn(s[2..], rest, InWord, word + [s[1]], acc);
          }
        } else { LexGoesOn(s[1..], rest, InWord, word + [c], acc); }
    }
  }

  // A command that reads as words, with readable arguments behind it, reads as its words followed by the arguments.
  lemma {:induction false} CommandRoundTrip(command: string, args: seq<string>)
    requires Words(command).Some? && forall i | 0 <= i < |args| :: Readable(args[i])
    ensures Words(CommandLine(command, args)) == Some(Words(command).value + args)
  {
    if args == [] {
      assert Words(command).value + args == Words(command).value;
    } else {
      hide Words, Readable, Lex, QuotedIf;
      var n := |args| - 1;
      CommandRoundTrip(command, args[..n]);
      CommandMore(command, args);
      hide *;
      WordsGoOn(CommandLine(command, args[..n]), QuotedIf(args[n]));
      LastArg(args[n], Words(command).value + args[..n]);
      OneMore(Words(command).value, args);
    }
  }

  lemma CommandMore(command: string, args: seq<string>)
    requires args != []
    ensures var n := |args| - 1;
            CommandLine(command, args) == CommandLine(command, args[..n]) + (" " + QuotedIf(args[n]))
  {
    hide QuotedIf;
  }

  lemma OneMore(words: seq<string>, args: seq<string>)
    requires args != []
    ensures var n := |args| - 1; (words + args[..n]) + [args[n]] == words + args
  {
    assert args == args[..|args| - 1] + [args[|args| - 1]];
  }

  lemma WordsGoOn(s: string, rest: string)
    requires Words(s).Some?
    ensures Words(s + (" " + rest)) == Lex(rest, Between, "", Words(s).value)
  {
    LexGoesOn(s, rest, Between, "", []);
  }

  // ---- when qqif is not enough ----

  function Total(ws: seq<string>): nat { if ws == [] then 0 else Total(ws[..|ws| - 1]) + |ws[|ws| - 1]| }

  lemma TotalPush(ws: seq<string>, w: string)
    ensures Total(ws + [w]) == Total(ws) + |w|
  {
    assert (ws + [w])[..|ws|] == ws;
  }

  // Reading never makes text longer, and a quotation that is being closed makes it shorter.
  lemma {:induction false} LexShrinks(s: string, mode: Mode, cur: string, acc: seq<string>)
    requires Lex(s, mode, cur, acc).Some?
    ensures var slack := if mode.InSingle? || mode.InDouble? then 1 else 0;
            Total(Lex(s, mode, cur, acc).value) + slack <= Total(acc) + (if mode.Between? then 0 else |cur|) + |s|
    decreases |s|
  {
    if s == "" {
      TotalPush(acc, cur);
    } else {
      var c := s[0];
      match mode
      case InSingle =>
        if c == '\'' { LexShrinks(s[1..], InWord, cur, acc); } else { LexShrinks(s[1..], InSingle, cur + [c], acc); }
      case InDouble =>
        if c == '"' { LexShrinks(s[1..], InWord, cur, acc); }
        else if c == '\\' && |s| >= 2 && Escapable(s[1]) { LexShrinks(s[2..], InDouble, cur + [s[1]], acc); }
        else if c == '\\' && |s| >= 2 && s[1] == '\n' { LexShrinks(s[2..], InDouble, cur, acc); }
        else { LexShrinks(s[1..], InDouble, cur + [c], acc); }
      case _ =>
        var word := if mode.InWord? then cur else "";
        if Blank(c) {
          TotalPush(acc, cur);
          LexShrinks(s[1..], Between, "", if mode.InWord? then acc + [cur] else acc);
        } else if c == '\'' { LexShrinks(s[1..], InSingle, word, acc); }
        else if c == '"' { LexShrinks(s[1..], InDouble, word, acc); }
        else if c == '\\' {
          if s[1] == '\n' {
            LexShrinks(s[2..], mode, cur, acc);
          } else {
            LexShrinks(s[2..], InWord, word + [s[1]], acc);
          }
        } else { LexShrinks(s[1..], InWord, word + [c], acc); }
    }
  }

  // Unquoted text with a double quote or a dollar in it is never read as itself.
  lemma {:induction false} UnquotedLoses(s: string, mode: Mode, cur: string)
    requires mode.Between? || mode.InWord?
    requires !NeedsQuote(s) && ('"' in s || '$' in s)
    ensures Lex(s, mode, cur, []) != Some([(if mode.InWord? then cur else "") + s])
    decreases |s|
  {
    var word := if mode.InWord? then cur else "";
    var c := s[0];
    forall i | 0 <= i < |s| ensures s[i] !in TRIGGERS { }
    if c == '"' {
      if Lex(s[1..], InDouble, word, []).Some? {
        LexShrinks(s[1..], InDouble, word, []);
        assert Total([word + s]) == |word| + |s| by { assert [word + s][..0] == []; }
      }
    } else if c != '$' {
      OrdinaryIsInert(c);
      assert !NeedsQuote(s[1..]) by {
        forall i | 0 <= i < |s[1..]|
          ensures s[1..][i] !in TRIGGERS
        {
          assert s[1..][i] == s[i + 1];
        }
      }
      assert s == [c] + s[1..];
      UnquotedLoses(s[1..], InWord, word + [c]);
      assert word + [c] + s[1..] == word + s;
    }
  }

  // qqif gives one word, the string itself, exactly when it quotes or the string is plain: it leaves the empty
  // string, a leading # or ~, and any " or $ to the shell.
  lemma QqifIsOneWordIff(s: string)
    ensures Words(QuotedIf(s)) == Some([s]) <==> Readable(s)
  {
    if NeedsQuote(s) {
      QqIsOneWord(s);
    } else if Plain(s) {
      ArgReads(s, "", []);
      assert QuotedIf(s) + "" == QuotedIf(s) && [] + [s] == [s];
    } else if '"' in s || '$' in s {
      UnquotedLoses(s, Between, "");
      assert "" + s == s;
    }
  }
}

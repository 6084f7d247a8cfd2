/** A printed command line is parsed back into the same words and files. */
module ShellRoundTrip {
  import opened CString
  import opened Shell

  /** A word or a file name. */
  predicate Word(w: string) { w != "" && forall i :: 0 <= i < |w| ==> w[i] !in {' ', '<', '>', '|', NUL} }

  /** A command with its words and its files; "" when there is no such file. */
  datatype Command = Command(words: seq<string>, input: string, output: string)

  ghost predicate Clean(c: Command) {
    && (forall i :: 0 <= i < |c.words| ==> Word(c.words[i]))
    && (c.input == "" || Word(c.input)) && (c.output == "" || Word(c.output))
  }

  /** How a command is printed: the number of spaces before each word and behind the last one, the
      spaces around each file name, and which redirection comes first. */
  datatype Layout = Layout(gaps: seq<nat>, inGaps: (nat, nat), outGaps: (nat, nat), outFirst: bool)

  /** Two words are kept apart by at least one space; elsewhere there may be none. */
  ghost predicate Fits(words: seq<string>, gaps: seq<nat>) {
    |gaps| == |words| + 1 && forall i :: 0 < i < |words| ==> gaps[i] > 0
  }

  function Spaces(n: nat): (r: string)
    ensures |r| == n && forall i :: 0 <= i < n ==> r[i] == ' '
  {
    seq(n, _ => ' ')
  }

  function PrintWords(words: seq<string>, gaps: seq<nat>): string
    requires |gaps| == |words| + 1
  {
    if words == [] then Spaces(gaps[0]) else Spaces(gaps[0]) + words[0] + PrintWords(words[1..], gaps[1..])
  }

  function Padded(f: string, gaps: (nat, nat)): string { Spaces(gaps.0) + f + Spaces(gaps.1) }

  function PrintFile(d: char, f: string, gaps: (nat, nat)): string {
    if f == "" then "" else [d] + Padded(f, gaps)
  }

  function Print(c: Command, l: Layout): string
    requires |l.gaps| == |c.words| + 1
  {
    PrintWords(c.words, l.gaps) +
    if l.outFirst then PrintFile('>', c.output, l.outGaps) + PrintFile('<', c.input, l.inGaps)
    else PrintFile('<', c.input, l.inGaps) + PrintFile('>', c.output, l.outGaps)
  }

  // ------------------------------------------------------------------ words

  /** A leading space is skipped. */
  lemma WordsSpace(s: string)
    requires s != "" && s[0] == ' '
    ensures Words(s) == Words(s[1..])
  {
    UpToIs(s, ' ', 0);
  }

  lemma {:induction false} WordsSpaces(n: nat, s: string)
    ensures Words(Spaces(n) + s) == Words(s)
  {
    if n == 0 {
      assert Spaces(0) + s == s;
    } else {
      assert (Spaces(n) + s)[1..] == Spaces(n - 1) + s;
      WordsSpace(Spaces(n) + s);
      WordsSpaces(n - 1, s);
    }
  }

  lemma WordsFront(w: string, s: string)
    requires Word(w) && (s == "" || s[0] == ' ')
    ensures Words(w + s) == [w] + Words(s)
  {
    assert (w + s)[..|w|] == w;
    UpToIs(w + s, ' ', |w|);
    if s == "" {
      assert w + s == w && Words("") == [];
    } else {
      assert (w + s)[|w| + 1..] == s[1..];
      WordsSpace(s);
    }
  }

  lemma {:induction false} WordsPrinted(words: seq<string>, gaps: seq<nat>)
    requires (forall i :: 0 <= i < |words| ==> Word(words[i])) && Fits(words, gaps)
    ensures Words(PrintWords(words, gaps)) == words
  {
    if words == [] {
      assert Spaces(gaps[0]) + "" == Spaces(gaps[0]);
      WordsSpaces(gaps[0], "");
      assert Words("") == [];
    } else {
      var rest := PrintWords(words[1..], gaps[1..]);
      WordsPrinted(words[1..], gaps[1..]);
      assert Spaces(gaps[0]) + words[0] + rest == Spaces(gaps[0]) + (words[0] + rest);
      WordsSpaces(gaps[0], words[0] + rest);
      WordsFront(words[0], rest);
    }
    hide Words;
  }

  // ------------------------------------------------------------------ delimiters

  lemma {:induction false} PrintedWordsLack(words: seq<string>, gaps: seq<nat>, d: char)
    requires (forall i :: 0 <= i < |words| ==> Word(words[i])) && |gaps| == |words| + 1 && d in {'<', '>', '|', NUL}
    ensures d !in PrintWords(words, gaps)
    ensures words != [] || gaps[0] > 0 ==> PrintWords(words, gaps) != ""
  {
    if words != [] {
      PrintedWordsLack(words[1..], gaps[1..], d);
    }
  }

  lemma PaddedLacks(f: string, gaps: (nat, nat), d: char)
    requires Word(f) && d in {'<', '>', '|', NUL}
    ensures d !in Padded(f, gaps) && Padded(f, gaps) != ""
  {
  }

  lemma TokWhole(a: string, d: char)
    requires a != "" && d !in a
    ensures Tok(a, d) == Piece(0, a, "")
  {
    assert a[..|a|] == a && a[0..] == a;
    UpToIs(a, d, |a|);
  }

  lemma TokFront(a: string, d: char, b: string)
    requires a != "" && d !in a
    ensures Tok(a + [d] + b, d) == Piece(0, a, b)
  {
    var s := a + [d] + b;
    assert s[0] == a[0] && s[..|a|] == a && s[0..] == s && s[|a| + 1..] == b && s[|a|] == d;
    UpToIs(s, d, |a|);
  }

  lemma TokPair(a: string, d: char, b: string)
    requires a != "" && d !in a && b != "" && d !in b
    ensures FirstTok(a + [d] + b, d) == a && SecondTok(a + [d] + b, d) == b
  {
    TokFront(a, d, b);
    TokWhole(b, d);
  }

  lemma TokPadded(f: string, gaps: (nat, nat))
    requires Word(f)
    ensures FirstTok(Padded(f, gaps), ' ') == f
  {
    var s := Padded(f, gaps);
    var k := gaps.0;
    assert s[k..] == f + Spaces(gaps.1) && s[k] == f[0];
    assert s[k..][..|f|] == f;
    UpToIs(s[k..], ' ', |f|);
  }

  lemma LastIs(s: string, c: char, k: nat)
    requires k < |s| && s[k] == c && forall i :: k < i < |s| ==> s[i] != c
    ensures LastIndex(s, c) == k
  {
    hide LastIndex;
  }

  lemma LastOf(a: string, c: char, b: string)
    requires c !in b
    ensures LastIndex(a + [c] + b, c) == |a|
  {
    hide LastIndex;
    var s := a + [c] + b;
    assert s == (a + [c]) + b;
    LastIs(s, c, |a|);
  }

  lemma LastOfNone(s: string, c: char)
    requires c !in s
    ensures LastIndex(s, c) == -1
  {
  }

  // ------------------------------------------------------------------ the round trip

  /** Both redirections, d first: the parser cuts at d and then at e. */
  lemma BothCut(w: string, d: char, f: string, e: char, g: string)
    requires d != e && w != "" && f != "" && g != "" && d !in w && d !in f && d !in g && e !in f && e !in g
    ensures var s := w + ([d] + f + ([e] + g));
      && FirstTok(s, d) == w && FirstTok(SecondTok(s, d), e) == f && SecondTok(SecondTok(s, d), e) == g
      && 0 <= LastIndex(s, d) < LastIndex(s, e)
  {
    hide Tok, LastIndex, FirstTok, SecondTok;
    var s := w + ([d] + f + ([e] + g));
    var rest := f + [e] + g;
    Regroup(w, d, f, e, g);
    assert rest != "" && d !in rest by { BothLack(f, e, g, d); }
    TokPair(w, d, rest);
    TokPair(f, e, g);
    LastOf(w, d, rest);
    LastOf(w + [d] + f, e, g);
  }

  lemma Regroup(w: string, d: char, f: string, e: char, g: string)
    ensures w + ([d] + f + ([e] + g)) == w + [d] + (f + [e] + g) == (w + [d] + f) + [e] + g
  {
  }

  lemma BothLack(f: string, e: char, g: string, d: char)
    requires d != e && d !in f && d !in g
    ensures d !in f + [e] + g
  {
  }

  lemma OneCut(w: string, d: char, f: string, e: char)
    requires d != e && w != "" && f != "" && d !in w && d !in f && e !in w && e !in f
    ensures var s := w + ([d] + f);
            FirstTok(s, d) == w && SecondTok(s, d) == f && LastIndex(s, d) >= 0 && LastIndex(s, e) == -1
  {
    hide Tok, LastIndex, FirstTok, SecondTok;
    assert w + ([d] + f) == w + [d] + f;
    TokPair(w, d, f);
    LastOf(w, d, f);
    assert e !in w + [d] + f by { BothLack(w, d, f, e); }
    LastOfNone(w + [d] + f, e);
  }

  lemma RedirectionsPrinted(c: Command, l: Layout)
    requires Clean(c) && Fits(c.words, l.gaps) && Readable(c, l)
    ensures Redirections(Print(c, l)) == Redirected(PrintWords(c.words, l.gaps),
              if c.input == "" then "" else Padded(c.input, l.inGaps),
              if c.output == "" then "" else Padded(c.output, l.outGaps))
  {
    hide LastIndex, FirstTok, SecondTok, PrintWords, Padded, Word;
    var w := PrintWords(c.words, l.gaps);
    PrintedWordsLack(c.words, l.gaps, '<');
    PrintedWordsLack(c.words, l.gaps, '>');
    var f, g := Padded(c.input, l.inGaps), Padded(c.output, l.outGaps);
    if c.input != "" {
      PaddedLacks(c.input, l.inGaps, '<');
      PaddedLacks(c.input, l.inGaps, '>');
    }
    if c.output != "" {
      PaddedLacks(c.output, l.outGaps, '<');
      PaddedLacks(c.output, l.outGaps, '>');
    }
    if c.input == "" && c.output == "" {
      assert Print(c, l) == w;
      LastOfNone(w, '<');
      LastOfNone(w, '>');
    } else if c.output == "" {
      assert Print(c, l) == w + (['<'] + f);
      OneCut(w, '<', f, '>');
    } else if c.input == "" {
      assert Print(c, l) == w + (['>'] + g);
      OneCut(w, '>', g, '<');
    } else if l.outFirst {
      BothCut(w, '>', g, '<', f);
    } else {
      BothCut(w, '<', f, '>', g);
    }
  }

  /** There is something in front of the first redirection, if only a space. */
  predicate Readable(c: Command, l: Layout)
    requires |l.gaps| == |c.words| + 1
  {
    c.words != [] || l.gaps[0] > 0 || (c.input == "" && c.output == "")
  }

  function AsParsed(c: Command): Parsed { Parsed(c.words, c.input, c.output) }

  lemma ParsePrinted(c: Command, l: Layout)
    requires Clean(c) && Fits(c.words, l.gaps) && Readable(c, l)
    ensures Parse(Print(c, l)) == AsParsed(c)
  {
    hide FirstTok, Words, Redirections, Print, Word, Padded;
    RedirectionsPrinted(c, l);
    WordsPrinted(c.words, l.gaps);
    NoName();
    if c.input != "" {
      TokPadded(c.input, l.inGaps);
    }
    if c.output != "" {
      TokPadded(c.output, l.outGaps);
    }
  }

  // ------------------------------------------------------------------ where it fails

  /** strtok skips a redirection sign at the very front: all that follows is taken for the command. */
  lemma FrontSkipped(d: char, rest: string)
    requires d in {'<', '>'} && rest != "" && d !in rest
    ensures Redirections([d] + rest).command == rest
  {
    var s := [d] + rest;
    assert s[1..] == rest && rest[0] != d;
    assert Skip(s, d) == 1;
    assert FirstTok(s, d) == rest by {
      UpToIs(rest, d, |rest|);
      assert rest[..|rest|] == rest;
    }
    assert LastIndex(s, d) == 0 by { LastIs(s, d, 0); }
    hide LastIndex, FirstTok, SecondTok;
  }

  lemma {:induction false} SomeWord(s: string, k: nat)
    requires k < |s| && s[k] != ' '
    ensures Words(s) != []
    decreases k
  {
    hide Words, UpTo;
    WordsStep(s);
    if UpTo(s, ' ') == "" {
      SomeWord(s[1..], k - 1);
    }
  }

  /** A printed line that begins with a redirection yields a command, although there is none. */
  lemma FrontMisread(d: char, f: string, gaps: (nat, nat), more: string)
    requires d in {'<', '>'} && Word(f) && d !in more
    ensures var p := Parse([d] + Padded(f, gaps) + more); p.Parsed? ==> p.words != []
  {
    var rest := Padded(f, gaps) + more;
    assert [d] + Padded(f, gaps) + more == [d] + rest;
    PaddedLacks(f, gaps, d);
    assert rest[gaps.0] == f[0];
    FrontSkipped(d, rest);
    SomeWord(rest, gaps.0);
    hide Words, Redirections, FirstTok;
  }

  lemma NotReadable(c: Command, l: Layout)
    requires Clean(c) && Fits(c.words, l.gaps) && !Readable(c, l)
    ensures Parse(Print(c, l)) != AsParsed(c)
  {
    hide Parse, Padded, Word;
    assert PrintWords(c.words, l.gaps) == "";
    var f, g := PrintFile('<', c.input, l.inGaps), PrintFile('>', c.output, l.outGaps);
    if c.input != "" {
      PaddedLacks(c.input, l.inGaps, '>');
    }
    if c.output != "" {
      PaddedLacks(c.output, l.outGaps, '<');
    }
    if c.output != "" && (l.outFirst || c.input == "") {
      assert Print(c, l) == ['>'] + Padded(c.output, l.outGaps) + f;
      FrontMisread('>', c.output, l.outGaps, f);
    } else {
      assert Print(c, l) == ['<'] + Padded(c.input, l.inGaps) + g;
      FrontMisread('<', c.input, l.inGaps, g);
    }
  }

  /** Parsing what was printed gives the command back if and only if there are words, or a space in
      front, or no files. */
  lemma ParsePrintedIff(c: Command, l: Layout)
    requires Clean(c) && Fits(c.words, l.gaps)
    ensures Parse(Print(c, l)) == AsParsed(c) <==> c.words != [] || l.gaps[0] > 0 || (c.input == "" && c.output == "")
  {
    if Readable(c, l) {
      ParsePrinted(c, l);
    } else {
      NotReadable(c, l);
    }
  }

  /** The shortest such line: the file of a redirection at the very front becomes the command. */
  lemma LoneFileMisread(f: string)
    requires Word(f)
    ensures Parse(['<'] + f) == Parsed([f], "", "")
  {
    hide Words, LastIndex, UpTo;
    var s := ['<'] + f;
    assert Skip(s, '<') == 1 && s[1..] == f;
    assert UpTo(f, '<') == f by {
      UpToIs(f, '<', |f|);
      assert f[..|f|] == f;
    }
    assert FirstTok(s, '<') == f && SecondTok(s, '<') == "" by {
      assert Tok(s, '<') == Piece(1, f, "") && Tok("", '<').token == "";
    }
    hide Tok;
    LastIs(s, '<', 0);
    LastOfNone(s, '>');
    assert Words(f) == [f] by {
      WordsFront(f, "");
      WordsStep("");
      assert f + "" == f;
    }
    NoName();
  }

  // ------------------------------------------------------------------ missing names

  predicate Blank(s: string) { forall i :: 0 <= i < |s| ==> s[i] == ' ' }

  /** strtok finds nothing if and only if there is nothing but the delimiter. */
  lemma NoTokIff(s: string, d: char)
    ensures FirstTok(s, d) == "" <==> forall i :: 0 <= i < |s| ==> s[i] == d
  {
    var k := Skip(s, d);
    assert k < |s| ==> s[k..][0] == s[k];
  }

  /** A text has no first word if and only if it is blank. */
  lemma FirstWordIff(s: string)
    ensures FirstTok(s, ' ') == "" <==> Blank(s)
  {
    NoTokIff(s, ' ');
    hide FirstTok;
  }

  /** The program is undefined exactly when a redirection text is there but blank. */
  lemma UndefinedIff(s: string)
    ensures var r := Redirections(s);
            Parse(s) == Undefined <==> (r.input != "" && Blank(r.input)) || (r.output != "" && Blank(r.output))
  {
    var r := Redirections(s);
    FirstWordIff(r.input);
    FirstWordIff(r.output);
    hide FirstTok, Redirections, Blank, Words;
  }

  lemma SpacesBlank(n: nat)
    ensures Blank(Spaces(n)) && (Spaces(n) == "" <==> n == 0)
  {
  }

  lemma PaddedNotBlank(f: string, gaps: (nat, nat))
    requires Word(f)
    ensures !Blank(Padded(f, gaps))
  {
    assert Padded(f, gaps)[gaps.0] == f[0];
  }

  /** What the first sign cuts off, and what is left, when nothing may follow the sign. */
  lemma TokSign(w: string, d: char, rest: string)
    requires w != "" && d !in w && d !in rest
    ensures FirstTok(w + [d] + rest, d) == w && SecondTok(w + [d] + rest, d) == rest
  {
    TokFront(w, d, rest);
    if rest != "" {
      TokWhole(rest, d);
    } else {
      assert Tok("", d).token == "";
    }
  }

  /** Words, and behind them a sign with n spaces instead of a file name: undefined if n > 0; for n = 0
      strtok finds no text at all, and the sign is ignored. */
  lemma LoneSign(words: seq<string>, gaps: seq<nat>, d: char, n: nat)
    requires (forall i :: 0 <= i < |words| ==> Word(words[i])) && Fits(words, gaps) && d in {'<', '>'}
    requires words != [] || gaps[0] > 0
    ensures var p := Parse(PrintWords(words, gaps) + [d] + Spaces(n));
            p == if n > 0 then Undefined else Parsed(words, "", "")
  {
    hide Words, PrintWords, LastIndex, FirstTok, SecondTok, Blank;
    var w := PrintWords(words, gaps);
    var e := if d == '<' then '>' else '<';
    PrintedWordsLack(words, gaps, d);
    PrintedWordsLack(words, gaps, e);
    var s := w + [d] + Spaces(n);
    TokSign(w, d, Spaces(n));
    LastOf(w, d, Spaces(n));
    assert e !in s by { BothLack(w, d, Spaces(n), e); }
    LastOfNone(s, e);
    SpacesBlank(n);
    UndefinedIff(s);
    SpacesBlank(0);
    WordsPrinted(words, gaps);
    NoName();
  }

  /** Two redirections, the first without a name: undefined if there is a space between the signs;
      otherwise the name behind the second sign is taken for the first. */
  lemma FirstNameMissing(words: seq<string>, gaps: seq<nat>, d: char, n: nat, f: string, around: (nat, nat))
    requires (forall i :: 0 <= i < |words| ==> Word(words[i])) && Fits(words, gaps) && d in {'<', '>'} && Word(f)
    requires words != [] || gaps[0] > 0
    ensures var e := if d == '<' then '>' else '<';
            var p := Parse(PrintWords(words, gaps) + [d] + (Spaces(n) + [e] + Padded(f, around)));
            p == if n > 0 then Undefined else if d == '<' then Parsed(words, f, "") else Parsed(words, "", f)
  {
    hide Words, PrintWords, LastIndex, FirstTok, SecondTok, Blank, Padded;
    var w, g := PrintWords(words, gaps), Padded(f, around);
    var e := if d == '<' then '>' else '<';
    var temp := Spaces(n) + [e] + g;
    var s := w + [d] + temp;
    PrintedWordsLack(words, gaps, d);
    PaddedLacks(f, around, d);
    PaddedLacks(f, around, e);
    assert d !in temp by { BothLack(Spaces(n), e, g, d); }
    TokSign(w, d, temp);
    SignsInOrder(w, d, Spaces(n), e, g);
    if n > 0 {
      TokSign(Spaces(n), e, g);
    } else {
      assert temp == [e] + g;
      TokBehindSign(e, g);
    }
    SpacesBlank(n);
    PaddedNotBlank(f, around);
    UndefinedIff(s);
    WordsPrinted(words, gaps);
    TokPadded(f, around);
    NoName();
  }

  lemma SignsInOrder(w: string, d: char, f: string, e: char, g: string)
    requires d != e && d !in f && d !in g && e !in g
    ensures 0 <= LastIndex(w + [d] + (f + [e] + g), d) < LastIndex(w + [d] + (f + [e] + g), e)
  {
    hide LastIndex;
    var s := w + [d] + (f + [e] + g);
    assert d !in f + [e] + g by { BothLack(f, e, g, d); }
    LastOf(w, d, f + [e] + g);
    assert s == (w + [d] + f) + [e] + g;
    LastOf(w + [d] + f, e, g);
  }

  /** strtok skips a sign at the front. */
  lemma TokBehindSign(e: char, g: string)
    requires g != "" && e !in g
    ensures FirstTok([e] + g, e) == g && SecondTok([e] + g, e) == ""
  {
    var s := [e] + g;
    assert s[1..] == g && g[0] != e && Skip(s, e) == 1;
    UpToIs(g, e, |g|);
    assert g[..|g|] == g && Tok(s, e) == Piece(1, g, "") && Tok("", e).token == "";
  }

  /** Two redirections, the second without a name: undefined if a space follows it, otherwise the
      second sign is ignored. */
  lemma SecondNameMissing(words: seq<string>, gaps: seq<nat>, d: char, f: string, around: (nat, nat), n: nat)
    requires (forall i :: 0 <= i < |words| ==> Word(words[i])) && Fits(words, gaps) && d in {'<', '>'} && Word(f)
    requires words != [] || gaps[0] > 0
    ensures var e := if d == '<' then '>' else '<';
            var p := Parse(PrintWords(words, gaps) + [d] + (Padded(f, around) + [e] + Spaces(n)));
            p == if n > 0 then Undefined else if d == '<' then Parsed(words, f, "") else Parsed(words, "", f)
  {
    hide Words, PrintWords, LastIndex, FirstTok, SecondTok, Blank, Padded;
    var w, g := PrintWords(words, gaps), Padded(f, around);
    var e := if d == '<' then '>' else '<';
    var temp := g + [e] + Spaces(n);
    var s := w + [d] + temp;
    PrintedWordsLack(words, gaps, d);
    PaddedLacks(f, around, d);
    PaddedLacks(f, around, e);
    assert d !in temp by { BothLack(g, e, Spaces(n), d); }
    TokSign(w, d, temp);
    SignsInOrder(w, d, g, e, Spaces(n));
    TokSign(g, e, Spaces(n));
    SpacesBlank(n);
    PaddedNotBlank(f, around);
    UndefinedIff(s);
    WordsPrinted(words, gaps);
    TokPadded(f, around);
    NoName();
  }

  // ------------------------------------------------------------------ more signs than the parser knows

  /** A sign used twice: the last sign of each kind decides the branch, and the first of the two equal
      signs stays in the command. */
  lemma SignTwice(w: string, f: string, g: string, h: string, d: char, e: char)
    requires d in {'<', '>'} && e in {'<', '>'} && d != e && g != "" && h != ""
    requires forall t :: t in {w, f, g, h} ==> '<' !in t && '>' !in t
    ensures var r := Redirections(w + [e] + f + ([d] + g + ([e] + h)));
            r == if d == '<' then Redirected(w + [e] + f, g, h) else Redirected(w + [e] + f, h, g)
  {
    hide LastIndex, FirstTok, SecondTok;
    assert d !in w + [e] + f by { BothLack(w, e, f, d); }
    BothCut(w + [e] + f, d, g, e, h);
  }

  /** A line is no command if and only if it holds nothing but pipe signs. */
  lemma NoCommandIff(s: string)
    ensures ParseLine(s) == NoCommand <==> forall i :: 0 <= i < |s| ==> s[i] == '|'
  {
    NoTokIff(s, '|');
    hide FirstTok, SecondTok, Parse;
  }

  /** What follows a second pipe sign is ignored. */
  lemma ThirdPartIgnored(a: string, b: string, rest: string)
    requires a != "" && b != "" && '|' !in a && '|' !in b
    ensures ParseLine(a + ['|'] + (b + ['|'] + rest)) == Piped(Parse(a), Parse(b))
  {
    TokFront(a, '|', b + ['|'] + rest);
    TokFront(b, '|', rest);
    hide Tok, Parse;
  }

  // ------------------------------------------------------------------ whole lines

  lemma PrintedLacks(c: Command, l: Layout, d: char)
    requires Clean(c) && Fits(c.words, l.gaps) && d in {'|', NUL}
    ensures d !in Print(c, l)
  {
    PrintedWordsLack(c.words, l.gaps, d);
    if c.input != "" {
      PaddedLacks(c.input, l.inGaps, d);
    }
    if c.output != "" {
      PaddedLacks(c.output, l.outGaps, d);
    }
    hide PrintWords, Padded, Word;
  }

  /** A command that can be printed and read back, and whose print is not empty. */
  ghost predicate Printable(c: Command, l: Layout) {
    Clean(c) && Fits(c.words, l.gaps) && Readable(c, l) && Print(c, l) != ""
  }

  /** A line with one command, and a line with two commands around a pipe. */
  lemma LinePrinted(c: Command, l: Layout, d: Command, m: Layout)
    requires Printable(c, l) && Printable(d, m)
    ensures ParseLine(Print(c, l)) == Single(AsParsed(c)) && NUL !in Print(c, l)
    ensures ParseLine(Print(c, l) + ['|'] + Print(d, m)) == Piped(AsParsed(c), AsParsed(d))
    ensures NUL !in Print(c, l) + ['|'] + Print(d, m)
  {
    hide Parse, Tok, Print;
    ParsePrinted(c, l);
    ParsePrinted(d, m);
    PrintedLacks(c, l, '|');
    PrintedLacks(d, m, '|');
    PrintedLacks(c, l, NUL);
    PrintedLacks(d, m, NUL);
    TokPair(Print(c, l), '|', Print(d, m));
    TokWhole(Print(c, l), '|');
    assert Tok("", '|').token == "";
  }

  // ------------------------------------------------------------------ in place

  /** The token array points to all the words and ends with NULL, and the file array to the files. */
  ghost predicate Reads(b: seq<char>, tokens: seq<int>, file: seq<int>, c: Command) {
    && |tokens| == 200 && |file| == 2 && |c.words| <= 199
    && (forall j :: 0 <= j < |c.words| ==> StrAt(b, tokens[j], c.words[j])) && tokens[|c.words|] == NULL
    && (if c.input == "" then file[0] == NULL else StrAt(b, file[0], c.input))
    && (if c.output == "" then file[1] == NULL else StrAt(b, file[1], c.output))
  }

  lemma HoldsReads(b: seq<char>, tokens: seq<int>, file: seq<int>, c: Command)
    requires Holds(b, tokens, file, AsParsed(c), 0, |b|) && |c.words| <= 199
    ensures Reads(b, tokens, file, c)
  {
    hide StrAt;
    var n := |c.words|;
    forall j | 0 <= j < n ensures StrAt(b, tokens[j], c.words[j]) {
      assert StrAt(b, tokens[..n][j], c.words[..n][j]);
    }
  }

  /** A command of at most 199 words, printed into a buffer and parsed there, is found again. */
  method ParseCommandPrinted(c: Command, l: Layout) returns (t: Text, tokens: array<int>, file: array<int>)
    requires Printable(c, l) && |c.words| <= 199
    ensures Reads(t.chars[..], tokens[..], file[..], c)
  {
    hide StrAt, ParseLine, Print, Clean, Readable, Holds, Reads;
    LinePrinted(c, l, c, l);
    t := new Text(Print(c, l));
    tokens := new int[MAX_TOKENS];
    var other := new int[MAX_TOKENS];
    var kind, file1, _ := ParseCommand(t, 0, tokens, other, Print(c, l));
    file := file1;
    HoldsReads(t.chars[..], tokens[..], file[..], c);
  }

  /** So are two commands around a pipe, although strtok has only one saved pointer. */
  method ParsePipePrinted(c: Command, l: Layout, d: Command, m: Layout)
      returns (t: Text, tokens1: array<int>, file1: array<int>, tokens2: array<int>, file2: array<int>)
    requires Printable(c, l) && |c.words| <= 199 && Printable(d, m) && |d.words| <= 199
    ensures Reads(t.chars[..], tokens1[..], file1[..], c) && Reads(t.chars[..], tokens2[..], file2[..], d)
  {
    hide StrAt, ParseLine, Print, Clean, Readable, Holds, Reads;
    LinePrinted(c, l, d, m);
    var line := Print(c, l) + ['|'] + Print(d, m);
    t := new Text(line);
    tokens1 := new int[MAX_TOKENS];
    tokens2 := new int[MAX_TOKENS];
    var kind;
    kind, file1, file2 := ParseCommand(t, 0, tokens1, tokens2, line);
    HoldsReads(t.chars[..], tokens1[..], file1[..], c);
    HoldsReads(t.chars[..], tokens2[..], file2[..], d);
  }
}

/** myshell.c: a command line is cut in place into pipe parts, redirections and words. */
module Shell {
  import opened CString
  import opened Arithmetic

  const MAX_TOKENS := 200

  // ------------------------------------------------------------------ what the parser computes

  /** strtok(s, d) and strtok(NULL, d); "" stands for NULL. */
  function FirstTok(s: string, d: char): string { Tok(s, d).token }

  function SecondTok(s: string, d: char): string { Tok(Tok(s, d).rest, d).token }

  /** The command and the texts that follow < and >. */
  datatype Redirected = Redirected(command: string, input: string, output: string)

  function Redirections(s: string): Redirected {
    var i, o := LastIndex(s, '<'), LastIndex(s, '>');
    if o < 0 && i < 0 then Redirected(s, "", "")
    else if o < 0 then Redirected(FirstTok(s, '<'), SecondTok(s, '<'), "")
    else if i < 0 then Redirected(FirstTok(s, '>'), "", SecondTok(s, '>'))
    else if o < i then
      var temp := SecondTok(s, '>');
      Redirected(FirstTok(s, '>'), SecondTok(temp, '<'), FirstTok(temp, '<'))
    else
      var temp := SecondTok(s, '<');
      Redirected(FirstTok(s, '<'), FirstTok(temp, '>'), SecondTok(temp, '>'))
  }

  /** A command with its files, or strcmp applied to NULL because a file name is missing. */
  datatype Parsed = Parsed(words: seq<string>, input: string, output: string) | Undefined

  predicate NameMissing(f: string) { f != "" && FirstTok(f, ' ') == "" }

  function Parse(s: string): Parsed {
    var r := Redirections(s);
    if NameMissing(r.input) || NameMissing(r.output) then Undefined
    else Parsed(Words(r.command), FirstTok(r.input, ' '), FirstTok(r.output, ' '))
  }

  /** One command, two around a pipe, or a line of pipe signs only, whose tokens are never set. */
  datatype Line = Single(command: Parsed) | Piped(left: Parsed, right: Parsed) | NoCommand

  function ParseLine(s: string): Line {
    var first, second := FirstTok(s, '|'), SecondTok(s, '|');
    if first == "" then NoCommand
    else if second == "" then Single(Parse(first))
    else Piped(Parse(first), Parse(second))
  }

  // ------------------------------------------------------------------ pointers into the buffer

  /** p is the string f somewhere in [lo, hi], or NULL when there is none. */
  ghost predicate Points(b: seq<char>, p: int, f: string, lo: int, hi: int) {
    if f == "" then p == NULL else lo <= p && p + |f| <= hi && StrAt(b, p, f)
  }

  /** The pointers are the words, one after another in [lo, hi]. */
  ghost predicate Found(b: seq<char>, ps: seq<int>, words: seq<string>, lo: int, hi: int) {
    && |ps| == |words|
    && forall j :: 0 <= j < |ps| ==> lo <= ps[j] && ps[j] + |words[j]| <= hi && StrAt(b, ps[j], words[j])
  }

  /** A token array holds the words and, when there is room, NULL behind them. */
  ghost predicate Listed(b: seq<char>, tokens: seq<int>, words: seq<string>, lo: int, hi: int) {
    var n := Min(|words|, MAX_TOKENS);
    |tokens| == MAX_TOKENS && Found(b, tokens[..n], words[..n], lo, hi) && (n < MAX_TOKENS ==> tokens[n] == NULL)
  }

  lemma PointsKept(a: seq<char>, b: seq<char>, from: int, to: int, p: int, f: string, lo: int, hi: int)
    requires SameBut(a, b, from, to) && Points(a, p, f, lo, hi) && (f != "" ==> p + |f| < from || to <= p)
    ensures Points(b, p, f, lo, hi)
  {
    if f != "" {
      StrAtKept(a, b, from, to, p, f);
    }
  }

  lemma FoundKept(a: seq<char>, b: seq<char>, from: int, to: int, ps: seq<int>, words: seq<string>, lo: int, hi: int,
      top: int)
    requires SameBut(a, b, from, to) && Found(a, ps, words, lo, hi) && (hi < from || to <= lo) && hi <= top
    ensures Found(b, ps, words, lo, top)
  {
    forall j | 0 <= j < |ps| ensures StrAt(b, ps[j], words[j]) {
      StrAtKept(a, b, from, to, ps[j], words[j]);
    }
  }

  lemma ListedKept(a: seq<char>, b: seq<char>, from: int, to: int, tokens: seq<int>, words: seq<string>, lo: int,
      hi: int)
    requires SameBut(a, b, from, to) && Listed(a, tokens, words, lo, hi) && (hi < from || to <= lo)
    ensures Listed(b, tokens, words, lo, hi)
  {
    var n := Min(|words|, MAX_TOKENS);
    FoundKept(a, b, from, to, tokens[..n], words[..n], lo, hi, hi);
  }

  lemma SameButTwice(a: seq<char>, b: seq<char>, c: seq<char>, lo: int, hi: int, from: int, to: int)
    requires SameBut(a, b, lo, hi) && SameBut(b, c, from, to) && (from >= to || (lo <= from && to <= hi))
    ensures SameBut(a, c, lo, hi)
  {
  }

  // ------------------------------------------------------------------ the parser

  /** The loop of removeSpacesAndCreateTokens, begun at p on the string s in buffer a: `words` have been
      found, and `rest` is still to be cut. */
  ghost predicate Cutting(a: seq<char>, p: int, s: string, b: seq<char>, next: int, rest: string, ps: seq<int>,
      words: seq<string>) {
    && (next != NULL ==> p <= next && next + |rest| == p + |s| && StrAt(b, next, rest))
    && Words(s) == words + (if next == NULL then [] else Words(rest))
    && SameBut(a, b, p, p + |s|)
    && Found(b, ps, words, p, if next == NULL then p + |s| else next - 1)
  }

  lemma CuttingBegins(b: seq<char>, p: int, s: string)
    requires if p == NULL then s == "" else StrAt(b, p, s)
    ensures Cutting(b, p, s, b, p, s, [], [])
  {
    WordsStep("");
  }

  lemma CuttingText(a: seq<char>, p: int, s: string, b: seq<char>, next: int, rest: string, ps: seq<int>,
      words: seq<string>)
    requires Cutting(a, p, s, b, next, rest, ps, words) && next != NULL
    ensures StrAt(b, next, rest)
  {
    hide StrAt, SameBut, Found, Words;
  }

  function AfterField(rest: string, f: string): string { if |f| < |rest| then rest[|f| + 1..] else "" }

  lemma CuttingGoesOn(a: seq<char>, p: int, s: string, b: seq<char>, next: int, rest: string, ps: seq<int>,
      words: seq<string>,
                      c: seq<char>, after: int)
    requires Cutting(a, p, s, b, next, rest, ps, words) && next != NULL
    requires SameBut(b, c, next, next + |rest|) && StrAt(c, next, UpTo(rest, ' '))
    requires var f := UpTo(rest, ' ');
             if |f| == |rest| then after == NULL else after == next + |f| + 1 && StrAt(c, after, rest[|f| + 1..])
    ensures var f := UpTo(rest, ' ');
      && (c[next] == NUL <==> f == "")
      && if f == "" then Cutting(a, p, s, c, after, AfterField(rest, f), ps, words)
         else Cutting(a, p, s, c, after, AfterField(rest, f), ps + [next], words + [f])
  {
    hide StrAt, Words, UpTo, Found, SameBut;
    var f := UpTo(rest, ' ');
    FirstChar(c, next, f);
    var tail := if after == NULL then [] else Words(AfterField(rest, f));
    assert Words(s) == words + ((if f == "" then [] else [f]) + tail) by { WordsStep(rest); }
    assert words + ([] + tail) == words + tail && words + ([f] + tail) == words + [f] + tail;
    SameButTwice(a, b, c, p, p + |s|, next, next + |rest|);
    FoundMore(b, c, next, rest, ps, words, p, f, if after == NULL then p + |s| else after - 1);
  }

  lemma CuttingEnds(a: seq<char>, p: int, s: string, b: seq<char>, next: int, rest: string, tokens: seq<int>,
      words: seq<string>)
    requires |tokens| == MAX_TOKENS && |words| <= MAX_TOKENS
    requires Cutting(a, p, s, b, next, rest, tokens[..|words|], words)
    requires |words| < MAX_TOKENS ==> next == NULL && tokens[|words|] == NULL
    ensures SameBut(a, b, p, p + |s|) && Listed(b, tokens, Words(s), p, p + |s|)
  {
    var all := Words(s);
    assert |words| == Min(|all|, MAX_TOKENS) && all[..|words|] == words;
    hide Words, SameBut;
  }

  /** removeSpacesAndCreateTokens */
  method RemoveSpacesAndCreateTokens(t: Text, p: int, tokens: array<int>, ghost s: string)
    requires tokens.Length == MAX_TOKENS && if p == NULL then s == "" else StrAt(t.chars[..], p, s)
    modifies t.chars, tokens
    ensures SameBut(old(t.chars[..]), t.chars[..], p, p + |s|)
    ensures Listed(t.chars[..], tokens[..], Words(s), p, p + |s|)
  {
    hide StrAt, Words, UpTo, Found, SameBut, Listed, Cutting;
    ghost var rest, words := s, [];
    var next := p;
    var i := 0;
    CuttingBegins(t.chars[..], p, s);
    while i < MAX_TOKENS
      invariant 0 <= i == |words| <= MAX_TOKENS
      invariant Cutting(old(t.chars[..]), p, s, t.chars[..], next, rest, tokens[..i], words)
      decreases if next == NULL then 0 else 1 + |rest|
    {
      ghost var before, ps, from := t.chars[..], tokens[..i], next;
      if next != NULL {
        CuttingText(old(t.chars[..]), p, s, before, next, rest, ps, words);
      }
      tokens[i], next := t.StrSep(next, ' ', rest);
      assert tokens[..i] == ps;
      if tokens[i] == NULL {
        break;
      }
      ghost var f := UpTo(rest, ' ');
      assert 0 <= from < t.chars.Length by { FirstChar(t.chars[..], from, f); }
      CuttingGoesOn(old(t.chars[..]), p, s, before, from, rest, ps, words, t.chars[..], next);
      rest := AfterField(rest, f);
      assert tokens[..i + 1] == ps + [from];
      if t.chars[tokens[i]] == NUL {
        i := i - 1;
      } else {
        words := words + [f];
      }
      i := i + 1;
    }
    CuttingEnds(old(t.chars[..]), p, s, t.chars[..], next, rest, tokens[..], words);
  }

  /** One round of strsep reads one field. */
  lemma WordsStep(s: string)
    ensures var f := UpTo(s, ' ');
            Words(s) == (if f == "" then [] else [f]) + if |f| < |s| then Words(s[|f| + 1..]) else []
  {
    hide UpTo;
  }

  /** A field is cut off at `from`; what was found before stays. */
  lemma FoundMore(a: seq<char>, b: seq<char>, from: int, rest: string, ps: seq<int>, words: seq<string>, lo: int,
      f: string, top: int)
    requires Found(a, ps, words, lo, from - 1) && SameBut(a, b, from, from + |rest|) && lo <= from
    requires StrAt(b, from, f) && from + |f| <= top
    ensures Found(b, ps, words, lo, top) && Found(b, ps + [from], words + [f], lo, top)
  {
    FoundKept(a, b, from, from + |rest|, ps, words, lo, from - 1, top);
  }

  lemma FirstChar(b: seq<char>, p: int, f: string)
    requires StrAt(b, p, f)
    ensures 0 <= p < |b| && (b[p] == NUL <==> f == "")
  {
  }

  /** Two strings in the buffer do not touch. */
  ghost predicate Apart(p: int, f: string, q: int, g: string) {
    f == "" || g == "" || p + |f| < q || q + |g| < p
  }

  lemma TwoFound(a: seq<char>, b: seq<char>, c: seq<char>, from: int, s: string, d: char, p: int, mid: int, q: int,
      end: int)
    requires Tokenized(a, from, s, Tok(s, d), b, p, mid)
    requires Tokenized(b, mid, Tok(s, d).rest, Tok(Tok(s, d).rest, d), c, q, end)
    ensures SameBut(a, c, from, from + |s|)
    ensures Points(c, p, FirstTok(s, d), from, from + |s|) && Points(c, q, SecondTok(s, d), from, from + |s|)
    ensures Apart(p, FirstTok(s, d), q, SecondTok(s, d))
    ensures q == NULL ==> StrAt(c, end, "")
  {
    hide StrAt, SameBut, Tok;
    var rest := Tok(s, d).rest;
    SameButTwice(a, b, c, from, from + |s|, mid, mid + |rest|);
    if Tok(s, d).token != "" {
      StrAtKept(b, c, mid, mid + |rest|, p, Tok(s, d).token);
    }
  }

  /** strtok(p, d) and strtok(NULL, d) */
  method TwoTokens(t: Text, p: int, d: char, ghost s: string) returns (first: int, second: int)
    requires d != NUL && StrAt(t.chars[..], if p == NULL then t.saved else p, s)
    modifies t, t.chars
    ensures var from := if p == NULL then old(t.saved) else p;
      && SameBut(old(t.chars[..]), t.chars[..], from, from + |s|)
      && Points(t.chars[..], first, FirstTok(s, d), from, from + |s|)
      && Points(t.chars[..], second, SecondTok(s, d), from, from + |s|)
      && Apart(first, FirstTok(s, d), second, SecondTok(s, d))
      && (second == NULL ==> StrAt(t.chars[..], t.saved, ""))
  {
    hide StrAt, SameBut, Tok;
    ghost var from := if p == NULL then t.saved else p;
    ghost var a := t.chars[..];
    first := t.StrTok(p, d, s);
    ghost var b, mid := t.chars[..], t.saved;
    assert StrAt(b, mid, Tok(s, d).rest);
    second := t.StrTok(NULL, d, Tok(s, d).rest);
    TwoFound(a, b, t.chars[..], from, s, d, first, mid, second, t.saved);
  }

  /** Three pointers to what Redirections finds, well apart. */
  ghost predicate Split(b: seq<char>, r: Redirected, command: int, input: int, output: int, lo: int, hi: int) {
    && Points(b, command, r.command, lo, hi) && Points(b, input, r.input, lo, hi) && Points(b, output, r.output, lo, hi)
    && Apart(command, r.command, input, r.input) && Apart(command, r.command, output, r.output)
    && Apart(input, r.input, output, r.output)
  }

  /** The first token of a text stays where it is when the second is cut. */
  lemma CutSecond(a: seq<char>, b: seq<char>, c: seq<char>, lo: int, hi: int, from: int, first: int, f: string,
      temp: int, g: string,
                  x: int, x': string, y: int, y': string)
    requires SameBut(a, b, lo, hi) && Points(b, first, f, lo, hi) && Points(b, temp, g, lo, hi)
        && Apart(first, f, temp, g)
    requires (temp != NULL ==> from == temp) && SameBut(b, c, from, from + |g|)
    requires Points(c, x, x', from, from + |g|) && Points(c, y, y', from, from + |g|)
    ensures SameBut(a, c, lo, hi)
    ensures Points(c, first, f, lo, hi) && Points(c, x, x', lo, hi) && Points(c, y, y', lo, hi)
    ensures Apart(first, f, x, x') && Apart(first, f, y, y')
  {
    SameButTwice(a, b, c, lo, hi, from, from + |g|);
    if f != "" {
      StrAtKept(b, c, from, from + |g|, first, f);
    }
    hide StrAt, SameBut;
  }

  /** The strtok calls of checkIOParser. */
  method SplitRedirections(t: Text, p: int, ghost s: string) returns (command: int, input: int, output: int)
    requires p != NULL && s != "" && StrAt(t.chars[..], p, s)
    modifies t, t.chars
    ensures SameBut(old(t.chars[..]), t.chars[..], p, p + |s|)
    ensures Split(t.chars[..], Redirections(s), command, input, output, p, p + |s|)
  {
    hide StrAt, Tok, LastIndex;
    command, input, output := p, NULL, NULL;
    ghost var a := t.chars[..];
    var i := t.StrRChr(p, '<', s);
    var o := t.StrRChr(p, '>', s);
    if o < 0 && i < 0 {
      return;
    } else if o < 0 {
      command, input := TwoTokens(t, p, '<', s);
    } else if i < 0 {
      command, output := TwoTokens(t, p, '>', s);
    } else if o < i {
      command, output, input := SplitTwice(t, p, '>', '<', s);
    } else {
      command, input, output := SplitTwice(t, p, '<', '>', s);
    }
  }

  /** strtok(temp, e) reads the text at temp, and nothing when temp is NULL. */
  lemma TempText(b: seq<char>, temp: int, saved: int, g: string, lo: int, hi: int)
    requires Points(b, temp, g, lo, hi) && 0 <= lo && (temp == NULL ==> StrAt(b, saved, ""))
    ensures StrAt(b, if temp == NULL then saved else temp, g)
  {
  }

  /** The two branches for a line with both redirections: d comes first. */
  method SplitTwice(t: Text, p: int, d: char, e: char, ghost s: string) returns (command: int, first: int, second: int)
    requires d != NUL && e != NUL && p != NULL && StrAt(t.chars[..], p, s)
    modifies t, t.chars
    ensures SameBut(old(t.chars[..]), t.chars[..], p, p + |s|)
    ensures var temp := SecondTok(s, d);
      Split(t.chars[..], Redirected(FirstTok(s, d), FirstTok(temp, e), SecondTok(temp, e)), command, first, second, p,
          p + |s|)
  {
    hide StrAt, SameBut, Tok, Apart, Points, FirstTok, SecondTok;
    assert p >= 0 by { FirstChar(t.chars[..], p, s); }
    ghost var a := t.chars[..];
    var temp;
    command, temp := TwoTokens(t, p, d, s);
    ghost var b := t.chars[..];
    ghost var from := if temp == NULL then t.saved else temp;
    ghost var g := SecondTok(s, d);
    TempText(b, temp, t.saved, g, p, p + |s|);
    first, second := TwoTokens(t, temp, e, g);
    CutSecond(a, b, t.chars[..], p, p + |s|, from, command, FirstTok(s, d), temp, g, first, FirstTok(g, e), second,
        SecondTok(g, e));
  }

  /** fileRemoveSpacesAndCreateTokens for one file; not ok when strcmp is given NULL.  The loop behind
      the strtok call never runs, because a token holds no space. */
  method FileName(t: Text, temp: int, ghost f: string) returns (file: int, ok: bool)
    requires Points(t.chars[..], temp, f, temp, temp + |f|)
    modifies t, t.chars
    ensures SameBut(old(t.chars[..]), t.chars[..], temp, temp + |f|)
    ensures ok == !NameMissing(f) && (ok ==> Points(t.chars[..], file, FirstTok(f, ' '), temp, temp + |f|))
    ensures FirstTok(f, ' ') != " "
  {
    if temp == NULL {
      assert f == "" && FirstTok(f, ' ') == "";
      return NULL, true;
    }
    file := t.StrTok(temp, ' ', f);
    ok := file != NULL;
  }

  /** The token array and the file array hold the parsed command, within [lo, hi] of the buffer. */
  ghost predicate Holds(b: seq<char>, tokens: seq<int>, file: seq<int>, c: Parsed, lo: int, hi: int) {
    && c.Parsed? && Listed(b, tokens, c.words, lo, hi)
    && |file| == 2 && Points(b, file[0], c.input, lo, hi) && Points(b, file[1], c.output, lo, hi)
  }

  lemma HoldsKept(a: seq<char>, b: seq<char>, from: int, to: int, tokens: seq<int>, file: seq<int>, c: Parsed,
      lo: int, hi: int)
    requires SameBut(a, b, from, to) && Holds(a, tokens, file, c, lo, hi) && (hi < from || to <= lo)
    ensures Holds(b, tokens, file, c, lo, hi)
  {
    ListedKept(a, b, from, to, tokens, c.words, lo, hi);
    PointsKept(a, b, from, to, file[0], c.input, lo, hi);
    PointsKept(a, b, from, to, file[1], c.output, lo, hi);
    hide StrAt, SameBut, Listed;
  }

  /** checkIOParser cuts the words (a to b), then the input file (b to c), then the output file (c to d). */
  lemma AfterWords(a: seq<char>, b: seq<char>, r: Redirected, command: int, input: int, output: int, lo: int, hi: int)
    requires 0 <= lo && Split(a, r, command, input, output, lo, hi) && SameBut(a, b, command, command + |r.command|)
    ensures Points(b, input, r.input, lo, hi) && Points(b, output, r.output, lo, hi)
  {
    PointsKept(a, b, command, command + |r.command|, input, r.input, lo, hi);
    PointsKept(a, b, command, command + |r.command|, output, r.output, lo, hi);
    hide StrAt, SameBut;
  }

  lemma AfterInput(a: seq<char>, b: seq<char>, c: seq<char>, r: Redirected, command: int, input: int, output: int,
      lo: int, hi: int,
                   tokens: seq<int>, words: seq<string>)
    requires 0 <= lo && Split(a, r, command, input, output, lo, hi) && SameBut(b, c, input, input + |r.input|)
    requires Points(b, output, r.output, lo, hi) && Listed(b, tokens, words, command, command + |r.command|)
    ensures Points(c, output, r.output, lo, hi) && Listed(c, tokens, words, command, command + |r.command|)
  {
    PointsKept(b, c, input, input + |r.input|, output, r.output, lo, hi);
    ListedKept(b, c, input, input + |r.input|, tokens, words, command, command + |r.command|);
    hide StrAt, SameBut, Listed;
  }

  lemma AfterOutput(a: seq<char>, c: seq<char>, d: seq<char>, r: Redirected, command: int, input: int, output: int,
      lo: int, hi: int,
                    tokens: seq<int>, words: seq<string>, file: int, name: string)
    requires 0 <= lo && Split(a, r, command, input, output, lo, hi) && SameBut(c, d, output, output + |r.output|)
    requires Points(c, file, name, input, input + |r.input|) && (r.input == "" ==> name == "")
    requires Listed(c, tokens, words, command, command + |r.command|)
    ensures Points(d, file, name, input, input + |r.input|) && Listed(d, tokens, words, command, command + |r.command|)
  {
    PointsKept(c, d, output, output + |r.output|, file, name, input, input + |r.input|);
    ListedKept(c, d, output, output + |r.output|, tokens, words, command, command + |r.command|);
    hide StrAt, SameBut, Listed;
  }

  lemma RegionsChained(a: seq<char>, b: seq<char>, c: seq<char>, f: string, q: int, lo: int, hi: int)
    requires SameBut(a, b, lo, hi) && SameBut(b, c, q, q + |f|) && (f != "" ==> lo <= q && q + |f| <= hi)
    ensures SameBut(a, c, lo, hi)
  {
    SameButTwice(a, b, c, lo, hi, q, q + |f|);
  }

  /** The results, seen from the whole string. */
  lemma AllHeld(b: seq<char>, r: Redirected, command: int, input: int, output: int, lo: int, hi: int,
                tokens: seq<int>, file: seq<int>, c: Parsed)
    requires 0 <= lo && (r.command != "" ==> lo <= command && command + |r.command| <= hi)
    requires (r.input != "" ==> lo <= input && input + |r.input| <= hi)
        && (r.output != "" ==> lo <= output && output + |r.output| <= hi)
    requires c == Parsed(Words(r.command), FirstTok(r.input, ' '), FirstTok(r.output, ' '))
    requires Listed(b, tokens, c.words, command, command + |r.command|) && |file| == 2
    requires Points(b, file[0], c.input, input, input + |r.input|)
        && Points(b, file[1], c.output, output, output + |r.output|)
    ensures Holds(b, tokens, file, c, lo, hi)
  {
    hide StrAt, Words, FirstTok, Listed;
    if r.command == "" {
      WordsStep("");
      NoneListed(b, tokens, command, lo, hi);
    } else {
      ListedWider(b, tokens, c.words, command, command + |r.command|, lo, hi);
    }
    NoName();
  }

  lemma ListedWider(b: seq<char>, tokens: seq<int>, words: seq<string>, from: int, to: int, lo: int, hi: int)
    requires Listed(b, tokens, words, from, to) && lo <= from && to <= hi
    ensures Listed(b, tokens, words, lo, hi)
  {
  }

  lemma NoneListed(b: seq<char>, tokens: seq<int>, from: int, lo: int, hi: int)
    requires Listed(b, tokens, [], from, from)
    ensures Listed(b, tokens, [], lo, hi)
  {
  }

  /** checkIOParser; false when the program is undefined. */
  method CheckIOParser(t: Text, p: int, file: array<int>, tokens: array<int>, ghost s: string) returns (ok: bool)
    requires tokens.Length == MAX_TOKENS && file.Length == 2 && file != tokens && file[0] == file[1] == NULL
    requires p != NULL ==> s != "" && StrAt(t.chars[..], p, s)
    modifies t, t.chars, file, tokens
    ensures p == NULL ==>
      ok && t.chars[..] == old(t.chars[..]) && tokens[..] == old(tokens[..]) && file[..] == old(file[..])
    ensures p != NULL ==> SameBut(old(t.chars[..]), t.chars[..], p, p + |s|) && (ok <==> Parse(s).Parsed?)
    ensures p != NULL && ok ==> Holds(t.chars[..], tokens[..], file[..], Parse(s), p, p + |s|)
  {
    hide StrAt, SameBut, Words, Redirections, FirstTok, Listed, Apart, Holds;
    if p == NULL {
      return true;
    }
    ghost var lo, hi, r, old0 := p, p + |s|, Redirections(s), t.chars[..];
    assert 0 <= lo by { FirstChar(t.chars[..], p, s); }
    var command, input, output := SplitRedirections(t, p, s);
    ghost var a := t.chars[..];
    RemoveSpacesAndCreateTokens(t, command, tokens, r.command);
    ghost var b := t.chars[..];
    AfterWords(a, b, r, command, input, output, lo, hi);
    RegionsChained(old0, a, b, r.command, command, lo, hi);
    file[0], ok := FileName(t, input, r.input);
    ghost var c := t.chars[..];
    RegionsChained(old0, b, c, r.input, input, lo, hi);
    if !ok {
      return;
    }
    AfterInput(a, b, c, r, command, input, output, lo, hi, tokens[..], Words(r.command));
    ghost var file0 := file[0];
    file[1], ok := FileName(t, output, r.output);
    RegionsChained(old0, c, t.chars[..], r.output, output, lo, hi);
    if !ok {
      return;
    }
    NoName();
    AfterOutput(a, c, t.chars[..], r, command, input, output, lo, hi, tokens[..], Words(r.command), file0,
        FirstTok(r.input, ' '));
    AllHeld(t.chars[..], r, command, input, output, lo, hi, tokens[..], file[..], Parse(s));
  }

  lemma NoName()
    ensures FirstTok("", ' ') == ""
  {
  }

  /** How a line was understood by the head of executeCommand. */
  datatype Kind = OneCommand | Pipe | NoTokens | Crash

  ghost predicate Understood(kind: Kind, line: Line, b: seq<char>, tokens1: seq<int>, file1: seq<int>,
                             tokens2: seq<int>, file2: seq<int>) {
    match line
    case NoCommand => kind == NoTokens
    case Single(c) => if c.Undefined? then kind == Crash else kind == OneCommand && Holds(b, tokens1, file1, c, 0, |b|)
    case Piped(c, d) =>
      if c.Undefined? || d.Undefined? then kind == Crash
      else kind == Pipe && Holds(b, tokens1, file1, c, 0, |b|) && Holds(b, tokens2, file2, d, 0, |b|)
  }

  lemma HoldsWider(b: seq<char>, tokens: seq<int>, file: seq<int>, c: Parsed, from: int, to: int)
    requires Holds(b, tokens, file, c, from, to) && 0 <= from && to <= |b|
    ensures Holds(b, tokens, file, c, 0, |b|)
  {
    ListedWider(b, tokens, c.words, from, to, 0, |b|);
    hide Listed, StrAt;
  }

  /** The pipe split and the parsing of its parts at the head of executeCommand. */
  method ParseCommand(t: Text, str: int, tokens1: array<int>, tokens2: array<int>, ghost s: string)
      returns (kind: Kind, file1: array<int>, file2: array<int>)
    requires tokens1 != tokens2 && tokens1.Length == tokens2.Length == MAX_TOKENS
    requires str != NULL && StrAt(t.chars[..], str, s)
    modifies t, t.chars, tokens1, tokens2
    ensures Understood(kind, ParseLine(s), t.chars[..], tokens1[..], file1[..], tokens2[..], file2[..])
  {
    hide StrAt, SameBut, Parse, FirstTok, SecondTok, Holds;
    assert str >= 0 by { FirstChar(t.chars[..], str, s); }
    file1, file2 := new int[2](_ => NULL), new int[2](_ => NULL);
    var first, second := TwoTokens(t, str, '|', s);
    ghost var f, g := FirstTok(s, '|'), SecondTok(s, '|');
    if first == NULL {
      return NoTokens, file1, file2;
    }
    assert first >= 0 && first + |f| <= t.chars.Length by { InBuffer(t.chars[..], first, f); }
    ghost var a := t.chars[..];
    var ok := CheckIOParser(t, first, file1, tokens1, f);
    if !ok {
      return Crash, file1, file2;
    }
    if second == NULL {
      HoldsWider(t.chars[..], tokens1[..], file1[..], Parse(f), first, first + |f|);
      return OneCommand, file1, file2;
    }
    ghost var b := t.chars[..];
    StrAtKept(a, b, first, first + |f|, second, g);
    assert second >= 0 && second + |g| <= t.chars.Length by { InBuffer(b, second, g); }
    ok := CheckIOParser(t, second, file2, tokens2, g);
    if !ok {
      return Crash, file1, file2;
    }
    HoldsKept(b, t.chars[..], second, second + |g|, tokens1[..], file1[..], Parse(f), first, first + |f|);
    HoldsWider(t.chars[..], tokens1[..], file1[..], Parse(f), first, first + |f|);
    HoldsWider(t.chars[..], tokens2[..], file2[..], Parse(g), second, second + |g|);
    return Pipe, file1, file2;
  }

  lemma InBuffer(b: seq<char>, p: int, f: string)
    requires StrAt(b, p, f)
    ensures 0 <= p && p + |f| < |b|
  {
  }
}

/** The part of the C string library that the shell relies on: strings in a buffer that are cut by
    writing NUL bytes into it.  A pointer is an offset; every delimiter set used is one character. */
module CString {
  const NUL := '\0'

  /** The null pointer. */
  const NULL := -1

  /** The longest prefix without d. */
  function UpTo(s: string, d: char): (r: string)
    ensures r <= s && d !in r && (|r| < |s| ==> s[|r|] == d)
  {
    if s == "" || s[0] == d then "" else [s[0]] + UpTo(s[1..], d)
  }

  lemma {:induction false} UpToIs(s: string, d: char, k: nat)
    requires k <= |s| && d !in s[..k] && (k < |s| ==> s[k] == d)
    ensures UpTo(s, d) == s[..k]
  {
    if k > 0 {
      assert s[0] == s[..k][0] && s[1..][..k - 1] == s[..k][1..];
      UpToIs(s[1..], d, k - 1);
    }
  }

  /** How often d is repeated at the front. */
  function Skip(s: string, d: char): (r: nat)
    ensures r <= |s| && (forall i :: 0 <= i < r ==> s[i] == d) && (r < |s| ==> s[r] != d)
  {
    if s == "" || s[0] != d then 0 else 1 + Skip(s[1..], d)
  }

  /** The last position of c, or -1. */
  function LastIndex(s: string, c: char): (r: int)
    ensures -1 <= r < |s| && (r >= 0 ==> s[r] == c) && forall i :: r < i < |s| ==> s[i] != c
  {
    var n := |s|;
    if n == 0 then -1 else if s[n - 1] == c then n - 1 else LastIndex(s[..n - 1], c)
  }

  /** What strtok finds in s: the token, where it starts, and what is left; no token is "". */
  datatype Piece = Piece(start: nat, token: string, rest: string)

  function Tok(s: string, d: char): (r: Piece)
    ensures r.start + |r.token| + |r.rest| <= |s|
    ensures d !in r.token && s[r.start..r.start + |r.token|] == r.token
    ensures r.token == "" ==> r.rest == ""
    ensures forall c :: c in r.token || c in r.rest ==> c in s
  {
    var k := Skip(s, d);
    var t := UpTo(s[k..], d);
    Piece(k, t, if k + |t| < |s| then s[k + |t| + 1..] else "")
  }

  /** The non-empty fields between spaces. */
  function Words(s: string): seq<string>
    decreases |s|
  {
    var f := UpTo(s, ' ');
    (if f == "" then [] else [f]) + if |f| < |s| then Words(s[|f| + 1..]) else []
  }

  /** At offset p the buffer holds the NUL-terminated string s. */
  ghost predicate StrAt(b: seq<char>, p: int, s: string) {
    && 0 <= p && p + |s| < |b| && b[p + |s|] == NUL
    && forall i :: p <= i < p + |s| ==> b[i] == s[i - p] && b[i] != NUL
  }

  /** Two buffers differ at most in [lo, hi). */
  ghost predicate SameBut(a: seq<char>, b: seq<char>, lo: int, hi: int) {
    |a| == |b| && forall i :: 0 <= i < |a| ==> !(lo <= i < hi) ==> a[i] == b[i]
  }

  lemma StrAtKept(a: seq<char>, b: seq<char>, lo: int, hi: int, p: int, s: string)
    requires SameBut(a, b, lo, hi) && StrAt(a, p, s) && (p + |s| < lo || hi <= p || hi <= lo)
    ensures StrAt(b, p, s)
  {
    assert forall i :: p <= i <= p + |s| ==> a[i] == b[i];
  }

  lemma Suffix(b: seq<char>, p: int, s: string, k: nat)
    requires StrAt(b, p, s) && k <= |s|
    ensures StrAt(b, p + k, s[k..])
  {
  }

  lemma EndOf(b: seq<char>, p: int, s: string, k: nat)
    requires StrAt(b, p, s) && k <= |s|
    ensures 0 <= p + k < |b| && (b[p + k] == NUL <==> k == |s|)
  {
  }

  lemma Cut(b: seq<char>, p: int, s: string, k: nat)
    requires StrAt(b, p, s) && k < |s|
    ensures StrAt(b[p + k := NUL], p, s[..k]) && StrAt(b[p + k := NUL], p + k + 1, s[k + 1..])
  {
  }

  /** strtok, started at `from` on the string s, has found t: it returns r and keeps `saved`. */
  ghost predicate Tokenized(a: seq<char>, from: int, s: string, t: Piece, b: seq<char>, r: int, saved: int) {
    && SameBut(a, b, from, from + |s|)
    && r == (if t.token == "" then NULL else from + t.start)
    && (t.token != "" ==> StrAt(b, r, t.token))
    && StrAt(b, saved, t.rest) && saved + |t.rest| == from + |s|
    && (t.token != "" ==> r + |t.token| < saved || (t.rest == "" && r + |t.token| == saved))
  }

  class Text {
    const chars: array<char>
    /** strtok's own pointer. */
    var saved: int

    constructor (line: string)
      requires NUL !in line
      ensures StrAt(chars[..], 0, line) && fresh(chars)
    {
      chars := new char[|line| + 1](i => if 0 <= i < |line| then line[i] else NUL);
      saved := NULL;
    }

    /** strspn */
    method Span(p: int, d: char, ghost s: string) returns (k: nat)
      requires d != NUL && StrAt(chars[..], p, s)
      ensures k == Skip(s, d)
    {
      k := 0;
      while chars[p + k] == d
        invariant k <= |s| && forall i :: 0 <= i < k ==> s[i] == d
        decreases |s| - k
      {
        assert chars[p + k] == s[k];
        k := k + 1;
      }
      assert k < |s| ==> chars[p + k] == s[k];
    }

    /** strcspn */
    method Stretch(p: int, d: char, ghost s: string) returns (k: nat)
      requires d != NUL && StrAt(chars[..], p, s)
      ensures k == |UpTo(s, d)|
    {
      k := 0;
      while chars[p + k] != NUL && chars[p + k] != d
        invariant k <= |s| && d !in s[..k]
        decreases |s| - k
      {
        assert chars[p + k] == s[k] && s[..k + 1] == s[..k] + [s[k]];
        k := k + 1;
      }
      assert k < |s| ==> chars[p + k] == s[k];
      UpToIs(s, d, k);
    }

    /** End the token at p; `cut` says whether a delimiter was overwritten. */
    method CutToken(p: int, d: char, ghost s: string) returns (end: int, cut: bool)
      requires d != NUL && StrAt(chars[..], p, s)
      modifies chars
      ensures var f := UpTo(s, d);
        && end == p + |f| && (cut <==> |f| < |s|)
        && SameBut(old(chars[..]), chars[..], p, p + |s|) && StrAt(chars[..], p, f)
        && (if cut then StrAt(chars[..], end + 1, s[|f| + 1..]) else StrAt(chars[..], end, ""))
    {
      var n := Stretch(p, d, s);
      end := p + n;
      if chars[end] == NUL {
        return end, false;
      }
      Cut(chars[..], p, s, n);
      chars[end] := NUL;
      return end, true;
    }

    /** strtok(p, d), on the string s. */
    method StrTok(p: int, d: char, ghost s: string) returns (r: int)
      requires d != NUL && StrAt(chars[..], if p == NULL then saved else p, s)
      modifies this, chars
      ensures Tokenized(old(chars[..]), if p == NULL then old(saved) else p, s, Tok(s, d), chars[..], r, saved)
    {
      hide Skip, UpTo, StrAt;
      var from := if p == NULL then saved else p;
      var k := Span(from, d, s);
      Suffix(chars[..], from, s, k);
      var start := from + k;
      assert chars[start] == NUL <==> k == |s| by { EndOf(chars[..], from, s, k); }
      if chars[start] == NUL {
        saved := start;
        return NULL;
      }
      var end, cut := CutToken(start, d, s[k..]);
      saved := if cut then end + 1 else end;
      return start;
    }

    /** strsep(&p, d), on the string s; next is what p is set to. */
    method StrSep(p: int, d: char, ghost s: string) returns (r: int, next: int)
      requires d != NUL && (p != NULL ==> StrAt(chars[..], p, s))
      modifies chars
      ensures r == p
      ensures p == NULL ==> next == NULL && chars[..] == old(chars[..])
      ensures p != NULL ==>
        var f := UpTo(s, d);
        && SameBut(old(chars[..]), chars[..], p, p + |s|) && StrAt(chars[..], p, f)
        && (if |f| == |s| then next == NULL else next == p + |f| + 1 && StrAt(chars[..], next, s[|f| + 1..]))
    {
      if p == NULL {
        return NULL, NULL;
      }
      var end, cut := CutToken(p, d, s);
      return p, if cut then end + 1 else NULL;
    }

    /** strrchr as an offset from p; -1 when c does not occur. */
    method StrRChr(p: int, c: char, ghost s: string) returns (r: int)
      requires c != NUL && StrAt(chars[..], p, s)
      ensures r == LastIndex(s, c)
    {
      r := -1;
      var k := 0;
      while chars[p + k] != NUL
        invariant 0 <= k <= |s| && -1 <= r < k && (r >= 0 ==> s[r] == c) && forall i :: r < i < k ==> s[i] != c
        decreases |s| - k
      {
        if chars[p + k] == c {
          r := k;
        }
        k := k + 1;
      }
    }
  }
}

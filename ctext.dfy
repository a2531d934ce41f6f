/** Value-level models of the C library calls the ingestion programs rely on:
    NUL-terminated strings, `strtok` on a single space, `strcasestr`, `atoi`,
    the `%d` / `%02d` conversions of `sprintf`, and `fgets` on a text stream. */
module CText {

  datatype Option<T> = None | Some(value: T)

  const NUL: char := '\0'

  // ---------------------------------------------------------------------------
  // NUL-terminated strings

  /** The C string a buffer holds: every character before the first NUL. */
  function CStr(buf: seq<char>): (s: string)
    ensures |s| <= |buf| && s == buf[..|s|]
    ensures NUL !in s
    ensures |s| < |buf| ==> buf[|s|] == NUL
  {
    if buf == [] || buf[0] == NUL then [] else [buf[0]] + CStr(buf[1..])
  }

  /** The three facts CStr promises single out its result. */
  lemma {:induction false} CStrUnique(buf: seq<char>, s: string)
    requires |s| <= |buf| && s == buf[..|s|] && NUL !in s
    requires |s| < |buf| ==> buf[|s|] == NUL
    ensures CStr(buf) == s
  {
    if buf != [] && buf[0] != NUL {
      assert s != [] && s[0] == buf[0];
      assert s[1..] == buf[1..][..|s| - 1];
      CStrUnique(buf[1..], s[1..]);
      assert s == [buf[0]] + s[1..];
    }
  }

  /** The three parts of a concatenation can be sliced back out of it. */
  lemma SliceConcat3(a: string, b: string, c: string)
    ensures (a + b + c)[..|a|] == a
    ensures (a + b + c)[|a|..|a| + |b|] == b
    ensures (a + b + c)[|a| + |b|..] == c
  {
    var s := a + b + c;
    assert s[..|a|] == a;
    assert s[|a|..|a| + |b|] == b;
    assert s[|a| + |b|..] == c;
  }

  // ---------------------------------------------------------------------------
  // Cutting at the first stop character

  /** The prefix of `s` before its first character in `stop`; all of `s` when there is none. */
  function CutAt(s: string, stop: set<char>): (r: string)
    ensures |r| <= |s| && r == s[..|r|]
    ensures forall i :: 0 <= i < |r| ==> r[i] !in stop
    ensures |r| < |s| ==> s[|r|] in stop
  {
    if s == [] || s[0] in stop then [] else [s[0]] + CutAt(s[1..], stop)
  }

  /** The facts CutAt promises single out its result. */
  lemma {:induction false} CutAtUnique(s: string, stop: set<char>, r: string)
    requires |r| <= |s| && r == s[..|r|]
    requires forall i :: 0 <= i < |r| ==> r[i] !in stop
    requires |r| < |s| ==> s[|r|] in stop
    ensures CutAt(s, stop) == r
  {
    var c := CutAt(s, stop);
  }

  const LINE_BREAKS: set<char> := {'\n', '\r'}

  /** What del_str_line leaves of a C string: the part before the first CR or LF. */
  function LineBeforeBreak(s: string): string { CutAt(s, LINE_BREAKS) }

  /** What GetUrlBeforeQuestionMark leaves of a C string: the part before the first '?'. */
  function UrlBeforeQuestionMark(s: string): string { CutAt(s, {'?'}) }

  /** Cutting is idempotent, and a string without a stop character is left unchanged. */
  lemma CutAtIdempotent(s: string, stop: set<char>)
    ensures CutAt(CutAt(s, stop), stop) == CutAt(s, stop)
    ensures (forall i :: 0 <= i < |s| ==> s[i] !in stop) ==> CutAt(s, stop) == s
  {
    var r := CutAt(s, stop);
    CutAtUnique(r, stop, r);
    if forall i :: 0 <= i < |s| ==> s[i] !in stop {
      CutAtUnique(s, stop, s);
    }
  }

  // ---------------------------------------------------------------------------
  // strcasestr(buf, "where")

  /** ASCII tolower, as in the C locale. */
  function ToLower(c: char): char
  {
    if 'A' <= c <= 'Z' then (c as int + 32) as char else c
  }

  /** `pat` occurs in `s` at index `i`, ignoring ASCII case. */
  predicate MatchesAt(s: string, i: nat, pat: string)
  {
    i + |pat| <= |s| && forall k :: 0 <= k < |pat| ==> ToLower(s[i + k]) == ToLower(pat[k])
  }

  /** strcasestr from index `from` on: the first case-insensitive occurrence of `pat`. */
  function StrCaseStr(s: string, pat: string, from: nat): (r: Option<nat>)
    requires from <= |s|
    ensures r.Some? ==> from <= r.value && MatchesAt(s, r.value, pat)
    ensures r.Some? ==> forall j :: from <= j < r.value ==> !MatchesAt(s, j, pat)
    ensures r.None? ==> forall j :: from <= j <= |s| ==> !MatchesAt(s, j, pat)
    decreases |s| - from
  {
    if MatchesAt(s, from, pat) then Some(from)
    else if from == |s| then None
    else StrCaseStr(s, pat, from + 1)
  }

  const WHERE: string := "where"

  /** What GetSqlBeforeWhere leaves of a C string: the part before the first
      case-insensitive "where", even when it sits inside a longer word. */
  function SqlBeforeWhere(s: string): (r: string)
    ensures |r| <= |s| && r == s[..|r|]
    ensures forall j :: 0 <= j <= |r| ==> !MatchesAt(r, j, WHERE)
    ensures forall j :: 0 <= j < |r| ==> !MatchesAt(s, j, WHERE)
    ensures |r| < |s| ==> MatchesAt(s, |r|, WHERE)
    ensures (forall j :: 0 <= j <= |s| ==> !MatchesAt(s, j, WHERE)) ==> r == s
  {
    match StrCaseStr(s, WHERE, 0)
    case None => s
    case Some(i) =>
      MatchesInPrefix(s, i, WHERE);
      s[..i]
  }

  /** A match inside a prefix of `s` is a match in `s`. */
  lemma MatchesInPrefix(s: string, n: nat, pat: string)
    requires n <= |s|
    ensures forall j :: 0 <= j <= n && MatchesAt(s[..n], j, pat) ==> MatchesAt(s, j, pat)
  {
    forall j | 0 <= j <= n && MatchesAt(s[..n], j, pat)
      ensures MatchesAt(s, j, pat)
    {
      forall k | 0 <= k < |pat|
        ensures ToLower(s[j + k]) == ToLower(pat[k])
      {
        assert s[..n][j + k] == s[j + k];
      }
    }
  }

  // ---------------------------------------------------------------------------
  // strtok(buf, " ")

  /** The tokens successive strtok calls with delimiter " " return: the maximal
      runs of characters other than ' ', in order. strtok returns NULL once
      they are used up. */
  function Tokens(s: string): (ts: seq<string>)
    ensures forall k :: 0 <= k < |ts| ==> ts[k] != [] && ' ' !in ts[k]
    decreases |s|
  {
    if s == [] then []
    else if s[0] == ' ' then Tokens(s[1..])
    else
      var w := CutAt(s, {' '});
      [w] + Tokens(s[|w|..])
  }

  /** Leading spaces produce no token. */
  lemma {:induction false} TokensSkipSpace(s: string)
    ensures Tokens(" " + s) == Tokens(s)
  {
    assert (" " + s)[1..] == s;
  }

  /** A word followed by a space is the first token, and the rest tokenises on its own. */
  lemma {:induction false} TokensCons(w: string, rest: string)
    requires w != [] && ' ' !in w
    ensures Tokens(w + " " + rest) == [w] + Tokens(rest)
  {
    var s := w + " " + rest;
    assert s[0] == w[0];
    CutAtUnique(s, {' '}, w);
    assert s[|w|..] == " " + rest;
    TokensSkipSpace(rest);
  }

  /** A whole word is one token. */
  lemma {:induction false} TokensWord(w: string)
    requires w != [] && ' ' !in w
    ensures Tokens(w) == [w]
  {
    CutAtUnique(w, {' '}, w);
    assert w[|w|..] == [];
  }

  /** Joining with one space and then tokenising gives the tokens of both halves. */
  lemma {:induction false} TokensAppend(a: string, b: string)
    ensures Tokens(a + " " + b) == Tokens(a) + Tokens(b)
    decreases |a|
  {
    if a == [] {
      TokensSkipSpace(b);
    } else if a[0] == ' ' {
      assert (a + " " + b)[1..] == a[1..] + " " + b;
      TokensAppend(a[1..], b);
    } else {
      var w := CutAt(a, {' '});
      var s := a + " " + b;
      if |w| == |a| {
        assert w == a;
        TokensCons(a, b);
        TokensWord(a);
      } else {
        assert s[..|w|] == w && s[|w|] == ' ';
        CutAtUnique(s, {' '}, w);
        assert s[|w|..] == a[|w|..] + " " + b;
        TokensAppend(a[|w|..], b);
      }
    }
  }

  /** Words joined with single spaces. */
  function JoinWords(ws: seq<string>): string
  {
    if ws == [] then "" else if |ws| == 1 then ws[0] else ws[0] + " " + JoinWords(ws[1..])
  }

  /** Tokenising undoes joining words with single spaces. */
  lemma {:induction false} TokensJoinWords(ws: seq<string>)
    requires forall k :: 0 <= k < |ws| ==> ws[k] != [] && ' ' !in ws[k]
    ensures Tokens(JoinWords(ws)) == ws
  {
    if |ws| == 1 {
      TokensWord(ws[0]);
    } else if |ws| > 1 {
      TokensCons(ws[0], JoinWords(ws[1..]));
      TokensJoinWords(ws[1..]);
    }
  }

  // ---------------------------------------------------------------------------
  // Decimal numbers: %d, %02d and atoi

  predicate IsDigit(c: char) { '0' <= c <= '9' }

  predicate AllDigits(s: string) { forall i :: 0 <= i < |s| ==> IsDigit(s[i]) }

  function DigitChar(d: nat): char
    requires d < 10
  {
    ('0' as int + d) as char
  }

  /** The decimal rendering of a natural number, most significant digit first. */
  function DecNat(n: nat): (s: string)
    ensures |s| >= 1 && AllDigits(s)
  {
    if n < 10 then [DigitChar(n)] else DecNat(n / 10) + [DigitChar(n % 10)]
  }

  /** sprintf's %d. */
  function Dec(n: int): string
  {
    if n < 0 then "-" + DecNat(-n) else DecNat(n)
  }

  /** sprintf's %02d: at least two characters, zero-padded. */
  function Pad2(n: int): string
  {
    if 0 <= n < 10 then "0" + DecNat(n) else Dec(n)
  }

  /** The number a string of decimal digits denotes. */
  function ValueOf(s: string): nat
    requires AllDigits(s)
  {
    if s == [] then 0
    else
      assert IsDigit(s[|s| - 1]);
      ValueOf(s[..|s| - 1]) * 10 + (s[|s| - 1] as int - '0' as int)
  }

  /** Reading the digits back gives the number. */
  lemma {:induction false} ValueOfDecNat(n: nat)
    ensures ValueOf(DecNat(n)) == n
  {
    if n >= 10 {
      var s := DecNat(n);
      assert s[..|s| - 1] == DecNat(n / 10);
      ValueOfDecNat(n / 10);
    }
  }

  /** %02d of a field below 100 is exactly two digits that read back as the field. */
  lemma Pad2Digits(n: int)
    requires 0 <= n < 100
    ensures |Pad2(n)| == 2 && AllDigits(Pad2(n)) && ValueOf(Pad2(n)) == n
  {
    ValueOfDecNat(n);
    if n >= 10 {
      assert DecNat(n) == DecNat(n / 10) + [DigitChar(n % 10)];
    } else {
      assert Pad2(n)[..1] == "0";
    }
  }

  /** The longest prefix of decimal digits. */
  function DigitRun(s: string): (d: string)
    ensures |d| <= |s| && d == s[..|d|] && AllDigits(d)
    ensures |d| < |s| ==> !IsDigit(s[|d|])
  {
    if s == [] || !IsDigit(s[0]) then [] else [s[0]] + DigitRun(s[1..])
  }

  /** isspace in the C locale. */
  predicate IsSpace(c: char)
  {
    c == ' ' || c == '\t' || c == '\n' || c == '\r' || c as int == 11 || c as int == 12
  }

  /** atoi: skip white space, an optional sign, then the longest run of digits
      (0 when there is none). C leaves overflow undefined; here numbers are unbounded. */
  function Atoi(s: string): int
  {
    if s != [] && IsSpace(s[0]) then Atoi(s[1..])
    else if s != [] && (s[0] == '-' || s[0] == '+') then
      var v: int := ValueOf(DigitRun(s[1..]));
      if s[0] == '-' then -v else v
    else ValueOf(DigitRun(s))
  }

  /** atoi reads back what %d wrote. */
  lemma AtoiDec(n: int)
    ensures Atoi(Dec(n)) == n
  {
    var m := if n < 0 then -n else n;
    var d := DecNat(m);
    assert DigitRun(d) == d;
    ValueOfDecNat(m);
    if n < 0 {
      assert Dec(n)[1..] == d;
    }
  }

  // ---------------------------------------------------------------------------
  // fgets

  /** The characters fgets moves into a buffer with `room` free places: up to
      `room` of them, stopping after the first newline. */
  function TakeLine(s: string, room: nat): (chunk: string)
    ensures |chunk| <= room && |chunk| <= |s| && chunk == s[..|chunk|]
    ensures forall i :: 0 <= i < |chunk| - 1 ==> chunk[i] != '\n'
    ensures |chunk| < room && |chunk| < |s| ==> chunk != [] && chunk[|chunk| - 1] == '\n'
    ensures room > 0 && s != [] ==> chunk != []
  {
    if s == [] || room == 0 then []
    else if s[0] == '\n' then "\n"
    else [s[0]] + TakeLine(s[1..], room - 1)
  }

  /** fgets(buf, size, stream) on the text still unread in `stream`: NULL at the
      end of the stream, otherwise the chunk it stores and what remains unread. */
  function Fgets(stream: string, size: nat): (r: Option<(string, string)>)
    requires size >= 2
    ensures r.None? <==> stream == []
    ensures r.Some? ==> r.value.0 + r.value.1 == stream && 1 <= |r.value.0| <= size - 1
    ensures r.Some? ==> r.value.0 == TakeLine(stream, size - 1)
  {
    if stream == [] then None
    else
      var chunk := TakeLine(stream, size - 1);
      assert chunk + stream[|chunk|..] == stream;
      Some((chunk, stream[|chunk|..]))
  }

  /** One `fgets` into a buffer of `size` bytes followed by `del_str_line`: the
      line the program goes on to use, and the text still unread. */
  function ReadLine(stream: string, size: nat): (r: Option<(string, string)>)
    requires size >= 2
    ensures r.None? <==> stream == []
    ensures r.Some? ==> |r.value.0| <= size - 1 && |r.value.1| < |stream|
    ensures r.Some? ==> NUL !in r.value.0 && '\n' !in r.value.0 && '\r' !in r.value.0
  {
    match Fgets(stream, size)
    case None => None
    case Some((chunk, rest)) => Some((LineBeforeBreak(CStr(chunk)), rest))
  }

  /** A line that fits the buffer is read whole, and reading resumes after its newline. */
  lemma ReadLineWhole(line: string, rest: string, size: nat)
    requires size >= 2 && |line| + 1 <= size - 1
    requires NUL !in line && '\n' !in line && '\r' !in line
    ensures ReadLine(line + "\n" + rest, size) == Some((line, rest))
  {
    var s := line + "\n" + rest;
    var chunk := TakeLine(s, size - 1);
    assert s[|line|] == '\n';
    assert |chunk| == |line| + 1;
    assert chunk == line + "\n";
    assert s[|chunk|..] == rest;
    CStrUnique(chunk, chunk);
    CutAtUnique(chunk, LINE_BREAKS, line);
  }

  /** A line longer than the buffer is split: the first read takes only `size - 1` characters. */
  lemma ReadLineSplit(line: string, rest: string, size: nat)
    requires size >= 2 && |line| >= size - 1
    requires NUL !in line && '\n' !in line && '\r' !in line
    ensures ReadLine(line + rest, size) == Some((line[..size - 1], line[size - 1..] + rest))
  {
    var s := line + rest;
    var chunk := TakeLine(s, size - 1);
    assert |chunk| == size - 1;
    assert chunk == line[..size - 1];
    assert s[|chunk|..] == line[size - 1..] + rest;
    CStrUnique(chunk, chunk);
    CutAtUnique(chunk, LINE_BREAKS, chunk);
  }
}

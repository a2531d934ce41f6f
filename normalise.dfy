/** The in-place normalisers: each walks a NUL-terminated buffer and writes a
    NUL over the first character where the text should end. */
module Normalise {
  import opened CText

  /** The buffer with a NUL written at `k` when `k` lies inside its C string,
      and the buffer itself when it does not. */
  function CutBuffer(buf: seq<char>, k: nat): (b: seq<char>)
    ensures |b| == |buf|
    ensures forall j :: 0 <= j < |buf| && j != k ==> b[j] == buf[j]
  {
    if k < |CStr(buf)| then buf[k := NUL] else buf
  }

  /** Ending the buffer at `k` ends its C string there. */
  lemma CStrOfCutBuffer(buf: seq<char>, k: nat)
    requires k <= |CStr(buf)|
    ensures CStr(CutBuffer(buf, k)) == CStr(buf)[..k]
  {
    var s := CStr(buf);
    if k < |s| {
      CStrUnique(buf[k := NUL], s[..k]);
    }
  }

  /** Cutting at the end of the C string leaves the buffer as it was. */
  lemma CutBufferAtEnd(buf: seq<char>)
    ensures CutBuffer(buf, |CStr(buf)|) == buf
  {
  }

  /** A buffer holding a NUL holds a C string shorter than itself. */
  lemma CStrShorter(buf: seq<char>)
    requires NUL in buf
    ensures |CStr(buf)| < |buf|
  {
  }

  /** The pointer walk shared by del_str_line and GetUrlBeforeQuestionMark:
      stop at the terminating NUL, or overwrite the first character in `stop`
      with a NUL. */
  method CutAtFirst(a: array<char>, stop: set<char>)
    requires NUL in a[..] && NUL !in stop
    modifies a
    ensures a[..] == CutBuffer(old(a[..]), |CutAt(CStr(old(a[..])), stop)|)
    ensures CStr(a[..]) == CutAt(CStr(old(a[..])), stop)
  {
    ghost var s := CStr(a[..]);
    CStrShorter(a[..]);
    var i := 0;
    while a[i] != NUL
      invariant a[..] == old(a[..])
      invariant 0 <= i <= |s|
      invariant forall j :: 0 <= j < i ==> s[j] !in stop
      decreases |s| - i
    {
      if a[i] in stop {
        CutAtUnique(s, stop, s[..i]);
        CStrOfCutBuffer(a[..], i);
        a[i] := NUL;
        return;
      }
      i := i + 1;
    }
    CutAtUnique(s, stop, s);
  }

  /** del_str_line: end the string at its first CR or LF; it always returns 0. */
  method DelStrLine(a: array<char>) returns (r: int)
    requires NUL in a[..]
    modifies a
    ensures r == 0
    ensures a[..] == CutBuffer(old(a[..]), |LineBeforeBreak(CStr(old(a[..])))|)
    ensures CStr(a[..]) == LineBeforeBreak(CStr(old(a[..])))
  {
    CutAtFirst(a, LINE_BREAKS);
    return 0;
  }

  /** GetUrlBeforeQuestionMark: end the string at its first '?'. */
  method GetUrlBeforeQuestionMark(a: array<char>)
    requires NUL in a[..]
    modifies a
    ensures a[..] == CutBuffer(old(a[..]), |UrlBeforeQuestionMark(CStr(old(a[..])))|)
    ensures CStr(a[..]) == UrlBeforeQuestionMark(CStr(old(a[..])))
  {
    CutAtFirst(a, {'?'});
  }

  /** GetSqlBeforeWhere: end the string where strcasestr finds "where". */
  method GetSqlBeforeWhere(a: array<char>)
    requires NUL in a[..]
    modifies a
    ensures a[..] == CutBuffer(old(a[..]), |SqlBeforeWhere(CStr(old(a[..])))|)
    ensures CStr(a[..]) == SqlBeforeWhere(CStr(old(a[..])))
  {
    ghost var s := CStr(a[..]);
    match StrCaseStr(CStr(a[..]), WHERE, 0)
    case None =>
      CutBufferAtEnd(a[..]);
    case Some(i) =>
      CStrOfCutBuffer(a[..], i);
      a[i] := NUL;
  }

  // ---------------------------------------------------------------------------
  // What the normalisers promise about the text

  /** A normalised string has no stop character left and is a prefix of the
      original; one without a stop character is left as it was; and a second
      pass changes nothing. */
  lemma CutAtNormalises(s: string, stop: set<char>)
    ensures CutAt(s, stop) == s[..|CutAt(s, stop)|]
    ensures forall c :: c in stop ==> c !in CutAt(s, stop)
    ensures (forall c :: c in stop ==> c !in s) ==> CutAt(s, stop) == s
    ensures CutAt(CutAt(s, stop), stop) == CutAt(s, stop)
  {
    CutAtIdempotent(s, stop);
    var r := CutAt(s, stop);
    forall c | c in stop
      ensures c !in r
    {
      assert forall k :: 0 <= k < |r| ==> r[k] != c;
    }
    if forall c :: c in stop ==> c !in s {
      CutAtUnique(s, stop, s);
    }
  }

  /** A buffer whose C string holds no stop character is not written. */
  lemma CutBufferUntouched(buf: seq<char>, stop: set<char>)
    requires forall c :: c in stop ==> c !in CStr(buf)
    ensures CutBuffer(buf, |CutAt(CStr(buf), stop)|) == buf
  {
    CutAtNormalises(CStr(buf), stop);
  }

  /** GetSqlBeforeWhere is idempotent: no "where" survives the first pass. */
  lemma SqlBeforeWhereIdempotent(s: string)
    ensures SqlBeforeWhere(SqlBeforeWhere(s)) == SqlBeforeWhere(s)
  {
  }

  /** The case-insensitive search stops inside a longer word: "Nowhere" is cut at its 'w'. */
  lemma SqlBeforeWhereInsideWord()
    ensures SqlBeforeWhere("Nowhere") == "No"
  {
    var s := "Nowhere";
    assert !MatchesAt(s, 0, WHERE) by { assert ToLower(s[0]) != ToLower(WHERE[0]); }
    assert !MatchesAt(s, 1, WHERE) by { assert ToLower(s[1]) != ToLower(WHERE[0]); }
    assert MatchesAt(s, 2, WHERE);
    assert |SqlBeforeWhere(s)| == 2;
  }

  /** Upper case matches too: "t WHERE x" keeps "t ". */
  lemma SqlBeforeWhereUpperCase()
    ensures SqlBeforeWhere("t WHERE x") == "t "
  {
    var s := "t WHERE x";
    assert !MatchesAt(s, 0, WHERE) by { assert ToLower(s[0]) != ToLower(WHERE[0]); }
    assert !MatchesAt(s, 1, WHERE) by { assert ToLower(s[1]) != ToLower(WHERE[0]); }
    assert MatchesAt(s, 2, WHERE);
    assert |SqlBeforeWhere(s)| == 2;
  }

  /** The url of a login request loses its query string. */
  lemma UrlBeforeQuestionMarkExample()
    ensures UrlBeforeQuestionMark("/login?URL=/index") == "/login"
  {
    var s := "/login?URL=/index";
    assert s[..6] == "/login" && s[6] == '?';
    CutAtUnique(s, {'?'}, "/login");
  }
}

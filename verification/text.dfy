/** Text handling used by the dialogue: the whitespace normalizer `clean`,
    Python's `str.upper()` as far as the confirmation tokens are concerned,
    and decimal rendering of integers (`str(n)`, `int(t)` on "1".."3"). */
module Text {

  datatype Option<T> = None | Some(value: T)

  /** `text or ""`: a missing message text reads as the empty string. */
  function OrEmpty(text: Option<string>): string
  {
    match text
    case None => ""
    case Some(s) => s
  }

  /** The characters for which Python's `str.isspace()` holds; `str.split()`
      with no separator and `str.strip()` with no argument split and strip on
      exactly these. */
  predicate IsSpace(c: char)
  {
    || ('\t' <= c <= '\r')
    || ('\U{1C}' <= c <= ' ')
    || c == '\U{85}' || c == '\U{A0}' || c == '\U{1680}'
    || ('\U{2000}' <= c <= '\U{200A}')
    || c == '\U{2028}' || c == '\U{2029}' || c == '\U{202F}' || c == '\U{205F}'
    || c == '\U{3000}'
  }

  /** A word: a non-empty run of non-space characters. */
  predicate IsWord(w: string)
  {
    |w| > 0 && forall i :: 0 <= i < |w| ==> !IsSpace(w[i])
  }

  /** What `clean` promises of its result: no whitespace at either end, no two
      whitespace characters in a row, and no whitespace other than ' '. */
  predicate IsClean(t: string)
  {
    && (t == [] || (!IsSpace(t[0]) && !IsSpace(t[|t| - 1])))
    && (forall i, j :: 0 <= i < |t| && j == i + 1 && j < |t| ==> !(IsSpace(t[i]) && IsSpace(t[j])))
    && (forall i :: 0 <= i < |t| && IsSpace(t[i]) ==> t[i] == ' ')
  }

  // ---------------------------------------------------------------------------
  // str.strip(), str.split(), str.join()
  // ---------------------------------------------------------------------------

  /** `s.lstrip()` */
  function StripLeft(s: string): (r: string)
    ensures r == [] || !IsSpace(r[0])
    ensures |r| <= |s|
  {
    if s != [] && IsSpace(s[0]) then StripLeft(s[1..]) else s
  }

  /** `s.rstrip()` */
  function StripRight(s: string): (r: string)
    ensures r == [] || !IsSpace(r[|r| - 1])
    ensures |r| <= |s|
  {
    if s != [] && IsSpace(s[|s| - 1]) then StripRight(s[..|s| - 1]) else s
  }

  /** `lstrip` removes a prefix of spaces and keeps the rest. */
  lemma {:induction false} StripLeftIsSuffix(s: string)
    ensures StripLeft(s) == s[|s| - |StripLeft(s)|..]
    ensures forall i :: 0 <= i < |s| - |StripLeft(s)| ==> IsSpace(s[i])
  {
    if s != [] && IsSpace(s[0]) {
      StripLeftIsSuffix(s[1..]);
    }
  }

  /** `rstrip` removes a suffix of spaces and keeps the rest. */
  lemma {:induction false} StripRightIsPrefix(s: string)
    ensures StripRight(s) == s[..|StripRight(s)|]
    ensures forall i :: |StripRight(s)| <= i < |s| ==> IsSpace(s[i])
  {
    if s != [] && IsSpace(s[|s| - 1]) {
      StripRightIsPrefix(s[..|s| - 1]);
    }
  }

  /** `s.strip()`: no whitespace is left at either end. */
  function Strip(s: string): (r: string)
    ensures r == [] || (!IsSpace(r[0]) && !IsSpace(r[|r| - 1]))
    ensures |r| <= |s|
  {
    StripRightIsPrefix(StripLeft(s));
    StripRight(StripLeft(s))
  }

  /** Length of the leading run of non-space characters of `s`. */
  function WordLen(s: string): (n: nat)
    ensures n <= |s|
    ensures forall i :: 0 <= i < n ==> !IsSpace(s[i])
    ensures n < |s| ==> IsSpace(s[n])
  {
    if s == [] || IsSpace(s[0]) then 0 else 1 + WordLen(s[1..])
  }

  /** `s.split()`: the maximal runs of non-space characters, in order. */
  function Words(s: string): seq<string>
    decreases |s|
  {
    if s == [] then []
    else if IsSpace(s[0]) then Words(s[1..])
    else
      var n := WordLen(s);
      [s[..n]] + Words(s[n..])
  }

  /** `s.split()` is empty exactly when `s` is all whitespace. */
  lemma {:induction false} WordsEmpty(s: string)
    ensures Words(s) == [] <==> forall i :: 0 <= i < |s| ==> IsSpace(s[i])
    decreases |s|
  {
    if s != [] && IsSpace(s[0]) {
      WordsEmpty(s[1..]);
      assert forall i :: 0 < i < |s| ==> s[i] == s[1..][i - 1];
    }
  }

  /** Every element of `s.split()` is a word. */
  lemma {:induction false} WordsAreWords(s: string)
    ensures forall k :: 0 <= k < |Words(s)| ==> IsWord(Words(s)[k])
    decreases |s|
  {
    if s != [] {
      if IsSpace(s[0]) {
        WordsAreWords(s[1..]);
      } else {
        var n := WordLen(s);
        WordsAreWords(s[n..]);
        assert IsWord(s[..n]);
      }
    }
  }


  /** `sep.join(parts)`: it starts with the first part (and ends with the
      last, `JoinEndsWithLast`). */
  function Join(sep: string, parts: seq<string>): (r: string)
    ensures parts != [] ==> parts[0] <= r
  {
    if parts == [] then ""
    else if |parts| == 1 then parts[0]
    else parts[0] + sep + Join(sep, parts[1..])
  }

  /** `clean(text)` (app.py:50-51): `" ".join((text or "").strip().split())`. */
  function Clean(text: Option<string>): (r: string)
    ensures text.None? ==> r == ""
  {
    Join(" ", Words(Strip(OrEmpty(text))))
  }

  /** The result of `clean` is clean and keeps exactly the words of its
      input. */
  lemma CleanShape(text: Option<string>)
    ensures IsClean(Clean(text))
    ensures Words(Clean(text)) == Words(OrEmpty(text))
  {
    var ws := Words(Strip(OrEmpty(text)));
    WordsAreWords(Strip(OrEmpty(text)));
    StripKeepsWords(OrEmpty(text));
    JoinWordsIsClean(ws);
    WordsOfJoin(ws);
  }

  // ---------------------------------------------------------------------------
  // Lemmas about Words, Strip and Join
  // ---------------------------------------------------------------------------

  /** A leading word followed by a space (or nothing) splits off as one word. */
  lemma WordsOfWordThen(w: string, t: string)
    requires IsWord(w)
    requires t == [] || IsSpace(t[0])
    ensures Words(w + t) == [w] + Words(t)
  {
    var s := w + t;
    assert forall i :: 0 <= i < |w| ==> s[i] == w[i];
    assert t != [] ==> s[|w|] == t[0];
    var n := WordLen(s);
    assert n == |w|;
    assert s[..n] == w;
    assert s[n..] == t;
  }

  /** Trailing whitespace contributes no word. */
  lemma {:induction false} WordsOfSpaces(s: string, t: string)
    requires forall i :: 0 <= i < |t| ==> IsSpace(t[i])
    ensures Words(s + t) == Words(s)
    decreases |s| + |t|
  {
    if s == [] {
      assert s + t == t;
      if t != [] {
        assert IsSpace(t[0]);
        assert [] + t[1..] == t[1..];
        WordsOfSpaces([], t[1..]);
      }
    } else if IsSpace(s[0]) {
      assert (s + t)[1..] == s[1..] + t;
      WordsOfSpaces(s[1..], t);
    } else {
      var n := WordLen(s);
      assert forall i :: 0 <= i < |s| ==> (s + t)[i] == s[i];
      assert n == |s| && t != [] ==> (s + t)[n] == t[0];
      assert WordLen(s + t) == n;
      assert (s + t)[..n] == s[..n];
      assert (s + t)[n..] == s[n..] + t;
      WordsOfSpaces(s[n..], t);
    }
  }

  /** `strip` never changes the words of a string. */
  lemma StripKeepsWords(s: string)
    ensures Words(Strip(s)) == Words(s)
  {
    var l := StripLeft(s);
    var r := StripRight(l);
    StripLeftKeepsWords(s);
    assert Words(l) == Words(s);
    StripRightKeepsWords(l);
    assert Words(r) == Words(l);
  }

  lemma StripRightKeepsWords(l: string)
    ensures Words(StripRight(l)) == Words(l)
  {
    var r := StripRight(l);
    var tail := l[|r|..];
    StripRightIsPrefix(l);
    assert l == r + tail;
    WordsOfSpaces(r, tail);
  }

  lemma {:induction false} StripLeftKeepsWords(s: string)
    ensures Words(StripLeft(s)) == Words(s)
    decreases |s|
  {
    if s != [] && IsSpace(s[0]) {
      StripLeftKeepsWords(s[1..]);
    }
  }

  /** Joining words with single spaces gives a clean string. */
  lemma {:induction false} JoinWordsIsClean(ws: seq<string>)
    requires forall k :: 0 <= k < |ws| ==> IsWord(ws[k])
    ensures IsClean(Join(" ", ws))
    ensures ws != [] ==> Join(" ", ws) != [] && !IsSpace(Join(" ", ws)[0])
  {
    if |ws| > 1 {
      var w, j := ws[0], Join(" ", ws[1..]);
      JoinWordsIsClean(ws[1..]);
      var r := w + " " + j;
      assert Join(" ", ws) == r;
      assert r[0] == w[0];
      assert r[|r| - 1] == j[|j| - 1];
      forall i | 0 <= i < |r| && IsSpace(r[i]) ensures r[i] == ' ' {
        if i > |w| { assert r[i] == j[i - |w| - 1]; }
      }
      forall i, k | 0 <= i && k == i + 1 && k < |r| ensures !(IsSpace(r[i]) && IsSpace(r[k])) {
        if i < |w| - 1 {
          assert r[i] == w[i];
        } else if i == |w| - 1 {
          assert r[i] == w[i];
        } else if i == |w| {
          assert r[i + 1] == j[0];
        } else {
          assert r[i] == j[i - |w| - 1] && r[i + 1] == j[i - |w|];
        }
      }
    }
  }

  /** Splitting a single-space join of words gives the words back. */
  lemma {:induction false} WordsOfJoin(ws: seq<string>)
    requires forall k :: 0 <= k < |ws| ==> IsWord(ws[k])
    ensures Words(Join(" ", ws)) == ws
  {
    if |ws| == 1 {
      WordsOfWordThen(ws[0], []);
      assert ws[0] + [] == ws[0];
    } else if |ws| > 1 {
      var j := Join(" ", ws[1..]);
      WordsOfJoin(ws[1..]);
      WordsOfWordThen(ws[0], " " + j);
      assert Join(" ", ws) == ws[0] + (" " + j);
      assert (" " + j)[1..] == j;
    }
  }

  /** `clean` is idempotent. */
  lemma CleanIdempotent(text: Option<string>)
    ensures Clean(Some(Clean(text))) == Clean(text)
  {
    CleanShape(text);
    StripKeepsWords(Clean(text));
    StripKeepsWords(OrEmpty(text));
  }

  /** A suffix of a clean string that starts at a non-space is clean. */
  lemma CleanSuffix(t: string, m: int)
    requires IsClean(t) && 0 <= m < |t| && !IsSpace(t[m])
    ensures IsClean(t[m..])
  {
    var rest := t[m..];
    assert rest[|rest| - 1] == t[|t| - 1];
    forall i, k | 0 <= i < |rest| && k == i + 1 && k < |rest|
      ensures !(IsSpace(rest[i]) && IsSpace(rest[k]))
    {
      assert rest[i] == t[m + i] && rest[k] == t[m + k];
    }
    forall i | 0 <= i < |rest| && IsSpace(rest[i]) ensures rest[i] == ' ' {
      assert rest[i] == t[m + i];
    }
  }

  /** A clean string splits into its first word, then a space and a clean
      remainder. */
  lemma CleanSplit(t: string)
    requires IsClean(t) && t != []
    ensures var n := WordLen(t);
      && IsWord(t[..n])
      && (n < |t| ==> n + 1 < |t| && t[n] == ' ' && IsClean(t[n + 1..]) && t[n + 1..] != [])
  {
    var n := WordLen(t);
    if n < |t| {
      assert IsSpace(t[n]) && t[n] == ' ';
      assert n + 1 < |t|;
      assert !IsSpace(t[n + 1]);
      CleanSuffix(t, n + 1);
    }
  }

  lemma WordsNonEmpty(s: string)
    requires s != [] && !IsSpace(s[0])
    ensures Words(s) != []
  {
  }

  /** `sep.join(parts)` ends with the last part. */
  lemma {:induction false} JoinEndsWithLast(sep: string, parts: seq<string>)
    requires parts != []
    ensures var r, last := Join(sep, parts), parts[|parts| - 1];
      |last| <= |r| && r[|r| - |last|..] == last
    decreases |parts|
  {
    if |parts| > 1 {
      var rest := Join(sep, parts[1..]);
      JoinEndsWithLast(sep, parts[1..]);
      var r := parts[0] + sep + rest;
      assert r[|r| - |rest|..] == rest;
    }
  }

  /** `sep.join(parts)` with at least three parts opens with the first two,
      each followed by the separator. */
  lemma JoinOpens(sep: string, parts: seq<string>)
    requires |parts| >= 3
    ensures parts[0] + sep + parts[1] + sep <= Join(sep, parts)
  {
    var tail := Join(sep, parts[2..]);
    assert parts[1..][1..] == parts[2..];
    assert Join(sep, parts[1..]) == parts[1] + sep + tail;
    assert Join(sep, parts) == parts[0] + sep + (parts[1] + sep + tail);
    assert Join(sep, parts) == (parts[0] + sep + parts[1] + sep) + tail;
  }

  lemma JoinCons(sep: string, w: string, ws: seq<string>)
    requires ws != []
    ensures Join(sep, [w] + ws) == w + sep + Join(sep, ws)
  {
    assert ([w] + ws)[1..] == ws;
  }

  /** A word, one space and a non-space character: `split` takes the word
      and goes on after the space. */
  lemma WordThenSpace(t: string, n: nat)
    requires 0 < n && n + 1 < |t| && n == WordLen(t) && t[n] == ' ' && !IsSpace(t[n + 1])
    ensures t == t[..n] + " " + t[n + 1..]
    ensures Words(t) == [t[..n]] + Words(t[n + 1..])
    ensures Words(t[n + 1..]) != []
  {
    var tail, rest := t[n..], t[n + 1..];
    assert !IsSpace(t[0]);
    assert Words(t) == [t[..n]] + Words(tail);
    assert IsSpace(tail[0]) && tail[1..] == rest;
    assert Words(tail) == Words(rest);
    WordsNonEmpty(rest);
  }

  /** Re-joining the words of a clean string gives the string back. */
  lemma {:induction false} JoinWordsOfClean(t: string)
    requires IsClean(t)
    ensures Join(" ", Words(t)) == t
    decreases |t|
  {
    if t != [] {
      var n := WordLen(t);
      if n == |t| {
        CleanSplit(t);
        assert t[..n] == t;
        WordsOfWordThen(t, []);
        assert t + [] == t;
      } else {
        CleanSplit(t);
        WordThenSpace(t, n);
        var rest := t[n + 1..];
        JoinWordsOfClean(rest);
        JoinCons(" ", t[..n], Words(rest));
      }
    }
  }

  /** The strings `clean` leaves as they are are exactly the clean ones. */
  lemma CleanFixedPoints(t: string)
    ensures Clean(Some(t)) == t <==> IsClean(t)
  {
    CleanShape(Some(t));
    if IsClean(t) {
      StripKeepsWords(t);
      JoinWordsOfClean(t);
    }
  }

  // ---------------------------------------------------------------------------
  // str.upper() and the confirmation tokens
  // ---------------------------------------------------------------------------

  /** Python's upper-casing of one character, for ASCII, Latin-1 and the two
      Latin letters outside Latin-1 whose capital is an ASCII letter. */
  function UpperChar(c: char): char
  {
    if 'a' <= c <= 'z' then (c as int - 32) as char
    else if '\U{E0}' <= c <= '\U{FE}' && c != '\U{F7}' then (c as int - 32) as char
    else if c == '\U{FF}' then '\U{178}'
    else if c == '\U{B5}' then '\U{39C}'
    else if c == '\U{131}' then 'I'
    else if c == '\U{17F}' then 'S'
    else c
  }

  /** `s.upper()`, character by character. */
  function Upper(s: string): (r: string)
    ensures |r| == |s|
  {
    seq(|s|, i requires 0 <= i < |s| => UpperChar(s[i]))
  }

  const YES: string := "SIM"
  const NO: string := "N\U{C3}O"
  const NO_PLAIN: string := "NAO"

  /** The three answers `confirmar` accepts (app.py:191). */
  datatype Answer = Yes | No | Unrecognised

  /** `clean(text).upper()` classified against "SIM", "NÃO" and "NAO"
      (app.py:189-195). */
  function ParseAnswer(text: Option<string>): (a: Answer)
    ensures a == Yes <==> SpellsYes(Clean(text))
    ensures a == No <==> SpellsNo(Clean(text))
  {
    UpperAnswer(Clean(text));
    var ans := Upper(Clean(text));
    if ans == YES then Yes
    else if ans == NO || ans == NO_PLAIN then No
    else Unrecognised
  }

  /** Exactly the spellings of "sim" in any mix of cases (with the dotless i
      and the long s as Python upper-cases them) are affirmative. */
  predicate SpellsYes(t: string)
  {
    && |t| == 3
    && t[0] in {'s', 'S', '\U{17F}'}
    && t[1] in {'i', 'I', '\U{131}'}
    && t[2] in {'m', 'M'}
  }

  /** Exactly the spellings of "não" and "nao" in any mix of cases are
      negative. */
  predicate SpellsNo(t: string)
  {
    && |t| == 3
    && t[0] in {'n', 'N'}
    && t[1] in {'a', 'A', '\U{E3}', '\U{C3}'}
    && t[2] in {'o', 'O'}
  }

  /** The characters Python upper-cases to a given capital of a token. */
  lemma UpperCharIs(c: char, u: char)
    requires u in {'S', 'I', 'M', 'N', 'A', 'O', '\U{C3}'}
    ensures UpperChar(c) == u <==>
      || c == u
      || c as int == u as int + 32
      || (u == 'S' && c == '\U{17F}')
      || (u == 'I' && c == '\U{131}')
  {
  }

  lemma Upper3(t: string)
    requires |t| == 3
    ensures Upper(t) == [UpperChar(t[0]), UpperChar(t[1]), UpperChar(t[2])]
  {
  }

  /** Which upper-cased strings are which answer, character by character. */
  lemma UpperAnswer(t: string)
    ensures Upper(t) == YES <==> SpellsYes(t)
    ensures Upper(t) == NO || Upper(t) == NO_PLAIN <==> SpellsNo(t)
  {
    if |t| == 3 {
      Upper3(t);
      var a, b, c := t[0], t[1], t[2];
      UpperCharIs(a, 'S'); UpperCharIs(b, 'I'); UpperCharIs(c, 'M');
      UpperCharIs(a, 'N'); UpperCharIs(b, 'A'); UpperCharIs(b, '\U{C3}');
      UpperCharIs(c, 'O');
    } else {
      assert |Upper(t)| != 3;
    }
  }

  // ---------------------------------------------------------------------------
  // Decimal numerals: str(n) and int(t)
  // ---------------------------------------------------------------------------

  function DigitChar(d: int): char
    requires 0 <= d <= 9
  {
    ('0' as int + d) as char
  }

  function Digits(n: nat): (r: string)
    ensures |r| >= 1
    ensures forall i :: 0 <= i < |r| ==> '0' <= r[i] <= '9'
  {
    if n < 10 then [DigitChar(n)] else Digits(n / 10) + [DigitChar(n % 10)]
  }

  /** `str(n)` for an int. */
  function Decimal(n: int): string
  {
    if n < 0 then "-" + Digits(-n) else Digits(n)
  }

  /** The medication-count check of `get_qtd_meds` (app.py:94-99): only
      "1", "2" and "3" are accepted, and `int(t)` reads them back. */
  function ParseCount(t: string): (r: Option<int>)
    ensures r.Some? <==> t in {"1", "2", "3"}
    ensures r.Some? ==> 1 <= r.value <= 3 && Decimal(r.value) == t
  {
    if t == "1" then Some(1)
    else if t == "2" then Some(2)
    else if t == "3" then Some(3)
    else None
  }
}

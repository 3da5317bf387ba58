/** The pieces of Python's string semantics the application relies on:
    `str.isspace`, `str.split()`, `sep.join`, slicing with negative bounds,
    `str.strip()`, `re.sub(r"\s+", " ", s)`, ASCII `lower()` and `str(int)`. */
module PyText {

  /** `str.isspace()` of CPython: the characters its Unicode database marks as
      whitespace. `str.split()`, `str.strip()` and the regex class `\s` all use it. */
  predicate IsSpace(c: char) {
    || ('\t' <= c <= '\r')
    || ('\U{1C}' <= c <= ' ')
    || c == '\U{85}' || c == '\U{A0}' || c == '\U{1680}'
    || ('\U{2000}' <= c <= '\U{200A}')
    || c == '\U{2028}' || c == '\U{2029}' || c == '\U{202F}' || c == '\U{205F}' || c == '\U{3000}'
  }

  predicate NoSpace(s: string) {
    forall i :: 0 <= i < |s| ==> !IsSpace(s[i])
  }

  /** No two adjacent whitespace characters. */
  predicate NoDoubleSpace(s: string) {
    forall i :: 0 < i < |s| ==> !(IsSpace(s[i - 1]) && IsSpace(s[i]))
  }

  /** Every whitespace character of s is the plain space. */
  predicate OnlyPlainSpaces(s: string) {
    forall i :: 0 <= i < |s| ==> IsSpace(s[i]) ==> s[i] == ' '
  }

  predicate StartsWithNonSpace(s: string) {
    s != [] && !IsSpace(s[0])
  }

  predicate EndsWithNonSpace(s: string) {
    s != [] && !IsSpace(s[|s| - 1])
  }

  /** The longest prefix of s without whitespace. */
  function TakeWord(s: string): (w: string)
    ensures w <= s && NoSpace(w)
    ensures |w| < |s| ==> IsSpace(s[|w|])
  {
    if s == [] || IsSpace(s[0]) then [] else [s[0]] + TakeWord(s[1..])
  }

  /** `s.split()` with no argument: the maximal runs of non-whitespace, in order. */
  function Words(s: string): (ws: seq<string>)
    ensures forall i :: 0 <= i < |ws| ==> ws[i] != [] && NoSpace(ws[i])
    decreases |s|
  {
    if s == [] then []
    else if IsSpace(s[0]) then Words(s[1..])
    else
      var w := TakeWord(s);
      [w] + Words(s[|w|..])
  }

  /** `sep.join(parts)`. */
  function Join(parts: seq<string>, sep: string): string {
    if parts == [] then ""
    else if |parts| == 1 then parts[0]
    else parts[0] + sep + Join(parts[1..], sep)
  }

  /** How Python normalises one slice bound against a length n. */
  function Clamp(x: int, n: nat): (r: nat)
    ensures r <= n
    ensures 0 <= x <= n ==> r == x
  {
    if x < 0 then (if x + n < 0 then 0 else x + n)
    else if x > n then n
    else x
  }

  /** `s[i:j]` in Python, negative bounds counting from the end. */
  function PySlice<T>(s: seq<T>, i: int, j: int): (r: seq<T>)
    ensures |r| <= |s|
  {
    var a, b := Clamp(i, |s|), Clamp(j, |s|);
    if a < b then s[a..b] else []
  }

  /** `s.lstrip()`. */
  function StripLeading(s: string): (r: string)
    ensures |r| <= |s|
    ensures s != [] && IsSpace(s[0]) ==> |r| < |s|
    ensures r == [] || !IsSpace(r[0])
  {
    if s != [] && IsSpace(s[0]) then StripLeading(s[1..]) else s
  }

  /** `s.rstrip()`. */
  function StripTrailing(s: string): (r: string)
    ensures r <= s
    ensures r == [] || !IsSpace(r[|r| - 1])
  {
    if s != [] && IsSpace(s[|s| - 1]) then StripTrailing(s[..|s| - 1]) else s
  }

  /** Neither end is whitespace. */
  predicate Trimmed(s: string) {
    s == [] || (!IsSpace(s[0]) && !IsSpace(s[|s| - 1]))
  }

  /** `s.strip()`. */
  function Strip(s: string): (r: string)
    ensures Trimmed(r)
  {
    StripTrailing(StripLeading(s))
  }

  /** `re.sub(r"\s+", " ", s)`: every maximal run of whitespace becomes one space. */
  function CollapseSpaces(s: string): string
    decreases |s|
  {
    if s == [] then []
    else if IsSpace(s[0]) then " " + CollapseSpaces(StripLeading(s))
    else [s[0]] + CollapseSpaces(s[1..])
  }

  /** `s.lower()` restricted to ASCII letters. */
  function Lower(s: string): (r: string)
    ensures |r| == |s|
    ensures forall i :: 0 <= i < |s| ==> r[i] == LowerChar(s[i])
  {
    if s == [] then [] else [LowerChar(s[0])] + Lower(s[1..])
  }

  function LowerChar(c: char): char {
    if 'A' <= c <= 'Z' then (c as int + 32) as char else c
  }

  function DigitChar(d: nat): char
    requires d < 10
  {
    "0123456789"[d]
  }

  /** `str(n)` for a natural number: its decimal digits. */
  function NatToString(n: nat): (r: string)
    ensures r != []
    ensures forall i :: 0 <= i < |r| ==> '0' <= r[i] <= '9'
  {
    if n < 10 then [DigitChar(n)] else NatToString(n / 10) + [DigitChar(n % 10)]
  }

  /** `str(i)` for a Python int. */
  function IntToString(i: int): string {
    if i < 0 then "-" + NatToString(-i) else NatToString(i)
  }

  // ---------------------------------------------------------------------------
  // Lemmas

  lemma {:induction false} TakeWordPrefix(w: string, rest: string)
    requires NoSpace(w)
    requires rest == [] || IsSpace(rest[0])
    ensures TakeWord(w + rest) == w
  {
    if w != [] {
      assert (w + rest)[1..] == w[1..] + rest;
      TakeWordPrefix(w[1..], rest);
    } else {
      assert w + rest == rest;
    }
  }

  lemma WordsOfWord(w: string)
    requires w != [] && NoSpace(w)
    ensures Words(w) == [w]
  {
    TakeWordPrefix(w, []);
    assert w + [] == w;
  }

  lemma WordsAfterSpace(w: string, rest: string)
    requires w != [] && NoSpace(w)
    ensures Words(w + " " + rest) == [w] + Words(rest)
  {
    var s := w + " " + rest;
    assert s == w + (" " + rest);
    TakeWordPrefix(w, " " + rest);
    assert s[|w|..] == " " + rest;
    assert (" " + rest)[1..] == rest;
  }

  /** Splitting a single-space join gives back the words: the partner of `Join`
      that makes a chunk's word list recoverable from its text. */
  lemma {:induction false} WordsOfJoin(ws: seq<string>)
    requires forall i :: 0 <= i < |ws| ==> ws[i] != [] && NoSpace(ws[i])
    ensures Words(Join(ws, " ")) == ws
  {
    if |ws| == 1 {
      WordsOfWord(ws[0]);
    } else if |ws| > 1 {
      WordsOfJoin(ws[1..]);
      WordsAfterSpace(ws[0], Join(ws[1..], " "));
    }
  }

  lemma {:induction false} WordsSkipLeading(s: string)
    ensures Words(StripLeading(s)) == Words(s)
    decreases |s|
  {
    if s != [] && IsSpace(s[0]) {
      WordsSkipLeading(s[1..]);
    }
  }

  lemma {:induction false} CollapseWord(w: string, rest: string)
    requires NoSpace(w)
    ensures CollapseSpaces(w + rest) == w + CollapseSpaces(rest)
  {
    if w == [] {
      assert w + rest == rest;
    } else {
      assert (w + rest)[0] == w[0];
      assert (w + rest)[1..] == w[1..] + rest;
      CollapseWord(w[1..], rest);
      assert w == [w[0]] + w[1..];
    }
  }

  lemma StripLeadingNonSpace(s: string)
    requires s == [] || !IsSpace(s[0])
    ensures StripLeading(s) == s
  {
  }

  lemma {:induction false} StripTrailingAppend(a: string, b: string)
    requires StartsWithNonSpace(b)
    ensures StripTrailing(a + b) == a + StripTrailing(b)
    decreases |b|
  {
    var s := a + b;
    assert s[|s| - 1] == b[|b| - 1];
    if IsSpace(b[|b| - 1]) {
      var b' := b[..|b| - 1];
      assert s[..|s| - 1] == a + b';
      StripTrailingAppend(a, b');
    }
  }

  lemma StripWord(w: string)
    requires w != [] && NoSpace(w)
    ensures Strip(w) == w
  {
  }

  lemma JoinFirstNonSpace(ws: seq<string>)
    requires ws != []
    requires forall i :: 0 <= i < |ws| ==> ws[i] != [] && NoSpace(ws[i])
    ensures StartsWithNonSpace(Join(ws, " "))
  {
    if |ws| > 1 {
      assert Join(ws, " ")[0] == ws[0][0];
    }
  }

  lemma LeadingSpaceCase(s: string)
    requires s != [] && IsSpace(s[0])
    requires Strip(CollapseSpaces(StripLeading(s))) == Join(Words(StripLeading(s)), " ")
    ensures Strip(CollapseSpaces(s)) == Join(Words(s), " ")
  {
    var x := CollapseSpaces(StripLeading(s));
    WordsSkipLeading(s);
    assert CollapseSpaces(s) == " " + x;
    assert (" " + x)[1..] == x;
  }

  /** The last word: after it only whitespace, which strip removes. */
  lemma LastWordCase(w: string, r: string)
    requires w != [] && NoSpace(w)
    requires r == [] || IsSpace(r[0])
    requires StripLeading(r) == []
    ensures Strip(w + CollapseSpaces(r)) == w
  {
    if r == [] {
      assert w + [] == w;
      StripWord(w);
    } else {
      assert CollapseSpaces(r) == " ";
      StripLeadingNonSpace(w + " ");
      assert (w + " ")[..|w|] == w;
    }
  }

  /** A word followed by whitespace and at least one more word. */
  lemma MiddleWordCase(w: string, r: string)
    requires w != [] && NoSpace(w)
    requires r != [] && IsSpace(r[0]) && StripLeading(r) != []
    requires Strip(CollapseSpaces(StripLeading(r))) == Join(Words(StripLeading(r)), " ")
    ensures Strip(w + CollapseSpaces(r)) == Join([w] + Words(r), " ")
  {
    var d := StripLeading(r);
    var c := CollapseSpaces(d);
    WordsSkipLeading(r);
    assert CollapseSpaces(r) == " " + c;
    assert StartsWithNonSpace(c);
    StripLeadingNonSpace(c);
    assert w + CollapseSpaces(r) == (w + " ") + c;
    StripLeadingNonSpace((w + " ") + c);
    StripTrailingAppend(w + " ", c);
    var ws := Words(d);
    assert ws != [] by {
      assert Words(d) == [TakeWord(d)] + Words(d[|TakeWord(d)|..]);
    }
    assert ([w] + ws)[1..] == ws;
  }

  /** `re.sub(r"\s+", " ", s).strip()` equals `" ".join(s.split())`: the regex pipeline of
      the embedding sanitiser has the split/join normal form as its reference definition. */
  lemma {:induction false} StripCollapseIsJoinWords(s: string)
    ensures Strip(CollapseSpaces(s)) == Join(Words(s), " ")
    decreases |s|
  {
    if s == [] {
    } else if IsSpace(s[0]) {
      StripCollapseIsJoinWords(StripLeading(s));
      LeadingSpaceCase(s);
    } else {
      var w := TakeWord(s);
      var r := s[|w|..];
      assert s == w + r;
      CollapseWord(w, r);
      assert Words(s) == [w] + Words(r);
      if r == [] || StripLeading(r) == [] {
        WordsSkipLeading(r);
        LastWordCase(w, r);
      } else {
        StripCollapseIsJoinWords(StripLeading(r));
        MiddleWordCase(w, r);
      }
    }
  }

  /** Shape of a single-space join of words: starts and ends with a non-space,
      has no two adjacent whitespace characters and only plain spaces between words. */
  lemma {:induction false} JoinShape(ws: seq<string>)
    requires forall i :: 0 <= i < |ws| ==> ws[i] != [] && NoSpace(ws[i])
    ensures var j := Join(ws, " ");
      && NoDoubleSpace(j) && OnlyPlainSpaces(j)
      && (ws != [] ==> StartsWithNonSpace(j) && EndsWithNonSpace(j))
  {
    if |ws| > 1 {
      var w, rest := ws[0], Join(ws[1..], " ");
      JoinShape(ws[1..]);
      var j := w + " " + rest;
      assert Join(ws, " ") == j;
      forall i | 0 < i < |j| ensures !(IsSpace(j[i - 1]) && IsSpace(j[i])) {
        if i < |w| {
          assert j[i] == w[i];
        } else if i == |w| {
          assert j[i - 1] == w[|w| - 1];
        } else if i == |w| + 1 {
          assert j[i] == rest[0];
        } else {
          assert j[i - 1] == rest[i - 1 - |w| - 1] && j[i] == rest[i - |w| - 1];
        }
      }
      forall i | 0 <= i < |j| ensures IsSpace(j[i]) ==> j[i] == ' ' {
        if i < |w| {
          assert j[i] == w[i];
        } else if i > |w| {
          assert j[i] == rest[i - |w| - 1];
        }
      }
      assert j[0] == w[0];
      assert j[|j| - 1] == rest[|rest| - 1];
    }
  }

  lemma JoinNonEmpty(ws: seq<string>)
    requires ws != []
    requires forall i :: 0 <= i < |ws| ==> ws[i] != [] && NoSpace(ws[i])
    ensures Join(ws, " ") != []
  {
    JoinFirstNonSpace(ws);
  }

  /** The three shape properties survive taking a prefix. */
  lemma PrefixShape(s: string, p: string)
    requires p <= s
    requires NoDoubleSpace(s) && OnlyPlainSpaces(s) && (s == [] || !IsSpace(s[0]))
    ensures NoDoubleSpace(p) && OnlyPlainSpaces(p) && (p == [] || !IsSpace(p[0]))
  {
    forall i | 0 < i < |p| ensures !(IsSpace(p[i - 1]) && IsSpace(p[i])) {
      assert p[i - 1] == s[i - 1] && p[i] == s[i];
    }
    forall i | 0 <= i < |p| && IsSpace(p[i]) ensures p[i] == ' ' {
      assert p[i] == s[i];
    }
  }

  lemma PySlicePrefix<T>(s: seq<T>, j: int)
    requires j >= 0
    ensures PySlice(s, 0, j) <= s
    ensures |PySlice(s, 0, j)| == if j < |s| then j else |s|
  {
  }

  /** Joining one more part adds the separator and that part at the end. */
  lemma {:induction false} JoinAppend(parts: seq<string>, p: string, sep: string)
    requires parts != []
    ensures Join(parts + [p], sep) == Join(parts, sep) + sep + p
  {
    if |parts| > 1 {
      JoinAppend(parts[1..], p, sep);
      assert (parts + [p])[1..] == parts[1..] + [p];
    }
  }
}

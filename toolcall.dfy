/** The in-band tool-call detector of the chat endpoint (app/main.py:260-263): a
    `re.search` for
        {  \"tool\"  :  \"NAME\"  ,  \"input\"  :  \"INPUT\"  }
    where the quotes are preceded by a backslash, the gaps are optional whitespace,
    NAME is one or more characters other than a backslash or a quote, and INPUT is the
    shortest text (newlines included) after which a backslash-quote, optional
    whitespace and a closing brace follow. The pattern is matched by hand: at the
    first start position that succeeds, every step of it has exactly one way to
    succeed, so the first match Python's backtracking finds is the one computed here. */
module ToolCall {
  import opened Wrappers
  import PyText

  const OpenBrace: string := "{"
  const ToolKey: string := "\\\"tool\\\""
  const InputKey: string := "\\\"input\\\""
  const Quote: string := "\\\""

  /** A character class such as `\s`. */
  type CharClass = char -> bool

  /** `\s` in a `str` pattern: exactly the characters `str.isspace` accepts. */
  function Whitespace(): CharClass {
    c => PyText.IsSpace(c)
  }

  /** The punctuation a `\s*` of the pattern stops at is not whitespace. */
  predicate StopsAtPunctuation(ws: CharClass) {
    !ws('\\') && !ws(':') && !ws(',') && !ws('}')
  }

  /** `s[i:]` starts with `lit`. */
  predicate HasAt(s: string, i: nat, lit: string) {
    i + |lit| <= |s| && s[i..i + |lit|] == lit
  }

  /** After `\s*` from i: the first position at or after i that is not whitespace. */
  function SkipSpaces(s: string, i: nat, ws: CharClass): (j: nat)
    requires i <= |s|
    ensures i <= j <= |s|
    decreases |s| - i
  {
    if i < |s| && ws(s[i]) then SkipSpaces(s, i + 1, ws) else i
  }

  predicate NameChar(c: char) {
    c != '\\' && c != '"'
  }

  /** After `[^\\"]+` from i (greedy): the end of the run of name characters. */
  function NameEnd(s: string, i: nat): (j: nat)
    requires i <= |s|
    ensures i <= j <= |s|
    decreases |s| - i
  {
    if i < |s| && NameChar(s[i]) then NameEnd(s, i + 1) else i
  }

  /** The tail `\\"\s*\}` matches at p. */
  predicate Closes(s: string, p: nat, ws: CharClass)
    requires p <= |s|
  {
    HasAt(s, p, Quote) && HasAt(s, SkipSpaces(s, p + 2, ws), "}")
  }

  /** The lazy `[\s\S]*?` from p: the first position at which the tail matches. */
  function InputEnd(s: string, p: nat, ws: CharClass): (q: Option<nat>)
    requires p <= |s|
    ensures q.Some? ==> p <= q.value <= |s|
    decreases |s| - p
  {
    if Closes(s, p, ws) then Some(p)
    else if p == |s| then None
    else InputEnd(s, p + 1, ws)
  }

  /** `\s*` KEY `\s*:\s*\\"` from i: the position just after the opening quote of the value. */
  function Header(s: string, i: nat, key: string, ws: CharClass): (r: Option<nat>)
    requires i <= |s|
    ensures r.Some? ==> i + 2 <= r.value <= |s|
  {
    var a := SkipSpaces(s, i, ws);
    if !HasAt(s, a, key) then None else
    var b := SkipSpaces(s, a + |key|, ws);
    if !HasAt(s, b, ":") then None else
    var c := SkipSpaces(s, b + 1, ws);
    if !HasAt(s, c, Quote) then None else
    Some(c + 2)
  }

  /** `re.match` of the pattern at position i: the two groups, unstripped. */
  function MatchAt(s: string, i: nat, ws: CharClass): Option<(string, string)>
    requires i <= |s|
  {
    if !HasAt(s, i, OpenBrace) then None else
    match Header(s, i + 1, ToolKey, ws)
    case None => None
    case Some(n) => NameOnwards(s, n, ws)
  }

  /** The rest of the pattern once the value quote of `\"tool\"` ends at n. */
  function NameOnwards(s: string, n: nat, ws: CharClass): Option<(string, string)>
    requires n <= |s|
  {
    var d := NameEnd(s, n);
    if d == n || !HasAt(s, d, Quote) then None else
    InputOnwards(s, n, d, ws)
  }

  /** The rest of the pattern once the name `s[n:d]` and its closing quote are read. */
  function InputOnwards(s: string, n: nat, d: nat, ws: CharClass): Option<(string, string)>
    requires n <= d && d + 2 <= |s|
  {
    var e := SkipSpaces(s, d + 2, ws);
    if !HasAt(s, e, ",") then None else
    ValueOnwards(s, n, d, e + 1, ws)
  }

  /** The rest of the pattern from `\s*\"input\"`, at h. */
  function ValueOnwards(s: string, n: nat, d: nat, h: nat, ws: CharClass): Option<(string, string)>
    requires n <= d <= |s| && h <= |s|
  {
    match Header(s, h, InputKey, ws)
    case None => None
    case Some(v) => TailOnwards(s, n, d, v, ws)
  }

  /** The lazy input group from v and the tail after it. */
  function TailOnwards(s: string, n: nat, d: nat, v: nat, ws: CharClass): Option<(string, string)>
    requires n <= d <= |s| && v <= |s|
  {
    match InputEnd(s, v, ws)
    case None => None
    case Some(p) => Some((s[n..d], s[v..p]))
  }

  /** The pattern tried at every start position of a text. */
  type Matcher = nat -> Option<(string, string)>

  function Matches(s: string, ws: CharClass): Matcher {
    (k: nat) => if k <= |s| then MatchAt(s, k, ws) else None
  }

  /** `re.search`: the match at the leftmost start position, from i up to n, that has one. */
  function SearchFrom(m: Matcher, i: nat, n: nat): (r: Option<(string, string)>)
    requires i <= n
    ensures r.None? <==> forall k :: i <= k <= n ==> m(k).None?
    ensures r.Some? ==> exists k :: i <= k <= n && m(k) == r && forall j :: i <= j < k ==> m(j).None?
    decreases n - i
  {
    if m(i).Some? then m(i)
    else if i == n then None
    else SearchFrom(m, i + 1, n)
  }

  /** `re.search(pattern, s)`: no match anywhere, or the match at the leftmost
      position that has one. */
  function Search(s: string): (r: Option<(string, string)>)
    ensures r.None? <==> forall k :: 0 <= k <= |s| ==> MatchAt(s, k, Whitespace()).None?
    ensures r.Some? ==> exists k :: (0 <= k <= |s| && MatchAt(s, k, Whitespace()) == r
      && forall j :: 0 <= j < k ==> MatchAt(s, j, Whitespace()).None?)
  {
    var m := Matches(s, Whitespace());
    assert forall k :: 0 <= k <= |s| ==> m(k) == MatchAt(s, k, Whitespace());
    SearchFrom(m, 0, |s|)
  }

  /** The detector: `re.search(pattern, text)`, with both groups stripped. */
  function Detect(text: string): (r: Option<(string, string)>)
    ensures r.Some? <==> Search(text).Some?
    ensures r.Some? ==> PyText.Trimmed(r.value.0) && PyText.Trimmed(r.value.1)
  {
    match Search(text)
    case None => None
    case Some((name, input)) => Some((PyText.Strip(name), PyText.Strip(input)))
  }

  const CallHead: string := "{\\\"tool\\\":\\\""
  const CallMiddle: string := "\\\",\\\"input\\\":\\\""
  const CallTail: string := "\\\"}"

  /** The call the pattern is written for, with no whitespace in the gaps:
      `{\"tool\":\"NAME\",\"input\":\"INPUT\"}`. */
  function EscapedCall(name: string, input: string): string {
    CallHead + name + CallMiddle + input + CallTail
  }

  /** The call as plain JSON, the form the tools instruction shows the model. */
  function PlainCall(name: string, input: string): string {
    "{\"tool\":\"" + name + "\",\"input\":\"" + input + "\"}"
  }

  // ---------------------------------------------------------------------------
  // Lemmas

  /** `\s` stops at the punctuation of the pattern. */
  lemma WhitespaceStops()
    ensures StopsAtPunctuation(Whitespace())
  {
  }

  /** Every match contains a backslash, so text without one never matches, whatever
      counts as whitespace. */
  lemma NoBackslashNoMatch(s: string, ws: CharClass)
    requires '\\' !in s
    ensures SearchFrom(Matches(s, ws), 0, |s|) == None
  {
    NoBackslashNoMatchAnywhere(s, ws);
    var m := Matches(s, ws);
    assert forall k :: 0 <= k <= |s| ==> m(k) == MatchAt(s, k, ws);
    SearchFromNone(m, |s|);
  }

  lemma NoBackslashNoMatchAnywhere(s: string, ws: CharClass)
    requires '\\' !in s
    ensures forall k :: 0 <= k <= |s| ==> MatchAt(s, k, ws).None?
  {
    forall k | 0 <= k <= |s| ensures MatchAt(s, k, ws).None? {
      NoBackslashNoMatchAt(s, k, ws);
    }
  }

  lemma SearchFromNone(m: Matcher, n: nat)
    requires forall k :: 0 <= k <= n ==> m(k).None?
    ensures SearchFrom(m, 0, n) == None
  {
  }

  lemma NoBackslashNoMatchAt(s: string, i: nat, ws: CharClass)
    requires i <= |s| && '\\' !in s
    ensures MatchAt(s, i, ws).None?
  {
    if HasAt(s, i, OpenBrace) {
      NoBackslashNoHeader(s, i + 1, ToolKey, ws);
    }
  }

  /** A header whose key starts with a backslash needs a backslash in the text. */
  lemma NoBackslashNoHeader(s: string, i: nat, key: string, ws: CharClass)
    requires i <= |s| && '\\' !in s && key != [] && key[0] == '\\'
    ensures Header(s, i, key, ws).None?
  {
    var a := SkipSpaces(s, i, ws);
    assert !HasAt(s, a, key) by {
      if a + |key| <= |s| {
        assert s[a] in s;
        assert s[a..a + |key|][0] == s[a];
      }
    }
  }

  /** Plain JSON, the form the tools instruction asks the model for, is never detected
      when the name and the input hold no backslash. */
  lemma PlainJsonNotDetected(name: string, input: string)
    requires '\\' !in name && '\\' !in input
    ensures Detect(PlainCall(name, input)) == None
  {
    var s := PlainCall(name, input);
    assert '\\' !in s by {
      forall k | 0 <= k < |s| ensures s[k] != '\\' {
        var pre := "{\"tool\":\"";
        var mid := "\",\"input\":\"";
        assert s == pre + name + mid + input + "\"}";
        if k < |pre| {
          assert s[k] == pre[k];
        } else if k < |pre| + |name| {
          assert s[k] == name[k - |pre|];
        } else if k < |pre| + |name| + |mid| {
          assert s[k] == mid[k - |pre| - |name|];
        } else if k < |pre| + |name| + |mid| + |input| {
          assert s[k] == input[k - |pre| - |name| - |mid|];
        } else {
          assert s[k] == "\"}"[k - |pre| - |name| - |mid| - |input|];
        }
      }
    }
    NoBackslashNoMatch(s, Whitespace());
  }

  /** The escaped form is detected with exactly its name and input. */
  lemma EscapedCallDetected(name: string, input: string)
    requires name != [] && forall k :: 0 <= k < |name| ==> NameChar(name[k])
    requires '\\' !in input
    ensures Search(EscapedCall(name, input)) == Some((name, input))
  {
    var s := EscapedCall(name, input);
    var d := |CallHead| + |name|;
    var v := d + |CallMiddle|;
    var p := v + |input|;
    var ws := Whitespace();
    EscapedLandmarks(name, input);
    WhitespaceStops();
    LandmarksParse(s, |CallHead|, d, v, p, ws);
    assert Matches(s, ws)(0) == Some((name, input));
  }

  /** The characters the pattern reads, where the escaped form puts them: the head
      up to 12, the name up to d, the middle up to v, the input up to p, the tail. */
  predicate Landmarks(s: string, n: nat, d: nat, v: nat, p: nat) {
    && n == 12 && n < d && d + 15 == v && v <= p && p + 3 == |s|
    && HasAt(s, 0, OpenBrace) && HasAt(s, 1, ToolKey) && HasAt(s, 9, ":") && HasAt(s, 10, Quote)
    && s[1] == '\\' && s[9] == ':' && s[10] == '\\'
    && NameEnd(s, n) == d
    && HasAt(s, d, Quote) && HasAt(s, d + 2, ",") && HasAt(s, d + 3, InputKey)
    && HasAt(s, d + 12, ":") && HasAt(s, d + 13, Quote)
    && s[d + 2] == ',' && s[d + 3] == '\\' && s[d + 12] == ':' && s[d + 13] == '\\'
    && HasAt(s, p, Quote) && HasAt(s, p + 2, "}") && s[p + 2] == '}'
    && (forall k :: v <= k < p ==> s[k] != '\\')
  }

  lemma EscapedLandmarks(name: string, input: string)
    requires name != [] && forall k :: 0 <= k < |name| ==> NameChar(name[k])
    requires '\\' !in input
    ensures var s := EscapedCall(name, input);
      var d := |CallHead| + |name|;
      var v := d + |CallMiddle|;
      var p := v + |input|;
      Landmarks(s, |CallHead|, d, v, p) && s[|CallHead|..d] == name && s[v..p] == input
  {
    PiecesOf(name, input);
    LaidOutLandmarks(EscapedCall(name, input), name, input);
  }

  /** Any text laid out as head, name, middle, input, tail has the landmarks, and its
      groups are that name and that input. */
  lemma LaidOutLandmarks(s: string, name: string, input: string)
    requires name != [] && forall k :: 0 <= k < |name| ==> NameChar(name[k])
    requires '\\' !in input
    requires var d := |CallHead| + |name|;
      var v := d + |CallMiddle|;
      var p := v + |input|;
      && |s| == p + |CallTail|
      && (forall k :: 0 <= k < |CallHead| ==> s[k] == CallHead[k])
      && (forall k :: 0 <= k < |name| ==> s[|CallHead| + k] == name[k])
      && (forall k :: 0 <= k < |CallMiddle| ==> s[d + k] == CallMiddle[k])
      && (forall k :: 0 <= k < |input| ==> s[v + k] == input[k])
      && (forall k :: 0 <= k < |CallTail| ==> s[p + k] == CallTail[k])
    ensures var d := |CallHead| + |name|;
      var v := d + |CallMiddle|;
      var p := v + |input|;
      Landmarks(s, |CallHead|, d, v, p) && s[|CallHead|..d] == name && s[v..p] == input
  {
    var n := |CallHead|;
    var d := n + |name|;
    var v := d + |CallMiddle|;
    var p := v + |input|;
    HeadLandmarks(s);
    MiddleLandmarks(s, d);
    TailLandmarks(s, p);
    NamePart(s, n, name);
    InputClear(s, v, input);
    LaidOutGroups(s, name, input);
  }

  /** The greedy name run over a name that ends where a quote starts. */
  lemma NamePart(s: string, n: nat, name: string)
    requires n + |name| < |s| && forall k :: 0 <= k < |name| ==> s[n + k] == name[k]
    requires forall k :: 0 <= k < |name| ==> NameChar(name[k])
    requires !NameChar(s[n + |name|])
    ensures NameEnd(s, n) == n + |name|
  {
    var d := n + |name|;
    forall k | n <= k < d ensures NameChar(s[k]) {
      assert s[n + (k - n)] == name[k - n];
    }
    NameRun(s, n, d);
  }

  /** An input with no backslash puts none in the text. */
  lemma InputClear(s: string, v: nat, input: string)
    requires v + |input| <= |s| && forall k :: 0 <= k < |input| ==> s[v + k] == input[k]
    requires '\\' !in input
    ensures forall k :: v <= k < v + |input| ==> s[k] != '\\'
  {
    forall k | v <= k < v + |input| ensures s[k] != '\\' {
      assert s[v + (k - v)] == input[k - v];
      assert input[k - v] in input;
    }
  }

  /** The two groups of the laid-out text are the name and the input. */
  lemma LaidOutGroups(s: string, name: string, input: string)
    requires var d := |CallHead| + |name|;
      var v := d + |CallMiddle|;
      var p := v + |input|;
      && |s| == p + |CallTail|
      && (forall k :: 0 <= k < |CallHead| ==> s[k] == CallHead[k])
      && (forall k :: 0 <= k < |name| ==> s[|CallHead| + k] == name[k])
      && (forall k :: 0 <= k < |CallMiddle| ==> s[d + k] == CallMiddle[k])
      && (forall k :: 0 <= k < |input| ==> s[v + k] == input[k])
      && (forall k :: 0 <= k < |CallTail| ==> s[p + k] == CallTail[k])
    ensures var n := |CallHead|;
      var d := n + |name|;
      var v := d + |CallMiddle|;
      s[n..d] == name && s[v..v + |input|] == input
  {
    var n := |CallHead|;
    var d := n + |name|;
    var v := d + |CallMiddle|;
    assert s[n..d] == name by {
      forall k | 0 <= k < |name| ensures s[n..d][k] == name[k] {
        assert s[n..d][k] == s[n + k];
      }
    }
    assert s[v..v + |input|] == input by {
      forall k | 0 <= k < |input| ensures s[v..v + |input|][k] == input[k] {
        assert s[v..v + |input|][k] == s[v + k];
      }
    }
  }

  /** The pattern matches at 0 once each of its steps is known to succeed. */
  lemma MatchFromSteps(s: string, n: nat, d: nat, v: nat, p: nat, ws: CharClass)
    requires n < d <= |s| && d + 2 <= |s| && v <= p <= |s|
    requires HasAt(s, 0, OpenBrace) && Header(s, 1, ToolKey, ws) == Some(n)
    requires NameEnd(s, n) == d && HasAt(s, d, Quote)
    requires SkipSpaces(s, d + 2, ws) == d + 2 && HasAt(s, d + 2, ",")
    requires Header(s, d + 3, InputKey, ws) == Some(v) && InputEnd(s, v, ws) == Some(p)
    ensures MatchAt(s, 0, ws) == Some((s[n..d], s[v..p]))
  {
    HeadStep(s, n, ws);
    NameStep(s, n, d, ws);
    InputStep(s, n, d, v, p, ws);
  }

  lemma HeadStep(s: string, n: nat, ws: CharClass)
    requires n <= |s| && HasAt(s, 0, OpenBrace) && Header(s, 1, ToolKey, ws) == Some(n)
    ensures MatchAt(s, 0, ws) == NameOnwards(s, n, ws)
  {
  }

  lemma NameStep(s: string, n: nat, d: nat, ws: CharClass)
    requires n < d && d + 2 <= |s| && NameEnd(s, n) == d && HasAt(s, d, Quote)
    ensures NameOnwards(s, n, ws) == InputOnwards(s, n, d, ws)
  {
  }

  lemma InputStep(s: string, n: nat, d: nat, v: nat, p: nat, ws: CharClass)
    requires n < d && d + 2 <= |s| && v <= p <= |s|
    requires SkipSpaces(s, d + 2, ws) == d + 2 && HasAt(s, d + 2, ",")
    requires Header(s, d + 3, InputKey, ws) == Some(v) && InputEnd(s, v, ws) == Some(p)
    ensures InputOnwards(s, n, d, ws) == Some((s[n..d], s[v..p]))
  {
    CommaStep(s, n, d, ws);
    ValueStep(s, n, d, d + 3, v, ws);
    TailStep(s, n, d, v, p, ws);
  }

  lemma CommaStep(s: string, n: nat, d: nat, ws: CharClass)
    requires n < d && d + 2 <= |s|
    requires SkipSpaces(s, d + 2, ws) == d + 2 && HasAt(s, d + 2, ",")
    ensures InputOnwards(s, n, d, ws) == ValueOnwards(s, n, d, d + 3, ws)
  {
  }

  lemma ValueStep(s: string, n: nat, d: nat, h: nat, v: nat, ws: CharClass)
    requires n < d <= |s| && h <= |s| && v <= |s|
    requires Header(s, h, InputKey, ws) == Some(v)
    ensures ValueOnwards(s, n, d, h, ws) == TailOnwards(s, n, d, v, ws)
  {
  }

  lemma TailStep(s: string, n: nat, d: nat, v: nat, p: nat, ws: CharClass)
    requires n < d <= |s| && v <= p <= |s|
    requires InputEnd(s, v, ws) == Some(p)
    ensures TailOnwards(s, n, d, v, ws) == Some((s[n..d], s[v..p]))
  {
  }

  /** Text with the landmarks matches, with the name and the input as its groups. */
  lemma LandmarksParse(s: string, n: nat, d: nat, v: nat, p: nat, ws: CharClass)
    requires StopsAtPunctuation(ws) && Landmarks(s, n, d, v, p)
    ensures MatchAt(s, 0, ws) == Some((s[n..d], s[v..p]))
  {
    HeaderAt(s, 1, ToolKey, ws);
    HeaderAt(s, d + 3, InputKey, ws);
    assert SkipSpaces(s, d + 2, ws) == d + 2;
    ClosesAt(s, p, ws);
    InputRun(s, v, p, ws);
    MatchFromSteps(s, n, d, v, p, ws);
  }

  /** `\s*` KEY `\s*:\s*\\"` with no whitespace in the gaps. */
  lemma HeaderAt(s: string, i: nat, key: string, ws: CharClass)
    requires StopsAtPunctuation(ws)
    requires i + |key| + 1 < |s| && s[i] == '\\' && HasAt(s, i, key)
    requires HasAt(s, i + |key|, ":") && s[i + |key|] == ':'
    requires HasAt(s, i + |key| + 1, Quote) && s[i + |key| + 1] == '\\'
    ensures Header(s, i, key, ws) == Some(i + |key| + 3)
  {
    assert SkipSpaces(s, i, ws) == i;
    assert SkipSpaces(s, i + |key|, ws) == i + |key|;
    assert SkipSpaces(s, i + |key| + 1, ws) == i + |key| + 1;
  }

  /** `\\"\s*\}` with no whitespace in the gap. */
  lemma ClosesAt(s: string, p: nat, ws: CharClass)
    requires StopsAtPunctuation(ws)
    requires p + 2 < |s| && HasAt(s, p, Quote) && HasAt(s, p + 2, "}") && s[p + 2] == '}'
    ensures Closes(s, p, ws)
  {
    assert SkipSpaces(s, p + 2, ws) == p + 2;
  }

  /** The head of the escaped form, character by character. */
  lemma HeadLandmarks(s: string)
    requires |CallHead| <= |s| && forall k :: 0 <= k < |CallHead| ==> s[k] == CallHead[k]
    ensures HasAt(s, 0, OpenBrace) && HasAt(s, 1, ToolKey) && HasAt(s, 9, ":") && HasAt(s, 10, Quote)
    ensures s[1] == '\\' && s[9] == ':' && s[10] == '\\'
  {
    HeadKeyLandmarks(s);
    HeadValueLandmarks(s);
  }

  lemma HeadKeyLandmarks(s: string)
    requires |CallHead| <= |s| && forall k :: 0 <= k < |CallHead| ==> s[k] == CallHead[k]
    ensures HasAt(s, 0, OpenBrace) && HasAt(s, 1, ToolKey) && s[1] == '\\'
  {
    assert CallHead[0..1] == OpenBrace && CallHead[1..9] == ToolKey;
    LiteralWithin(s, 0, CallHead, 0, OpenBrace);
    LiteralWithin(s, 0, CallHead, 1, ToolKey);
  }

  lemma HeadValueLandmarks(s: string)
    requires |CallHead| <= |s| && forall k :: 0 <= k < |CallHead| ==> s[k] == CallHead[k]
    ensures HasAt(s, 9, ":") && HasAt(s, 10, Quote) && s[9] == ':' && s[10] == '\\'
  {
    assert CallHead[9..10] == ":";
    LiteralWithin(s, 0, CallHead, 9, ":");
    assert CallHead[10..12] == Quote;
    LiteralWithin(s, 0, CallHead, 10, Quote);
  }

  /** The middle of the escaped form at d, character by character. */
  lemma MiddleLandmarks(s: string, d: nat)
    requires d + |CallMiddle| <= |s| && forall k :: 0 <= k < |CallMiddle| ==> s[d + k] == CallMiddle[k]
    ensures HasAt(s, d, Quote) && HasAt(s, d + 2, ",") && HasAt(s, d + 3, InputKey)
    ensures HasAt(s, d + 12, ":") && HasAt(s, d + 13, Quote)
    ensures s[d] == '\\' && s[d + 2] == ',' && s[d + 3] == '\\' && s[d + 12] == ':' && s[d + 13] == '\\'
  {
    MiddleKeyLandmarks(s, d);
    MiddleValueLandmarks(s, d);
  }

  lemma MiddleKeyLandmarks(s: string, d: nat)
    requires d + |CallMiddle| <= |s| && forall k :: 0 <= k < |CallMiddle| ==> s[d + k] == CallMiddle[k]
    ensures HasAt(s, d, Quote) && HasAt(s, d + 2, ",") && HasAt(s, d + 3, InputKey)
    ensures s[d] == '\\' && s[d + 2] == ',' && s[d + 3] == '\\'
  {
    assert CallMiddle[0..2] == Quote && CallMiddle[2..3] == "," && CallMiddle[3..12] == InputKey;
    LiteralWithin(s, d, CallMiddle, 0, Quote);
    LiteralWithin(s, d, CallMiddle, 2, ",");
    LiteralWithin(s, d, CallMiddle, 3, InputKey);
  }

  lemma MiddleValueLandmarks(s: string, d: nat)
    requires d + |CallMiddle| <= |s| && forall k :: 0 <= k < |CallMiddle| ==> s[d + k] == CallMiddle[k]
    ensures HasAt(s, d + 12, ":") && HasAt(s, d + 13, Quote) && s[d + 12] == ':' && s[d + 13] == '\\'
  {
    assert CallMiddle[12..13] == ":" && CallMiddle[13..15] == Quote;
    LiteralWithin(s, d, CallMiddle, 12, ":");
    LiteralWithin(s, d, CallMiddle, 13, Quote);
  }

  /** The tail of the escaped form at p, character by character. */
  lemma TailLandmarks(s: string, p: nat)
    requires p + |CallTail| <= |s| && forall k :: 0 <= k < |CallTail| ==> s[p + k] == CallTail[k]
    ensures HasAt(s, p, Quote) && HasAt(s, p + 2, "}") && s[p + 2] == '}'
  {
    assert CallTail[0..2] == Quote && CallTail[2..3] == "}";
    LiteralWithin(s, p, CallTail, 0, Quote);
    LiteralWithin(s, p, CallTail, 2, "}");
  }

  /** A text holding `src` at i holds each slice of `src` at the matching offset. */
  lemma LiteralWithin(s: string, i: nat, src: string, off: nat, lit: string)
    requires i + |src| <= |s| && forall k :: 0 <= k < |src| ==> s[i + k] == src[k]
    requires off + |lit| <= |src| && src[off..off + |lit|] == lit
    ensures HasAt(s, i + off, lit)
    ensures lit != [] ==> s[i + off] == lit[0]
  {
    forall k | 0 <= k < |lit| ensures s[i + off..i + off + |lit|][k] == lit[k] {
      assert s[i + off..i + off + |lit|][k] == s[i + (off + k)];
      assert src[off..off + |lit|][k] == src[off + k];
    }
    if lit != [] {
      assert s[i + off..i + off + |lit|][0] == s[i + off];
    }
  }

  /** Where each piece of the escaped form sits. */
  lemma PiecesOf(name: string, input: string)
    ensures var s := EscapedCall(name, input);
      var d := |CallHead| + |name|;
      var v := d + |CallMiddle|;
      var p := v + |input|;
      && |s| == p + |CallTail|
      && (forall k :: 0 <= k < |CallHead| ==> s[k] == CallHead[k])
      && (forall k :: 0 <= k < |name| ==> s[|CallHead| + k] == name[k])
      && (forall k :: 0 <= k < |CallMiddle| ==> s[d + k] == CallMiddle[k])
      && (forall k :: 0 <= k < |input| ==> s[v + k] == input[k])
      && (forall k :: 0 <= k < |CallTail| ==> s[p + k] == CallTail[k])
  {
  }

  /** `\s*` stops at the first non-whitespace character at or after i. */
  lemma {:induction false} SkipSpacesStops(s: string, i: nat, ws: CharClass)
    requires i <= |s|
    ensures var j := SkipSpaces(s, i, ws);
      && (forall k :: i <= k < j ==> ws(s[k]))
      && (j < |s| ==> !ws(s[j]))
    decreases |s| - i
  {
    if i < |s| && ws(s[i]) {
      SkipSpacesStops(s, i + 1, ws);
    }
  }

  /** The greedy name run stops at the first backslash or quote. */
  lemma {:induction false} NameEndStops(s: string, i: nat)
    requires i <= |s|
    ensures var j := NameEnd(s, i);
      && (forall k :: i <= k < j ==> NameChar(s[k]))
      && (j < |s| ==> !NameChar(s[j]))
    decreases |s| - i
  {
    if i < |s| && NameChar(s[i]) {
      NameEndStops(s, i + 1);
    }
  }

  /** The lazy input run ends at the first position where the tail matches, and fails
      only when the tail matches nowhere after p. */
  lemma {:induction false} InputEndLeast(s: string, p: nat, ws: CharClass)
    requires p <= |s|
    ensures var q := InputEnd(s, p, ws);
      && (q.Some? ==> Closes(s, q.value, ws) && forall k :: p <= k < q.value ==> !Closes(s, k, ws))
      && (q.None? ==> forall k :: p <= k <= |s| ==> !Closes(s, k, ws))
    decreases |s| - p
  {
    if !Closes(s, p, ws) && p < |s| {
      InputEndLeast(s, p + 1, ws);
    }
  }

  lemma {:induction false} NameRun(s: string, i: nat, d: nat)
    requires i <= d < |s| && (forall k :: i <= k < d ==> NameChar(s[k])) && !NameChar(s[d])
    ensures NameEnd(s, i) == d
    decreases d - i
  {
    if i < d {
      NameRun(s, i + 1, d);
    }
  }

  lemma {:induction false} InputRun(s: string, i: nat, p: nat, ws: CharClass)
    requires i <= p <= |s| && (forall k :: i <= k < p ==> s[k] != '\\') && Closes(s, p, ws)
    ensures InputEnd(s, i, ws) == Some(p)
    decreases p - i
  {
    if i < p {
      assert !HasAt(s, i, Quote) by {
        assert s[i] != '\\';
      }
      InputRun(s, i + 1, p, ws);
    }
  }
}

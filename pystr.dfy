/** The Python string operations the assistant backend relies on, with the meaning
    CPython gives them: `in`, `startswith`, `endswith`, `find`, `split(sep)`, `split()`,
    `join`, `replace`, `strip` and the casing methods.  Casing is modelled on ASCII
    letters only. */
module PyStr {
  import opened Wrappers

  // ---------------------------------------------------------------- whitespace

  /** `str.isspace` for one character: the characters `strip()` and `split()` remove. */
  predicate IsSpace(c: char) {
    c == ' ' || ('\t' <= c <= '\r') || ('\U{1C}' <= c <= '\U{1F}')
    || c == '\U{85}' || c == '\U{A0}' || c == '\U{1680}' || ('\U{2000}' <= c <= '\U{200A}')
    || c == '\U{2028}' || c == '\U{2029}' || c == '\U{202F}' || c == '\U{205F}' || c == '\U{3000}'
  }

  /** The number of whitespace characters `s` starts with. */
  function LeadingSpaces(s: string): (n: nat)
    ensures n <= |s|
    ensures forall i :: 0 <= i < n ==> IsSpace(s[i])
    ensures n < |s| ==> !IsSpace(s[n])
    decreases |s|
  {
    if s != [] && IsSpace(s[0]) then 1 + LeadingSpaces(s[1..]) else 0
  }

  /** The length of `s` without the whitespace it ends with. */
  function TextEnd(s: string): (n: nat)
    ensures n <= |s|
    ensures forall i :: n <= i < |s| ==> IsSpace(s[i])
    ensures n > 0 ==> !IsSpace(s[n - 1])
    decreases |s|
  {
    if s != [] && IsSpace(s[|s| - 1]) then TextEnd(s[..|s| - 1]) else |s|
  }

  /** `r` is the piece of `s` starting at `a`, and everything around it is whitespace. */
  predicate TrimmedAt(s: string, a: nat, r: string) {
    && a + |r| <= |s| && r == s[a..a + |r|]
    && (forall i :: 0 <= i < a ==> IsSpace(s[i]))
    && (forall i :: a + |r| <= i < |s| ==> IsSpace(s[i]))
  }

  /** `s.strip()`: `s` with its leading and trailing whitespace removed. */
  function Strip(s: string): (r: string)
    ensures exists a :: TrimmedAt(s, a, r)
    ensures r == [] || (!IsSpace(r[0]) && !IsSpace(r[|r| - 1]))
  {
    var a := LeadingSpaces(s);
    var b := TextEnd(s);
    if a <= b then
      assert TrimmedAt(s, a, s[a..b]);
      s[a..b]
    else
      assert TrimmedAt(s, |s|, []);
      []
  }

  /** A string is stripped when it neither starts nor ends with whitespace. */
  predicate Stripped(s: string) {
    s == [] || (!IsSpace(s[0]) && !IsSpace(s[|s| - 1]))
  }

  lemma StripOfStripped(s: string)
    requires Stripped(s)
    ensures Strip(s) == s
  {
  }

  lemma StripIdempotent(s: string)
    ensures Strip(Strip(s)) == Strip(s)
  {
    StripOfStripped(Strip(s));
  }

  // ---------------------------------------------------------------- substrings

  /** `sub` occurs in `s` starting at index `k`. */
  predicate OccursAt(s: string, sub: string, k: nat) {
    k + |sub| <= |s| && s[k..k + |sub|] == sub
  }

  /** `s.find(sub, k)`: the first occurrence of `sub` at or after `k`, if any. */
  function IndexFrom(s: string, sub: string, k: nat): (r: Option<nat>)
    requires k <= |s|
    ensures r.Some? ==>
      && k <= r.value && OccursAt(s, sub, r.value)
      && forall j :: k <= j < r.value ==> !OccursAt(s, sub, j)
    ensures r.None? ==> forall j :: k <= j <= |s| ==> !OccursAt(s, sub, j)
    decreases |s| - k
  {
    if OccursAt(s, sub, k) then Some(k)
    else if k == |s| then None
    else IndexFrom(s, sub, k + 1)
  }

  /** `s.find(sub)`: the first occurrence of `sub` in `s`, if any. */
  function IndexOf(s: string, sub: string): Option<nat> {
    IndexFrom(s, sub, 0)
  }

  /** Python's `sub in s`. */
  predicate Contains(s: string, sub: string) {
    IndexOf(s, sub).Some?
  }

  lemma ContainsIff(s: string, sub: string)
    ensures Contains(s, sub) <==> exists k :: 0 <= k <= |s| && OccursAt(s, sub, k)
  {
  }

  /** `s.startswith(p)`. */
  predicate StartsWith(s: string, p: string) {
    |p| <= |s| && s[..|p|] == p
  }

  /** `s.endswith(p)`. */
  predicate EndsWith(s: string, p: string) {
    |p| <= |s| && s[|s| - |p|..] == p
  }

  /** An occurrence of `sub` inside a piece of `s` is an occurrence in `s`. */
  lemma ContainsSlice(s: string, sub: string, a: nat, b: nat)
    requires a <= b <= |s|
    requires Contains(s[a..b], sub)
    ensures Contains(s, sub)
  {
    var k := IndexOf(s[a..b], sub).value;
    assert OccursAt(s[a..b], sub, k);
    assert k + |sub| <= b - a;
    assert s[a..b][k..k + |sub|] == s[a + k..a + k + |sub|];
    assert OccursAt(s, sub, a + k);
  }

  // ---------------------------------------------------------------- split / join

  /** `s.split(sep)` for a non-empty separator: the pieces between the occurrences of
      `sep`, found left to right without overlap. */
  function Split(s: string, sep: string): (r: seq<string>)
    requires sep != []
    ensures |r| >= 1
    ensures |r| >= 2 <==> Contains(s, sep)
    decreases |s|
  {
    match IndexOf(s, sep)
    case None => [s]
    case Some(i) => [s[..i]] + Split(s[i + |sep|..], sep)
  }

  /** `sep.join(parts)`. */
  function Join(parts: seq<string>, sep: string): string {
    if |parts| == 0 then ""
    else if |parts| == 1 then parts[0]
    else parts[0] + sep + Join(parts[1..], sep)
  }

  /** `s.replace(target, repl)` for a non-empty `target`: every occurrence, left to right. */
  function Replace(s: string, target: string, repl: string): string
    requires target != []
  {
    Join(Split(s, target), repl)
  }

  /** Joining the pieces of a split with the same separator gives back the string. */
  lemma {:induction false} JoinSplit(s: string, sep: string)
    requires sep != []
    ensures Join(Split(s, sep), sep) == s
    decreases |s|
  {
    match IndexOf(s, sep)
    case None =>
    case Some(i) =>
      var rest := s[i + |sep|..];
      var pieces := Split(rest, sep);
      JoinSplit(rest, sep);
      assert Split(s, sep) == [s[..i]] + pieces;
      assert ([s[..i]] + pieces)[1..] == pieces;
      assert Join([s[..i]] + pieces, sep) == s[..i] + sep + rest;
      assert OccursAt(s, sep, i);
      assert s == s[..i] + s[i..i + |sep|] + rest;
  }

  /** No piece of a split contains the separator. */
  lemma {:induction false} SplitPiecesFree(s: string, sep: string, k: nat)
    requires sep != [] && k < |Split(s, sep)|
    ensures !Contains(Split(s, sep)[k], sep)
    decreases |s|
  {
    match IndexOf(s, sep)
    case None =>
    case Some(i) =>
      if k == 0 {
        var head := s[..i];
        forall j | 0 <= j <= |head|
          ensures !OccursAt(head, sep, j)
        {
          if j + |sep| <= |head| {
            assert IndexFrom(s, sep, 0) == Some(i);
            assert !OccursAt(s, sep, j);
            assert head[j..j + |sep|] == s[j..j + |sep|];
          }
        }
        ContainsIff(head, sep);
      } else {
        SplitPiecesFree(s[i + |sep|..], sep, k - 1);
      }
  }

  /** The text before the first occurrence: `s.split(sep)[0]`. */
  lemma SplitHead(s: string, sep: string)
    requires sep != []
    ensures IndexOf(s, sep).None? ==> Split(s, sep)[0] == s
    ensures IndexOf(s, sep).Some? ==> Split(s, sep)[0] == s[..IndexOf(s, sep).value]
  {
  }

  /** When the first occurrence of `sep` in `a + sep + b` is the one after `a`, splitting
      peels `a` off. */
  lemma SplitAfterFirst(a: string, sep: string, b: string)
    requires sep != []
    requires forall k :: 0 <= k < |a| ==> !OccursAt(a + sep + b, sep, k)
    ensures Split(a + sep + b, sep) == [a] + Split(b, sep)
  {
    var s := a + sep + b;
    assert s[|a|..|a| + |sep|] == sep;
    assert OccursAt(s, sep, |a|);
    assert IndexOf(s, sep) == Some(|a|);
    assert s[..|a|] == a;
    assert s[|a| + |sep|..] == b;
  }

  /** A string without the first character of `sep` does not contain `sep` and splits
      into itself alone. */
  lemma LeadAbsent(s: string, sep: string)
    requires sep != []
    requires forall i :: 0 <= i < |s| ==> s[i] != sep[0]
    ensures !Contains(s, sep) && Split(s, sep) == [s]
  {
    forall k | 0 <= k <= |s|
      ensures !OccursAt(s, sep, k)
    {
      if k + |sep| <= |s| {
        assert s[k..k + |sep|][0] == s[k];
      }
    }
    ContainsIff(s, sep);
  }

  /** A string lacking some character of `sub` does not contain `sub`. */
  lemma AbsentPart(s: string, sub: string, j: nat)
    requires j < |sub|
    requires forall i :: 0 <= i < |s| ==> s[i] != sub[j]
    ensures !Contains(s, sub)
  {
    forall k | 0 <= k <= |s|
      ensures !OccursAt(s, sub, k)
    {
      if k + |sub| <= |s| {
        assert s[k..k + |sub|][j] == s[k + j];
      }
    }
    ContainsIff(s, sub);
  }

  /** Removing a leading `sep` from `sep + rest`, when `rest` lacks `sep`'s first
      character, leaves `rest`. */
  lemma {:induction false} RemoveLeading(sep: string, rest: string)
    requires sep != []
    requires forall i :: 0 <= i < |rest| ==> rest[i] != sep[0]
    ensures Replace(sep + rest, sep, "") == rest
  {
    assert sep + rest == [] + sep + rest;
    SplitAfterFirst([], sep, rest);
    LeadAbsent(rest, sep);
    assert Split(sep + rest, sep) == [[], rest];
    assert [[], rest][1..] == [rest];
    assert Join([[], rest], "") == [] + "" + Join([rest], "");
  }

  /** Removing every `sep` from `sep + b` removes the leading one and those of `b`. */
  lemma ReplaceLeading(sep: string, b: string)
    requires sep != []
    ensures Replace(sep + b, sep, "") == Replace(b, sep, "")
  {
    assert sep + b == [] + sep + b;
    SplitAfterFirst([], sep, b);
    var parts := Split(b, sep);
    assert ([[]] + parts)[1..] == parts;
  }

  /** Removing every `sep` from `a + b` leaves `a` in front when no occurrence of `sep`
      starts inside `a`. */
  /** Removing `sep` from `pre + a + b`, where `pre` is nothing or `sep` itself and no
      occurrence starts inside `a`, keeps `a` and works on `b` alone. */
  lemma ReplaceAfterOptionalLead(pre: string, a: string, sep: string, b: string)
    requires sep != []
    requires pre == [] || pre == sep
    requires forall k :: 0 <= k < |a| ==> !OccursAt(a + b, sep, k)
    ensures Replace(pre + a + b, sep, "") == a + Replace(b, sep, "")
  {
    ReplaceKeepsPrefix(a, sep, b);
    if pre == sep {
      assert pre + a + b == sep + (a + b);
      ReplaceLeading(sep, a + b);
    } else {
      assert pre + a + b == a + b;
    }
  }

  lemma ReplaceKeepsPrefix(a: string, sep: string, b: string)
    requires sep != []
    requires forall k :: 0 <= k < |a| ==> !OccursAt(a + b, sep, k)
    ensures Replace(a + b, sep, "") == a + Replace(b, sep, "")
  {
    match IndexOf(a + b, sep)
    case None =>
      ShiftNoOccurrence(a, sep, b);
    case Some(i) =>
      FirstOccurrenceShift(a, sep, b, i);
      JoinAfterHead(a + b[..i - |a|], Split(b[i - |a| + |sep|..], sep));
      JoinAfterHead(b[..i - |a|], Split(b[i - |a| + |sep|..], sep));
  }

  /** With no occurrence of `sep` in `a + b`, there is none in `b`. */
  lemma ShiftNoOccurrence(a: string, sep: string, b: string)
    requires sep != [] && IndexOf(a + b, sep).None?
    ensures IndexOf(b, sep).None?
  {
    var s := a + b;
    if IndexOf(b, sep).Some? {
      var j := IndexOf(b, sep).value;
      assert s[|a| + j..|a| + j + |sep|] == b[j..j + |sep|];
      assert OccursAt(s, sep, |a| + j);
      assert false;
    }
  }

  /** The first occurrence in `a + b`, when it lies after `a`, is the first one in `b`
      shifted by `|a|`; so both splits share their tail. */
  lemma FirstOccurrenceShift(a: string, sep: string, b: string, i: nat)
    requires sep != [] && IndexOf(a + b, sep) == Some(i)
    requires forall k :: 0 <= k < |a| ==> !OccursAt(a + b, sep, k)
    ensures |a| <= i && i - |a| + |sep| <= |b|
    ensures Split(a + b, sep) == [a + b[..i - |a|]] + Split(b[i - |a| + |sep|..], sep)
    ensures Split(b, sep) == [b[..i - |a|]] + Split(b[i - |a| + |sep|..], sep)
  {
    ShiftedFirst(a, sep, b, i);
    var s := a + b;
    var j := i - |a|;
    assert s[i + |sep|..] == b[j + |sep|..] && s[..i] == a + b[..j];
    SplitAtFirst(s, sep, i);
    SplitAtFirst(b, sep, j);
  }

  /** Splitting peels off the text before the first occurrence. */
  lemma SplitAtFirst(s: string, sep: string, i: nat)
    requires sep != [] && IndexOf(s, sep) == Some(i)
    ensures i + |sep| <= |s| && Split(s, sep) == [s[..i]] + Split(s[i + |sep|..], sep)
  {
    SplitUnfold(s, sep);
  }

  /** One step of `Split`. */
  lemma SplitUnfold(s: string, sep: string)
    requires sep != []
    ensures IndexOf(s, sep).Some? ==> IndexOf(s, sep).value + |sep| <= |s|
    ensures Split(s, sep) == match IndexOf(s, sep)
      case None => [s]
      case Some(k) => [s[..k]] + Split(s[k + |sep|..], sep)
  {
  }


  /** An occurrence found after `a` in `a + b` is the first one in `b`, shifted. */
  lemma ShiftedFirst(a: string, sep: string, b: string, i: nat)
    requires sep != [] && IndexOf(a + b, sep) == Some(i)
    requires forall k :: 0 <= k < |a| ==> !OccursAt(a + b, sep, k)
    ensures |a| <= i && i - |a| + |sep| <= |b| && IndexOf(b, sep) == Some(i - |a|)
  {
    var s := a + b;
    var j := i - |a|;
    assert s[i..i + |sep|] == b[j..j + |sep|];
    forall j' | 0 <= j' < j
      ensures !OccursAt(b, sep, j')
    {
      if OccursAt(b, sep, j') {
        assert s[|a| + j'..|a| + j' + |sep|] == b[j'..j' + |sep|];
        assert OccursAt(s, sep, |a| + j');
      }
    }
    assert OccursAt(b, sep, j);
    match IndexOf(b, sep)
    case None =>
      assert false;
    case Some(r) =>
      assert r == j;
  }

  /** Joining with "" a head and at least one more piece. */
  lemma JoinAfterHead(head: string, parts: seq<string>)
    requires |parts| >= 1
    ensures Join([head] + parts, "") == head + Join(parts, "")
  {
    var all := [head] + parts;
    assert |all| >= 2 && all[0] == head && all[1..] == parts;
    assert Join(all, "") == all[0] + "" + Join(all[1..], "");
    assert head + "" == head;
  }

  /** A marker at the head of a stripped text holding no further copy of it: the line
      is stripped already, and splitting at the marker gives an empty head and the text. */
  lemma MarkerHead(marker: string, e: string)
    requires marker != [] && !IsSpace(marker[0]) && !IsSpace(marker[|marker| - 1])
    requires Stripped(e) && !Contains(e, marker)
    ensures Strip(marker + e) == marker + e
    ensures Split(marker + e, marker) == [[], e]
  {
    StrippedAfterHead(marker, e);
    assert marker + e == [] + marker + e;
    SplitAfterFirst([], marker, e);
    assert Split(e, marker) == [e];
  }

  /** A stripped text behind a head that starts and ends without whitespace stays stripped. */
  lemma StrippedAfterHead(head: string, e: string)
    requires head != [] && !IsSpace(head[0]) && !IsSpace(head[|head| - 1])
    requires Stripped(e)
    ensures Strip(head + e) == head + e
  {
    var line := head + e;
    assert line[0] == head[0];
    if e != [] {
      assert line[|line| - 1] == e[|e| - 1];
    } else {
      assert line == head;
    }
    StripOfStripped(line);
  }

  /** Splitting at a one-character separator peels off the text before its first
      occurrence. */
  lemma SplitAtChar(a: string, c: char, b: string)
    requires forall i :: 0 <= i < |a| ==> a[i] != c
    ensures Split(a + [c] + b, [c]) == [a] + Split(b, [c])
  {
    var s := a + [c] + b;
    forall k | 0 <= k < |a|
      ensures !OccursAt(s, [c], k)
    {
      assert s[k] == a[k];
      assert s[k..k + 1][0] == s[k];
    }
    SplitAfterFirst(a, [c], b);
  }

  /** Appending a separator and more text after `a` leaves the first piece of `a`
      unchanged. */
  lemma SplitHeadExtend(a: string, c: char, b: string)
    ensures Split(a + [c] + b, [c])[0] == Split(a, [c])[0]
  {
    match IndexOf(a, [c])
    case None =>
      CharAbsentBefore(a, c, |a|);
      SplitAtChar(a, c, b);
      LeadAbsent(a, [c]);
    case Some(i) =>
      CharAbsentBefore(a, c, i);
      SplitHeadAt(a, c, b, i);
  }

  /** No one-character occurrence before `n` means no such character before `n`. */
  lemma CharAbsentBefore(a: string, c: char, n: nat)
    requires n <= |a|
    requires forall j :: 0 <= j < n ==> !OccursAt(a, [c], j)
    ensures forall j :: 0 <= j < n ==> a[j] != c
  {
    forall j | 0 <= j < n
      ensures a[j] != c
    {
      assert !OccursAt(a, [c], j);
      assert a[j..j + 1] == [a[j]];
    }
  }

  lemma SplitHeadAt(a: string, c: char, b: string, i: nat)
    requires i < |a| && a[i] == c
    requires forall j :: 0 <= j < i ==> a[j] != c
    ensures Split(a + [c] + b, [c])[0] == Split(a, [c])[0] == a[..i]
  {
    var head := a[..i];
    var tail := a[i + 1..];
    assert a == head + [c] + tail;
    assert a + [c] + b == head + [c] + (tail + [c] + b);
    SplitAtChar(head, c, tail);
    SplitAtChar(head, c, tail + [c] + b);
  }

  /** Replacing one character by another maps the string pointwise. */
  lemma {:induction false} ReplaceChar(s: string, c: char, d: char)
    ensures |Replace(s, [c], [d])| == |s|
    ensures forall i :: 0 <= i < |s| ==> Replace(s, [c], [d])[i] == if s[i] == c then d else s[i]
    decreases |s|
  {
    match IndexOf(s, [c])
    case None =>
      forall j | 0 <= j < |s|
        ensures s[j] != c
      {
        assert !OccursAt(s, [c], j);
        assert s[j..j + 1] == [s[j]];
      }
    case Some(i) =>
      var rest := s[i + 1..];
      ReplaceChar(rest, c, d);
      var parts := Split(rest, [c]);
      assert Split(s, [c]) == [s[..i]] + parts;
      assert ([s[..i]] + parts)[1..] == parts;
      var r := s[..i] + [d] + Join(parts, [d]);
      assert Replace(s, [c], [d]) == r;
      assert OccursAt(s, [c], i);
      assert s[i..i + 1] == [s[i]];
      forall j | 0 <= j < |s|
        ensures r[j] == if s[j] == c then d else s[j]
      {
        if j < i {
          assert !OccursAt(s, [c], j);
          assert s[j..j + 1] == [s[j]];
        } else if j > i {
          assert r[j] == Join(parts, [d])[j - i - 1];
          assert s[j] == rest[j - i - 1];
        }
      }
  }

  // ---------------------------------------------------------------- words

  /** The number of leading characters of `s` that are not whitespace. */
  function WordLen(s: string): (n: nat)
    ensures n <= |s|
    ensures forall i :: 0 <= i < n ==> !IsSpace(s[i])
    ensures n < |s| ==> IsSpace(s[n])
    decreases |s|
  {
    if s == [] || IsSpace(s[0]) then 0 else 1 + WordLen(s[1..])
  }

  /** `s.split()` with no argument: the maximal runs of non-whitespace characters. */
  function Words(s: string): seq<string>
    decreases |s|
  {
    if s == [] then []
    else if IsSpace(s[0]) then Words(s[1..])
    else
      var n := WordLen(s);
      [s[..n]] + Words(s[n..])
  }

  /** A string with some non-whitespace character has at least one word. */
  lemma {:induction false} WordsNonEmpty(s: string, i: nat)
    requires i < |s| && !IsSpace(s[i])
    ensures |Words(s)| >= 1
    decreases |s|
  {
    if IsSpace(s[0]) {
      WordsNonEmpty(s[1..], i - 1);
    }
  }

  /** For a non-empty stripped string, `len(s.split()) >= 2` holds exactly when some
      whitespace character occurs inside it. */
  lemma TwoWordsIff(s: string)
    requires s != [] && Stripped(s)
    ensures |Words(s)| >= 2 <==> exists i :: 0 <= i < |s| && IsSpace(s[i])
  {
    var n := WordLen(s);
    assert Words(s) == [s[..n]] + Words(s[n..]);
    if exists i :: 0 <= i < |s| && IsSpace(s[i]) {
      assert n < |s|;
      WordsNonEmpty(s[n..], |s| - 1 - n);
    } else {
      assert n == |s|;
    }
  }

  // ---------------------------------------------------------------- casing

  predicate IsUpperAscii(c: char) { 'A' <= c <= 'Z' }
  predicate IsLowerAscii(c: char) { 'a' <= c <= 'z' }

  /** A cased character in the sense of `str.title`: here an ASCII letter. */
  predicate IsCased(c: char) { IsUpperAscii(c) || IsLowerAscii(c) }

  function LowerChar(c: char): char {
    if IsUpperAscii(c) then (c as int + 32) as char else c
  }

  function UpperChar(c: char): char {
    if IsLowerAscii(c) then (c as int - 32) as char else c
  }

  /** `s.lower()`. */
  function Lower(s: string): (r: string)
    ensures |r| == |s| && forall i :: 0 <= i < |s| ==> r[i] == LowerChar(s[i])
  {
    if s == [] then [] else [LowerChar(s[0])] + Lower(s[1..])
  }

  /** `s.upper()`. */
  function Upper(s: string): (r: string)
    ensures |r| == |s| && forall i :: 0 <= i < |s| ==> r[i] == UpperChar(s[i])
  {
    if s == [] then [] else [UpperChar(s[0])] + Upper(s[1..])
  }

  /** `str.title` from a position whose predecessor is cased (`prevCased`) or not. */
  function TitleFrom(s: string, prevCased: bool): (r: string)
    ensures |r| == |s|
  {
    if s == [] then []
    else [if prevCased then LowerChar(s[0]) else UpperChar(s[0])] + TitleFrom(s[1..], IsCased(s[0]))
  }

  /** `s.title()`: each cased character is upper-cased when it starts a run of cased
      characters and lower-cased otherwise; other characters are kept. */
  function Title(s: string): (r: string)
    ensures |r| == |s|
  {
    TitleFrom(s, false)
  }

  lemma {:induction false} TitleFromAt(s: string, prevCased: bool, i: nat)
    requires i < |s|
    ensures TitleFrom(s, prevCased)[i]
      == if (if i == 0 then prevCased else IsCased(s[i - 1])) then LowerChar(s[i]) else UpperChar(s[i])
    decreases |s|
  {
    if i > 0 {
      TitleFromAt(s[1..], IsCased(s[0]), i - 1);
    }
  }

  /** What `Title` does to the character at each position. */
  lemma TitleAt(s: string, i: nat)
    requires i < |s|
    ensures Title(s)[i] == if i > 0 && IsCased(s[i - 1]) then LowerChar(s[i]) else UpperChar(s[i])
  {
    TitleFromAt(s, false, i);
  }

  /** Title-casing keeps every character that is not a letter. */
  lemma TitleKeepsUncased(s: string, i: nat)
    requires i < |s| && !IsCased(s[i])
    ensures Title(s)[i] == s[i]
  {
    TitleAt(s, i);
  }
}

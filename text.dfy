/** Python's string primitives as the backend applies them: str.isspace, lower(), strip(),
    split() with and without a separator (and re.split on a character class), ' '.join and
    the substring test `sub in s`. */
module Text {
  import opened Seqs

  /** str.isspace() on one character: the ASCII controls TAB..CR and FS..US, the space, and
      the Unicode spaces and separators. */
  predicate IsSpace(c: char)
  {
    ('\t' <= c <= '\r') || ('\U{1C}' <= c <= ' ') || c == '\U{85}' || c == '\U{A0}'
    || c == '\U{1680}' || ('\U{2000}' <= c <= '\U{200A}') || c == '\U{2028}' || c == '\U{2029}'
    || c == '\U{202F}' || c == '\U{205F}' || c == '\U{3000}'
  }

  predicate AllSpace(s: string)
  {
    forall k :: 0 <= k < |s| ==> IsSpace(s[k])
  }

  function LowerChar(c: char): char
  {
    if 'A' <= c <= 'Z' then (c as int - 'A' as int + 'a' as int) as char else c
  }

  /** str.lower() on the ASCII letters; every other character is kept. */
  function Lower(s: string): (r: string)
    ensures |r| == |s|
  {
    seq(|s|, k requires 0 <= k < |s| => LowerChar(s[k]))
  }

  /** str.lstrip(): drop the leading whitespace. */
  function TrimStart(s: string): (r: string)
    ensures |r| <= |s| && r == s[|s| - |r|..]
    ensures AllSpace(s[..|s| - |r|])
    ensures r != [] ==> !IsSpace(r[0])
  {
    if s != [] && IsSpace(s[0]) then TrimStart(s[1..]) else s
  }

  /** str.rstrip(): drop the trailing whitespace. */
  function TrimEnd(s: string): (r: string)
    ensures |r| <= |s| && r == s[..|r|]
    ensures AllSpace(s[|r|..])
    ensures r != [] ==> !IsSpace(r[|r| - 1])
  {
    if s != [] && IsSpace(s[|s| - 1]) then
      var t := s[..|s| - 1];
      var r := TrimEnd(t);
      assert t[..|r|] == s[..|r|];
      assert s[|r|..] == t[|r|..] + [s[|s| - 1]];
      r
    else s
  }

  /** str.strip(): the input without its leading and trailing whitespace. It is empty exactly
      when the input is all whitespace, and otherwise starts and ends with a non-space. */
  function Strip(s: string): (r: string)
    ensures |r| <= |s|
    ensures r == [] <==> AllSpace(s)
    ensures r != [] ==> !IsSpace(r[0]) && !IsSpace(r[|r| - 1])
  {
    var t := TrimStart(s);
    var r := TrimEnd(t);
    assert r != [] ==> r[0] == t[0];
    assert AllSpace(s) ==> t == [] by {
      if t != [] { assert t[0] == s[|s| - |t|]; }
    }
    assert !AllSpace(s) ==> t != [] by {
      if t == [] {
        assert s[..|s|] == s;
      }
    }
    r
  }

  /** The strip of s is a slice of s. */
  lemma StripIsSlice(s: string) returns (i: nat)
    ensures i + |Strip(s)| <= |s| && Strip(s) == s[i..i + |Strip(s)|]
  {
    var t := TrimStart(s);
    i := |s| - |t|;
    assert Strip(s) == t[..|Strip(s)|];
  }

  /** A string without surrounding whitespace is its own strip. */
  lemma StripUnchanged(s: string)
    requires s != [] && !IsSpace(s[0]) && !IsSpace(s[|s| - 1])
    ensures Strip(s) == s
  {
    assert TrimStart(s) == s;
  }

  /** Python's `sub in s`: sub is a prefix of s or of some suffix of s. */
  predicate Contains(s: string, sub: string)
    decreases |s|
  {
    sub <= s || (s != [] && Contains(s[1..], sub))
  }

  /** An occurrence at index i is an occurrence. */
  lemma {:induction false} ContainsAt(s: string, i: nat, sub: string)
    requires i <= |s| && sub <= s[i..]
    ensures Contains(s, sub)
    decreases i
  {
    if i > 0 {
      assert s[1..][i - 1..] == s[i..];
      ContainsAt(s[1..], i - 1, sub);
    }
  }

  /** An occurrence has an index. */
  lemma {:induction false} ContainsWitness(s: string, sub: string) returns (i: nat)
    requires Contains(s, sub)
    ensures i <= |s| && sub <= s[i..]
    decreases |s|
  {
    if sub <= s {
      i := 0;
    } else {
      var k := ContainsWitness(s[1..], sub);
      assert s[1..][k..] == s[k + 1..];
      i := k + 1;
    }
  }

  /** Whatever occurs in a slice of s occurs in s. */
  lemma ContainedInSlice(s: string, i: nat, j: nat, sub: string)
    requires i <= j <= |s| && Contains(s[i..j], sub)
    ensures Contains(s, sub)
  {
    var k := ContainsWitness(s[i..j], sub);
    assert sub <= s[i + k..];
    ContainsAt(s, i + k, sub);
  }

  /** The middle piece of a concatenation occurs in it. */
  lemma ContainsMiddle(a: string, b: string, c: string)
    ensures Contains(a + b + c, b)
  {
    ContainsAt(a + b + c, |a|, b);
  }

  /** The tail piece of a concatenation occurs in it. */
  lemma ContainsTail(a: string, b: string)
    ensures Contains(a + b, b)
  {
    ContainsAt(a + b, |a|, b);
  }

  /** Index of the first delimiter in s; |s| when there is none. */
  function DelimIndex(s: string, delims: set<char>): (k: nat)
    ensures k <= |s|
    ensures k < |s| ==> s[k] in delims
    ensures forall j :: 0 <= j < k ==> s[j] !in delims
  {
    if s == [] || s[0] in delims then 0 else 1 + DelimIndex(s[1..], delims)
  }

  /** Length of the run of non-whitespace characters that starts s. */
  function WordLength(s: string): (k: nat)
    ensures k <= |s|
    ensures k < |s| ==> IsSpace(s[k])
    ensures forall j :: 0 <= j < k ==> !IsSpace(s[j])
  {
    if s == [] || IsSpace(s[0]) then 0 else 1 + WordLength(s[1..])
  }

  /** The pieces of `s.split(c)` / `re.split('[...]', s)`: the text between consecutive
      delimiters, including empty pieces. There is always at least one piece and no piece holds
      a delimiter. */
  function Split(s: string, delims: set<char>): (parts: seq<string>)
    ensures |parts| >= 1
    decreases |s|
  {
    var k := DelimIndex(s, delims);
    if k == |s| then [s] else [s[..k]] + Split(s[k + 1..], delims)
  }

  /** `sep.join(parts)`. */
  function Join(parts: seq<string>, sep: string): string
  {
    if parts == [] then ""
    else if |parts| == 1 then parts[0]
    else parts[0] + sep + Join(parts[1..], sep)
  }

  lemma {:induction false} SplitPiecesHaveNoDelimiter(s: string, delims: set<char>)
    ensures forall i, j :: 0 <= i < |Split(s, delims)| && 0 <= j < |Split(s, delims)[i]| ==> Split(s, delims)[i][j] !in delims
    decreases |s|
  {
    var k := DelimIndex(s, delims);
    if k < |s| {
      SplitPiecesHaveNoDelimiter(s[k + 1..], delims);
      assert Split(s, delims) == [s[..k]] + Split(s[k + 1..], delims);
    }
  }

  /** Joining the pieces of a one-character split with that character gives back the input. */
  lemma {:induction false} JoinSplit(s: string, c: char)
    ensures Join(Split(s, {c}), [c]) == s
    decreases |s|
  {
    var k := DelimIndex(s, {c});
    if k < |s| {
      JoinSplit(s[k + 1..], c);
      assert Split(s, {c})[1..] == Split(s[k + 1..], {c});
      assert s == s[..k] + [c] + s[k + 1..];
    }
  }

  /** Splitting a join on a separator that none of the parts holds gives back the parts. */
  lemma {:induction false} SplitJoin(parts: seq<string>, c: char)
    requires |parts| >= 1
    requires forall p :: p in parts ==> c !in p
    ensures Split(Join(parts, [c]), {c}) == parts
  {
    var head := parts[0];
    assert head in parts;
    assert forall j :: 0 <= j < |head| ==> head[j] !in {c};
    if |parts| == 1 {
      assert DelimIndex(head, {c}) == |head|;
    } else {
      var rest := Join(parts[1..], [c]);
      var s := head + [c] + rest;
      assert s[|head|] == c;
      assert forall j :: 0 <= j < |head| ==> s[j] == head[j];
      assert DelimIndex(s, {c}) == |head|;
      assert s[..|head|] == head;
      assert s[|head| + 1..] == rest;
      SplitJoin(parts[1..], c);
    }
  }

  /** A word of `s.split()`: a non-empty run of non-whitespace characters. */
  predicate IsWord(w: string)
  {
    w != [] && forall k :: 0 <= k < |w| ==> !IsSpace(w[k])
  }

  /** `s.split()` with no argument: the maximal runs of non-whitespace characters, in order.
      There are none exactly when s is all whitespace. */
  function Words(s: string): (ws: seq<string>)
    ensures forall w :: w in ws ==> IsWord(w)
    ensures ws == [] <==> AllSpace(s)
    decreases |s|
  {
    if s == [] then []
    else if IsSpace(s[0]) then
      assert AllSpace(s) <==> AllSpace(s[1..]) by {
        assert forall k :: 0 < k < |s| ==> s[k] == s[1..][k - 1];
      }
      Words(s[1..])
    else
      var j := WordLength(s);
      [s[..j]] + Words(s[j..])
  }

  /** Splitting words joined by single spaces gives back the words: `' '.join(ws).split() == ws`. */
  lemma {:induction false} WordsOfJoin(ws: seq<string>)
    requires forall w :: w in ws ==> IsWord(w)
    ensures Words(Join(ws, " ")) == ws
  {
    if ws != [] {
      assert ws[0] in ws;
      if |ws| == 1 {
        WordsOfWord(ws[0], "");
        assert ws[0] + "" == ws[0];
      } else {
        var rest := Join(ws[1..], " ");
        WordsOfJoin(ws[1..]);
        WordsOfWord(ws[0], " " + rest);
        WordsAfterSpace(rest);
        JoinCons(ws, " ");
      }
    }
  }

  lemma JoinCons(parts: seq<string>, sep: string)
    requires |parts| >= 2
    ensures Join(parts, sep) == parts[0] + (sep + Join(parts[1..], sep))
  {
  }

  /** A leading space is skipped. */
  lemma WordsAfterSpace(rest: string)
    ensures Words(" " + rest) == Words(rest)
  {
    assert (" " + rest)[1..] == rest;
  }

  /** A word followed by nothing or by whitespace is the first word. */
  lemma WordsOfWord(w: string, rest: string)
    requires IsWord(w)
    requires rest == [] || IsSpace(rest[0])
    ensures Words(w + rest) == [w] + Words(rest)
  {
    var s := w + rest;
    assert forall j :: 0 <= j < |w| ==> s[j] == w[j];
    assert rest != [] ==> s[|w|] == rest[0];
    assert WordLength(s) == |w|;
    assert s[..|w|] == w && s[|w|..] == rest;
  }

  /** Joining non-empty pieces gives a non-empty string. */
  lemma JoinNonEmpty(parts: seq<string>, sep: string)
    requires parts != [] && parts[0] != []
    ensures Join(parts, sep) != []
  {
  }
}

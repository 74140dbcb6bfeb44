/**
 * The string operations the chat backend relies on, in Python's semantics:
 * `sub in s`, `s.find(sub)`, `s.split(sep)`, `s.split()`, `s.strip()`,
 * `s.lower()` and `s.upper()`. Case mapping and whitespace are the ASCII ones.
 */
module Text {
  import opened Wrappers

  /** Python's `str.isspace` on the ASCII range: tab to carriage return, the
      four separator controls and the space. */
  predicate IsSpace(c: char) {
    9 <= c as int <= 13 || 28 <= c as int <= 32
  }

  predicate IsAsciiLetter(c: char) {
    'a' <= c <= 'z' || 'A' <= c <= 'Z'
  }

  predicate IsDigit(c: char) {
    '0' <= c <= '9'
  }

  function LowerChar(c: char): char {
    if 'A' <= c <= 'Z' then (c as int + 32) as char else c
  }

  function UpperChar(c: char): char {
    if 'a' <= c <= 'z' then (c as int - 32) as char else c
  }

  /** `s.lower()` */
  function Lower(s: string): (r: string)
    ensures |r| == |s|
    ensures forall i :: 0 <= i < |s| ==> r[i] == LowerChar(s[i])
  {
    seq(|s|, i requires 0 <= i < |s| => LowerChar(s[i]))
  }

  /** `s.upper()` */
  function Upper(s: string): (r: string)
    ensures |r| == |s|
    ensures forall i :: 0 <= i < |s| ==> r[i] == UpperChar(s[i])
  {
    seq(|s|, i requires 0 <= i < |s| => UpperChar(s[i]))
  }

  // ---------------------------------------------------------------
  // Substring search
  // ---------------------------------------------------------------

  /** `sub` occurs in `s` starting at index `i`. */
  predicate At(s: string, sub: string, i: int) {
    0 <= i && i + |sub| <= |s| && s[i..i + |sub|] == sub
  }

  function FindFrom(s: string, sub: string, k: nat): (r: Option<nat>)
    decreases |s| - k
    ensures r.Some? ==> k <= r.value && At(s, sub, r.value)
    ensures r.Some? ==> forall j :: k <= j < r.value ==> !At(s, sub, j)
    ensures r.None? ==> forall j :: k <= j ==> !At(s, sub, j)
  {
    if k + |sub| > |s| then None
    else if s[k..k + |sub|] == sub then Some(k)
    else FindFrom(s, sub, k + 1)
  }

  /** `sub in s` */
  predicate Contains(s: string, sub: string) {
    exists i :: 0 <= i <= |s| - |sub| && At(s, sub, i)
  }

  /** `s.find(sub)`: the first index at which `sub` occurs (None for -1). */
  function Find(s: string, sub: string): (r: Option<nat>)
    ensures r.Some? <==> Contains(s, sub)
    ensures r.Some? ==> At(s, sub, r.value) && forall j :: 0 <= j < r.value ==> !At(s, sub, j)
  {
    FindFrom(s, sub, 0)
  }

  lemma ContainsAt(s: string, sub: string, i: int)
    requires At(s, sub, i)
    ensures Contains(s, sub)
  {
  }

  /** A string that occurs inside a slice of `s` occurs in `s`. */
  lemma ContainsInSlice(s: string, a: int, b: int, sub: string)
    requires 0 <= a <= b <= |s|
    requires Contains(s[a..b], sub)
    ensures Contains(s, sub)
  {
    var t := s[a..b];
    var j :| 0 <= j <= |t| - |sub| && At(t, sub, j);
    forall k | 0 <= k < |sub| ensures s[a + j + k] == sub[k] {
      assert t[j..j + |sub|][k] == t[j + k] == s[a + j + k];
    }
    assert s[a + j..a + j + |sub|] == sub;
    ContainsAt(s, sub, a + j);
  }

  /** Every piece of a string that occurs in `s` occurs in `s`. */
  lemma ContainsPiece(s: string, sub: string, a: int, b: int)
    requires 0 <= a <= b <= |sub|
    requires Contains(s, sub)
    ensures Contains(s, sub[a..b])
  {
    var i :| 0 <= i <= |s| - |sub| && At(s, sub, i);
    forall k | a <= k < b ensures s[i + k] == sub[k] {
      assert s[i..i + |sub|][k] == s[i + k];
    }
    assert s[i + a..i + b] == sub[a..b];
    ContainsAt(s, sub[a..b], i + a);
  }

  /** A string lacking some character of `sub` does not contain `sub`. */
  lemma MissingChar(s: string, sub: string, k: nat)
    requires k < |sub|
    requires forall i :: 0 <= i < |s| ==> s[i] != sub[k]
    ensures !Contains(s, sub)
  {
    forall i | 0 <= i <= |s| - |sub| ensures !At(s, sub, i) {
      assert s[i..i + |sub|][k] == s[i + k];
    }
  }

  /** The first entry of `table`, from index `k` on, whose key occurs in
      `t`: a loop over a keyword dictionary that returns on its first hit. */
  function FirstKeyFrom(table: seq<(string, string)>, t: string, k: nat): (r: Option<nat>)
    decreases |table| - k
    ensures r.Some? ==> k <= r.value < |table|
  {
    if k >= |table| then None
    else if Contains(t, table[k].0) then Some(k)
    else FirstKeyFrom(table, t, k + 1)
  }

  /** The entry found has its key in `t` and no earlier entry does; None
      means no key from `k` on occurs. */
  lemma {:induction false} FirstKeyFromFirst(table: seq<(string, string)>, t: string, k: nat)
    ensures var r := FirstKeyFrom(table, t, k);
            (r.Some? ==> Contains(t, table[r.value].0))
            && (r.Some? ==> forall j :: k <= j < r.value ==> !Contains(t, table[j].0))
            && (r.None? ==> forall j :: k <= j < |table| ==> !Contains(t, table[j].0))
    decreases |table| - k
  {
    if k < |table| && !Contains(t, table[k].0) {
      FirstKeyFromFirst(table, t, k + 1);
    }
  }

  /** `any(w in s for w in subs)` */
  predicate ContainsAny(s: string, subs: seq<string>) {
    exists i :: 0 <= i < |subs| && Contains(s, subs[i])
  }

  /** A loop over `subs` that stops at the first one occurring in `s`. */
  method AnyOccurs(s: string, subs: seq<string>) returns (found: bool)
    ensures found <==> ContainsAny(s, subs)
  {
    var j := 0;
    while j < |subs|
      invariant 0 <= j <= |subs|
      invariant forall k :: 0 <= k < j ==> !Contains(s, subs[k])
    {
      if Contains(s, subs[j]) {
        return true;
      }
      j := j + 1;
    }
    return false;
  }

  // ---------------------------------------------------------------
  // s.split(sep)
  // ---------------------------------------------------------------

  /** `s.split(sep)` for a non-empty separator: cut at every non-overlapping
      occurrence, scanning left to right; empty pieces are kept. */
  function Split(s: string, sep: string): (r: seq<string>)
    requires sep != ""
    decreases |s|
  {
    match Find(s, sep)
    case None => [s]
    case Some(i) => [s[..i]] + Split(s[i + |sep|..], sep)
  }

  /** `sep.join(parts)` */
  function Join(parts: seq<string>, sep: string): string {
    if parts == [] then ""
    else if |parts| == 1 then parts[0]
    else parts[0] + sep + Join(parts[1..], sep)
  }

  lemma JoinCons(x: string, rest: seq<string>, sep: string)
    requires rest != []
    ensures Join([x] + rest, sep) == x + sep + Join(rest, sep)
  {
    assert ([x] + rest)[1..] == rest;
  }

  /** Splitting loses nothing and keeps the order: joining the pieces back
      with the separator gives the original string. */
  lemma {:induction false} SplitJoin(s: string, sep: string)
    requires sep != ""
    ensures Split(s, sep) != []
    ensures Join(Split(s, sep), sep) == s
    decreases |s|
  {
    var f := Find(s, sep);
    if f.Some? {
      var i := f.value;
      var rest := s[i + |sep|..];
      SplitJoin(rest, sep);
      JoinCons(s[..i], Split(rest, sep), sep);
      assert s[i..i + |sep|] == sep;
      assert s == s[..i] + s[i..i + |sep|] + rest;
    }
  }

  /** No piece of `s.split(sep)` contains the separator. */
  lemma {:induction false} SplitPiecesAvoidSep(s: string, sep: string)
    requires sep != ""
    ensures forall p :: p in Split(s, sep) ==> !Contains(p, sep)
    decreases |s|
  {
    match Find(s, sep)
    case None =>
    case Some(i) =>
      var rest := s[i + |sep|..];
      SplitPiecesAvoidSep(rest, sep);
      assert Split(s, sep) == [s[..i]] + Split(rest, sep);
      if Contains(s[..i], sep) {
        var j :| 0 <= j <= i - |sep| && At(s[..i], sep, j);
        assert s[..i][j..j + |sep|] == s[j..j + |sep|];
        assert At(s, sep, j);
      }
  }

  /** Each piece of `s.split(sep)` is a part of `s`: whatever occurs in a
      piece occurs in `s`. */
  lemma {:induction false} SplitPiecesInside(s: string, sep: string, sub: string)
    requires sep != ""
    ensures forall p :: p in Split(s, sep) && Contains(p, sub) ==> Contains(s, sub)
    decreases |s|
  {
    match Find(s, sep)
    case None =>
    case Some(i) =>
      var rest := s[i + |sep|..];
      SplitPiecesInside(rest, sep, sub);
      assert Split(s, sep) == [s[..i]] + Split(rest, sep);
      forall p | p in Split(s, sep) && Contains(p, sub) ensures Contains(s, sub) {
        if p == s[..i] {
          ContainsInSlice(s, 0, i, sub);
        } else {
          assert p in Split(rest, sep);
          assert Contains(rest, sub);
          assert s[i + |sep|..|s|] == rest;
          ContainsInSlice(s, i + |sep|, |s|, sub);
        }
      }
  }

  // ---------------------------------------------------------------
  // s.strip() and s.split()
  // ---------------------------------------------------------------

  function TrimStart(s: string): (r: string)
    decreases |s|
    ensures |r| <= |s| && r == s[|s| - |r|..]
    ensures r == [] || !IsSpace(r[0])
    ensures forall i :: 0 <= i < |s| - |r| ==> IsSpace(s[i])
  {
    if |s| > 0 && IsSpace(s[0]) then TrimStart(s[1..]) else s
  }

  function TrimEnd(s: string): (r: string)
    decreases |s|
    ensures |r| <= |s| && r == s[..|r|]
    ensures r == [] || !IsSpace(r[|r| - 1])
    ensures forall i :: |r| <= i < |s| ==> IsSpace(s[i])
  {
    if |s| > 0 && IsSpace(s[|s| - 1]) then TrimEnd(s[..|s| - 1]) else s
  }

  /** Neither end is whitespace. */
  predicate Stripped(s: string) {
    s == [] || (!IsSpace(s[0]) && !IsSpace(s[|s| - 1]))
  }

  /** `s.strip()`: the slice of `s` left after removing whitespace at both
      ends; it starts and ends with non-whitespace. */
  function Strip(s: string): (r: string)
    ensures Stripped(r)
    ensures exists a, b :: 0 <= a <= b <= |s| && r == s[a..b]
                           && (forall i :: 0 <= i < a ==> IsSpace(s[i]))
                           && (forall i :: b <= i < |s| ==> IsSpace(s[i]))
  {
    var t := TrimStart(s);
    var r := TrimEnd(t);
    assert r == s[|s| - |t|..][..|r|] == s[|s| - |t|..|s| - |t| + |r|];
    r
  }

  /** A string without whitespace at its ends is its own strip. */
  lemma StripStripped(s: string)
    requires Stripped(s)
    ensures Strip(s) == s
  {
  }

  /** Stripping cannot make a string contain something it did not. */
  lemma StripContains(s: string, sub: string)
    requires Contains(Strip(s), sub)
    ensures Contains(s, sub)
  {
    var a, b :| 0 <= a <= b <= |s| && Strip(s) == s[a..b];
    ContainsInSlice(s, a, b, sub);
  }

  predicate NoSpace(w: string) {
    forall i :: 0 <= i < |w| ==> !IsSpace(w[i])
  }

  /** Length of the leading run of non-whitespace characters. */
  function RunLength(s: string): (n: nat)
    ensures n <= |s|
    ensures NoSpace(s[..n])
    ensures n < |s| ==> IsSpace(s[n])
  {
    if |s| == 0 || IsSpace(s[0]) then 0 else 1 + RunLength(s[1..])
  }

  /** `s.split()`: the maximal runs of non-whitespace, left to right. */
  function Words(s: string): (r: seq<string>)
    decreases |s|
    ensures forall w :: w in r ==> w != "" && NoSpace(w)
  {
    var t := TrimStart(s);
    if t == [] then []
    else
      var n := RunLength(t);
      assert n > 0 && NoSpace(t[..n]);
      var rest := Words(t[n..]);
      assert forall w :: w in [t[..n]] + rest ==> w == t[..n] || w in rest;
      [t[..n]] + rest
  }

  predicate AllSpace(s: string) {
    forall i :: 0 <= i < |s| ==> IsSpace(s[i])
  }

  /** `gaps[0] + ws[0] + gaps[1] + ... + ws[n-1] + gaps[n]` */
  function Interleave(gaps: seq<string>, ws: seq<string>): string
    requires |gaps| == |ws| + 1
    decreases |ws|
  {
    if ws == [] then gaps[0] else gaps[0] + ws[0] + Interleave(gaps[1..], ws[1..])
  }

  /** `s` is laid out as the words `ws` separated by whitespace: the gaps
      are whitespace, the gaps between two words are not empty, and the words
      are non-empty and hold no whitespace. */
  predicate WordLayout(s: string, ws: seq<string>, gaps: seq<string>) {
    && |gaps| == |ws| + 1
    && (forall i :: 0 <= i < |gaps| ==> AllSpace(gaps[i]))
    && (forall i :: 0 < i < |ws| ==> gaps[i] != "")
    && (forall i :: 0 <= i < |ws| ==> ws[i] != "" && NoSpace(ws[i]))
    && s == Interleave(gaps, ws)
  }

  /** One more word in front of a laid-out string. */
  lemma LayoutCons(s: string, pre: string, w: string, tail: string, rest: seq<string>, g: seq<string>)
    requires s == pre + (w + tail)
    requires AllSpace(pre) && w != "" && NoSpace(w)
    requires WordLayout(tail, rest, g)
    requires rest != [] ==> tail != [] && IsSpace(tail[0])
    ensures WordLayout(s, [w] + rest, [pre] + g)
  {
    var gaps := [pre] + g;
    assert gaps[1..] == g && ([w] + rest)[1..] == rest;
    if rest != [] {
      assert tail == g[0] + rest[0] + Interleave(g[1..], rest[1..]);
    }
  }

  /** A string of whitespace alone has no words. */
  lemma WordsBlank(s: string)
    requires TrimStart(s) == []
    ensures WordLayout(s, Words(s), [s])
  {
    assert Words(s) == [] && Interleave([s], []) == s;
  }

  /** The words of `s.split()` are the maximal runs of non-whitespace of
      `s`, left to right: `s` is those words with whitespace around and
      between them. */
  lemma {:induction false} WordsLayout(s: string)
    ensures exists gaps :: WordLayout(s, Words(s), gaps)
    decreases |s|
  {
    var t := TrimStart(s);
    if t == [] {
      WordsBlank(s);
    } else {
      var n := RunLength(t);
      var pre, w, tail := s[..|s| - |t|], t[..n], t[n..];
      WordsFirst(s);
      WordsLayout(tail);
      var g :| WordLayout(tail, Words(tail), g);
      LayoutCons(s, pre, w, tail, Words(tail), g);
    }
  }

  /** A string is its first `k` characters followed by the rest. */
  lemma SliceSplit(s: string, k: nat)
    requires k <= |s|
    ensures s == s[..k] + s[k..]
  {
  }

  /** `s` is its leading whitespace followed by `TrimStart(s)`. */
  lemma TrimStartSplit(s: string)
    ensures s == s[..|s| - |TrimStart(s)|] + TrimStart(s)
    ensures AllSpace(s[..|s| - |TrimStart(s)|])
  {
    var k := |s| - |TrimStart(s)|;
    SliceSplit(s, k);
  }

  /** A string starting with a non-whitespace character is its first run
      followed by whitespace or nothing. */
  lemma RunSplit(t: string)
    requires t != [] && !IsSpace(t[0])
    ensures t == t[..RunLength(t)] + t[RunLength(t)..]
    ensures t[..RunLength(t)] != "" && NoSpace(t[..RunLength(t)])
    ensures RunLength(t) < |t| ==> IsSpace(t[RunLength(t)..][0])
  {
  }

  /** The first word of `s.split()` and the string after it. */
  lemma WordsFirst(s: string)
    requires TrimStart(s) != []
    ensures var t := TrimStart(s);
            var n := RunLength(t);
            && s == s[..|s| - |t|] + (t[..n] + t[n..])
            && AllSpace(s[..|s| - |t|])
            && t[..n] != "" && NoSpace(t[..n])
            && Words(s) == [t[..n]] + Words(t[n..])
            && (Words(t[n..]) != [] ==> t[n..] != [] && IsSpace(t[n..][0]))
  {
    TrimStartSplit(s);
    RunSplit(TrimStart(s));
  }
}

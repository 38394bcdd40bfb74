/** The JavaScript string operations the dashboard's rules are built from, over `string`. */
module Text {

  /** JavaScript's `\s` class: the WhiteSpace and LineTerminator code points of ECMAScript,
      which are also the characters `String.prototype.trim` strips. */
  predicate IsSpace(c: char) {
    c == '\t' || c == '\n' || c == '\U{B}' || c == '\U{C}' || c == '\r' || c == ' '
    || c == '\U{A0}' || c == '\U{1680}' || ('\U{2000}' <= c <= '\U{200A}')
    || c == '\U{2028}' || c == '\U{2029}' || c == '\U{202F}' || c == '\U{205F}'
    || c == '\U{3000}' || c == '\U{FEFF}'
  }

  predicate AllSpace(s: string) {
    forall i :: 0 <= i < |s| ==> IsSpace(s[i])
  }

  /** Matches `[^\s@]` at every position. */
  predicate NoSpaceNoAt(s: string) {
    forall i :: 0 <= i < |s| ==> !IsSpace(s[i]) && s[i] != '@'
  }

  /** `s.startsWith(p)` */
  predicate StartsWith(s: string, p: string) {
    |p| <= |s| && s[..|p|] == p
  }

  predicate OccursAt(hay: string, needle: string, i: int) {
    0 <= i && i + |needle| <= |hay| && hay[i..i + |needle|] == needle
  }

  /** `hay.includes(needle)`: `needle` occurs somewhere in `hay`. */
  function Includes(hay: string, needle: string): (r: bool)
    ensures r <==> exists i :: OccursAt(hay, needle, i)
    decreases |hay|
  {
    if StartsWith(hay, needle) then
      assert OccursAt(hay, needle, 0);
      true
    else if hay == [] then false
    else
      IncludesTail(hay, needle);
      Includes(hay[1..], needle)
  }

  lemma IncludesTail(hay: string, needle: string)
    requires hay != [] && !StartsWith(hay, needle)
    ensures (exists i :: OccursAt(hay, needle, i)) <==> (exists i :: OccursAt(hay[1..], needle, i))
  {
    if i :| OccursAt(hay, needle, i) {
      assert i != 0;
      assert hay[1..][i - 1..i - 1 + |needle|] == hay[i..i + |needle|];
      assert OccursAt(hay[1..], needle, i - 1);
    }
    if i :| OccursAt(hay[1..], needle, i) {
      assert hay[i + 1..i + 1 + |needle|] == hay[1..][i..i + |needle|];
      assert OccursAt(hay, needle, i + 1);
    }
  }

  /** The empty string is included in every string. */
  lemma IncludesEmpty(hay: string)
    ensures Includes(hay, "")
  {
    assert OccursAt(hay, "", 0);
  }

  /** Lower-casing of the ASCII letters A-Z. */
  function LowerChar(c: char): char {
    if 'A' <= c <= 'Z' then (c as int + 32) as char else c
  }

  /** `s.toLowerCase()` restricted to ASCII letters. */
  function ToLower(s: string): (r: string)
    ensures |r| == |s|
    ensures forall i :: 0 <= i < |s| ==> r[i] == LowerChar(s[i])
  {
    if s == [] then [] else [LowerChar(s[0])] + ToLower(s[1..])
  }

  /** Lower-casing twice is lower-casing once. */
  lemma ToLowerIdempotent(s: string)
    ensures ToLower(ToLower(s)) == ToLower(s)
  {
    assert forall i :: 0 <= i < |s| ==> LowerChar(LowerChar(s[i])) == LowerChar(s[i]);
  }

  /** `name.toLowerCase().includes(term.toLowerCase())` */
  predicate IncludesIgnoringCase(name: string, term: string) {
    Includes(ToLower(name), ToLower(term))
  }

  /** The match does not depend on the case of either side. */
  lemma {:induction false} IncludesIgnoringCaseIsCaseBlind(name: string, term: string, name': string, term': string)
    requires ToLower(name) == ToLower(name') && ToLower(term) == ToLower(term')
    ensures IncludesIgnoringCase(name, term) <==> IncludesIgnoringCase(name', term')
  {
  }

  /** An empty search term matches every name. */
  lemma EmptyTermMatchesAll(name: string)
    ensures IncludesIgnoringCase(name, "")
  {
    IncludesEmpty(ToLower(name));
  }

  /** The number of `\s` characters `s` starts with. */
  function LeadLength(s: string): (n: nat)
    ensures n <= |s|
    ensures forall k :: 0 <= k < n ==> IsSpace(s[k])
    ensures n < |s| ==> !IsSpace(s[n])
  {
    if s != [] && IsSpace(s[0]) then
      var n := LeadLength(s[1..]);
      assert forall k :: 1 <= k < n + 1 ==> s[k] == s[1..][k - 1];
      n + 1
    else 0
  }

  /** Where the run of `\s` characters that ends `s[lo..hi]` starts. */
  function TrailStart(s: string, lo: nat, hi: nat): (n: nat)
    requires lo <= hi <= |s|
    ensures lo <= n <= hi
    ensures forall k :: n <= k < hi ==> IsSpace(s[k])
    ensures n > lo ==> !IsSpace(s[n - 1])
    decreases hi
  {
    if hi > lo && IsSpace(s[hi - 1]) then TrailStart(s, lo, hi - 1) else hi
  }

  /** Neither starts nor ends with a `\s` character. */
  predicate IsTrimmed(s: string) {
    s == [] || (!IsSpace(s[0]) && !IsSpace(s[|s| - 1]))
  }

  /** `r` is `s[i..j]` with only `\s` characters before `i` and from `j` on. */
  predicate TrimmedAt(s: string, r: string, i: int, j: int) {
    0 <= i <= j <= |s| && r == s[i..j]
    && (forall k :: 0 <= k < i ==> IsSpace(s[k]))
    && (forall k :: j <= k < |s| ==> IsSpace(s[k]))
  }

  /** `s.trim()`: what is left of `s` once the leading and trailing `\s` characters are
      gone, so it neither starts nor ends with one. */
  function Trim(s: string): (r: string)
    ensures IsTrimmed(r)
    ensures exists i, j :: TrimmedAt(s, r, i, j)
  {
    var i := LeadLength(s);
    var j := TrailStart(s, i, |s|);
    assert TrimmedAt(s, s[i..j], i, j);
    s[i..j]
  }

  /** Trimming a trimmed string changes nothing. */
  lemma TrimOfTrimmed(s: string)
    requires IsTrimmed(s)
    ensures Trim(s) == s
  {
  }

  /** One space in front of a trimmed string is all that `trim` removes. */
  lemma TrimLeadingSpace(s: string)
    requires IsTrimmed(s)
    ensures Trim(" " + s) == s
  {
    assert (" " + s)[1..] == s;
  }

  /** `parts.join(sep)` */
  function Join(parts: seq<string>, sep: string): string {
    if |parts| == 0 then ""
    else if |parts| == 1 then parts[0]
    else parts[0] + sep + Join(parts[1..], sep)
  }

  /** `s.split(sep)` for a separator of one character. */
  function Split(s: string, sep: char): (parts: seq<string>)
    ensures |parts| >= 1
  {
    if s == [] then [""]
    else
      var rest := Split(s[1..], sep);
      if s[0] == sep then [""] + rest
      else [[s[0]] + rest[0]] + rest[1..]
  }

  /** There is one piece more than there are separators. */
  lemma {:induction false} SplitCount(s: string, sep: char)
    ensures |Split(s, sep)| == multiset(s)[sep] + 1
  {
    if s != [] {
      SplitCount(s[1..], sep);
      assert s == [s[0]] + s[1..];
    }
  }

  /** No piece holds the separator. */
  lemma {:induction false} SplitPiecesLackSeparator(s: string, sep: char)
    ensures forall k :: 0 <= k < |Split(s, sep)| ==> sep !in Split(s, sep)[k]
  {
    if s != [] {
      SplitPiecesLackSeparator(s[1..], sep);
      var rest := Split(s[1..], sep);
      if s[0] != sep {
        assert sep !in rest[0];
        assert sep !in [s[0]] + rest[0];
      }
    }
  }

  /** Joining the pieces with the separator gives the string back. */
  lemma {:induction false} JoinSplit(s: string, sep: char)
    ensures Join(Split(s, sep), [sep]) == s
  {
    if s != [] {
      JoinSplit(s[1..], sep);
      var rest := Split(s[1..], sep);
      var parts := Split(s, sep);
      if s[0] == sep {
        assert parts == [""] + rest;
        assert parts[1..] == rest;
        assert Join(parts, [sep]) == "" + [sep] + Join(rest, [sep]);
      } else {
        assert parts[1..] == rest[1..];
        if |rest| > 1 {
          assert Join(rest, [sep]) == rest[0] + [sep] + Join(rest[1..], [sep]);
          assert Join(parts, [sep]) == ([s[0]] + rest[0]) + [sep] + Join(rest[1..], [sep]);
        }
      }
      assert s == [s[0]] + s[1..];
    }
  }

  /** A string without the separator splits into itself. */
  lemma SplitWithoutSeparator(s: string, sep: char)
    requires sep !in s
    ensures Split(s, sep) == [s]
  {
    assert multiset(s)[sep] == 0;
    SplitCount(s, sep);
    JoinSplit(s, sep);
  }

  /** Splitting `a + sep + b` where `a` holds no separator peels `a` off the front. */
  lemma {:induction false} SplitAfterPiece(a: string, b: string, sep: char)
    requires sep !in a
    ensures Split(a + [sep] + b, sep) == [a] + Split(b, sep)
    decreases |a|
  {
    var s := a + [sep] + b;
    if a == [] {
      assert s == [sep] + b;
      assert s[1..] == b;
    } else {
      assert s[1..] == a[1..] + [sep] + b;
      SplitAfterPiece(a[1..], b, sep);
      assert [a[0]] + a[1..] == a;
    }
  }

  /** Splitting undoes joining when no piece holds the separator. */
  lemma {:induction false} SplitJoin(parts: seq<string>, sep: char)
    requires |parts| >= 1
    requires forall k :: 0 <= k < |parts| ==> sep !in parts[k]
    ensures Split(Join(parts, [sep]), sep) == parts
    decreases |parts|
  {
    if |parts| == 1 {
      SplitWithoutSeparator(parts[0], sep);
    } else {
      SplitJoin(parts[1..], sep);
      SplitAfterPiece(parts[0], Join(parts[1..], [sep]), sep);
      assert [parts[0]] + parts[1..] == parts;
    }
  }

  /** Each piece trimmed: `parts.map(p => p.trim())`. */
  function TrimAll(parts: seq<string>): (r: seq<string>)
    ensures |r| == |parts|
    ensures forall k :: 0 <= k < |parts| ==> r[k] == Trim(parts[k])
  {
    if parts == [] then [] else [Trim(parts[0])] + TrimAll(parts[1..])
  }

  /** Every piece with a space in front. */
  function SpaceEach(parts: seq<string>): (r: seq<string>)
    ensures |r| == |parts|
    ensures forall k :: 0 <= k < |parts| ==> r[k] == " " + parts[k]
  {
    seq(|parts|, k requires 0 <= k < |parts| => " " + parts[k])
  }

  /** A space before a ", "-join is a ","-join of the pieces with a space before each. */
  lemma {:induction false} JoinSpaced(parts: seq<string>)
    requires |parts| >= 1
    ensures " " + Join(parts, ", ") == Join(SpaceEach(parts), ",")
    decreases |parts|
  {
    if |parts| > 1 {
      JoinSpaced(parts[1..]);
      assert SpaceEach(parts)[1..] == SpaceEach(parts[1..]);
    }
  }

  /** `parts.join(", ").split(",").map(p => p.trim())` gives `parts` back when there is at
      least one piece and no piece holds a comma or starts or ends with `\s`. */
  lemma {:induction false} SplitTrimUndoesJoin(parts: seq<string>)
    requires |parts| >= 1
    requires forall k :: 0 <= k < |parts| ==> ',' !in parts[k] && IsTrimmed(parts[k])
    ensures TrimAll(Split(Join(parts, ", "), ',')) == parts
  {
    var spaced := [parts[0]] + SpaceEach(parts[1..]);
    if |parts| > 1 {
      JoinSpaced(parts[1..]);
      assert spaced[1..] == SpaceEach(parts[1..]);
      assert Join(parts, ", ") == Join(spaced, ",");
    }
    forall k | 0 <= k < |spaced| ensures ',' !in spaced[k] {
      if k > 0 {
        assert spaced[k] == " " + parts[k];
      }
    }
    SplitJoin(spaced, ',');
    forall k | 0 <= k < |parts| ensures Trim(spaced[k]) == parts[k] {
      if k == 0 {
        TrimOfTrimmed(parts[0]);
      } else {
        assert spaced[k] == " " + parts[k];
        TrimLeadingSpace(parts[k]);
      }
    }
  }
}

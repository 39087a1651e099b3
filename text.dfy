/**
 * The JavaScript string operations the health tracker relies on, over
 * `string` (a sequence of Unicode scalar values): `trim`, `includes`,
 * `indexOf`, `lastIndexOf`, `split(sep)[0]` and `[1]`, `join`,
 * `replace` with a string pattern, `replace(/\s+/g, …)` and ASCII case
 * changes.
 */
module Text {

  /** The characters ECMAScript's `trim` and the regular expression `\s` treat as white space. */
  predicate IsWhitespace(c: char) {
    c == ' ' || c == '\t' || c == '\n' || c == '\r' || c == '\U{000B}' || c == '\U{000C}'
    || c == '\U{00A0}' || c == '\U{1680}' || ('\U{2000}' <= c <= '\U{200A}')
    || c == '\U{2028}' || c == '\U{2029}' || c == '\U{202F}' || c == '\U{205F}'
    || c == '\U{3000}' || c == '\U{FEFF}'
  }

  /** `s` with its leading white space removed. */
  function TrimStart(s: string): (r: string)
    ensures |r| <= |s| && r == s[|s| - |r|..]
    ensures r == [] || !IsWhitespace(r[0])
    ensures forall i :: 0 <= i < |s| - |r| ==> IsWhitespace(s[i])
  {
    if |s| > 0 && IsWhitespace(s[0]) then TrimStart(s[1..]) else s
  }

  lemma TrimStartKeeps(s: string)
    requires s == [] || !IsWhitespace(s[0])
    ensures TrimStart(s) == s
  {
  }

  /** `s` with its trailing white space removed. */
  function TrimEnd(s: string): (r: string)
    ensures |r| <= |s| && r == s[..|r|]
    ensures r == [] || !IsWhitespace(r[|r| - 1])
    ensures forall i :: |r| <= i < |s| ==> IsWhitespace(s[i])
  {
    if |s| > 0 && IsWhitespace(s[|s| - 1]) then TrimEnd(s[..|s| - 1]) else s
  }

  /** `s.trim()` */
  function Trim(s: string): string {
    TrimEnd(TrimStart(s))
  }

  lemma TrimStartKeepsTrimmed(t: string)
    requires t == [] || !IsWhitespace(t[0])
    ensures TrimStart(t) == t
  {
  }

  lemma TrimEndKeepsTrimmed(t: string)
    requires t == [] || !IsWhitespace(t[|t| - 1])
    ensures TrimEnd(t) == t
  {
  }

  /** A trimmed string neither starts nor ends with white space, and trimming it again changes nothing. */
  lemma TrimTrimmed(s: string)
    ensures var t := Trim(s); t == "" || (!IsWhitespace(t[0]) && !IsWhitespace(t[|t| - 1]))
    ensures Trim(Trim(s)) == Trim(s)
  {
    var a := TrimStart(s);
    var t := TrimEnd(a);
    if t != "" {
      assert t[0] == a[0];
    }
    TrimStartKeepsTrimmed(t);
    TrimEndKeepsTrimmed(t);
  }

  /** `!s.trim()`: the string is empty or white space only. */
  predicate IsBlank(s: string) {
    Trim(s) == ""
  }

  lemma BlankIffAllWhitespace(s: string)
    ensures IsBlank(s) <==> forall i :: 0 <= i < |s| ==> IsWhitespace(s[i])
  {
  }

  /** `t` occurs in `s` starting at index `i`. */
  predicate OccursAt(s: string, t: string, i: int) {
    0 <= i && i + |t| <= |s| && s[i..i + |t|] == t
  }

  function IndexOfFrom(s: string, t: string, from: nat): (r: int)
    requires from <= |s|
    ensures r == -1 || (from <= r && OccursAt(s, t, r))
    ensures r == -1 ==> forall j :: from <= j ==> !OccursAt(s, t, j)
    ensures r != -1 ==> forall j :: from <= j < r ==> !OccursAt(s, t, j)
    decreases |s| - from
  {
    if from + |t| > |s| then -1
    else if s[from..from + |t|] == t then from
    else if from == |s| then -1
    else IndexOfFrom(s, t, from + 1)
  }

  /** `s.indexOf(t)`: the first index where `t` occurs, or -1. */
  function IndexOf(s: string, t: string): (r: int)
    ensures r == -1 || OccursAt(s, t, r)
    ensures r == -1 <==> forall j :: !OccursAt(s, t, j)
    ensures forall j :: 0 <= j < r ==> !OccursAt(s, t, j)
  {
    IndexOfFrom(s, t, 0)
  }

  /** `s.lastIndexOf(t)` */
  function LastIndexOf(s: string, t: string): (r: int)
    ensures r == -1 || OccursAt(s, t, r)
    ensures r == -1 <==> forall j :: !OccursAt(s, t, j)
    ensures forall j :: r < j ==> !OccursAt(s, t, j)
    decreases |s|
  {
    if |t| > |s| then -1
    else if s[|s| - |t|..] == t then |s| - |t|
    else if s == [] then -1
    else
      var r := LastIndexOf(s[..|s| - 1], t);
      assert forall j :: OccursAt(s[..|s| - 1], t, j) <==> OccursAt(s, t, j) && j + |t| < |s| by {
        forall j ensures OccursAt(s[..|s| - 1], t, j) <==> OccursAt(s, t, j) && j + |t| < |s| {
          OccursInPrefix(s, t, j);
        }
      }
      r
  }

  /** Dropping the last character keeps exactly the occurrences that end before it. */
  lemma OccursInPrefix(s: string, t: string, j: int)
    requires s != []
    ensures OccursAt(s[..|s| - 1], t, j) <==> OccursAt(s, t, j) && j + |t| < |s|
  {
    if 0 <= j && j + |t| < |s| {
      assert s[j..j + |t|] == s[..|s| - 1][j..j + |t|];
    }
  }

  /** A one-character pattern occurs exactly where that character is. */
  lemma OccursAtChar1(s: string, c: char, i: int)
    ensures OccursAt(s, [c], i) <==> 0 <= i < |s| && s[i] == c
  {
    if 0 <= i < |s| {
      assert s[i..i + 1] == [s[i]];
    }
  }

  /** `s.includes(t)` */
  predicate Contains(s: string, t: string) {
    IndexOf(s, t) != -1
  }

  lemma ContainsIffOccurs(s: string, t: string, i: int)
    requires OccursAt(s, t, i)
    ensures Contains(s, t) && IndexOf(s, t) <= i
  {
  }

  lemma {:induction false} OccursAtAppend(a: string, b: string, t: string, i: int)
    requires OccursAt(a, t, i)
    ensures OccursAt(a + b, t, i)
  {
    assert (a + b)[i..i + |t|] == a[i..i + |t|];
  }

  /** Appending text never removes an occurrence, nor moves the first one. */
  lemma IndexOfAppend(a: string, b: string, t: string)
    requires Contains(a, t)
    ensures Contains(a + b, t) && IndexOf(a + b, t) == IndexOf(a, t)
  {
    var i := IndexOf(a, t);
    OccursAtAppend(a, b, t, i);
    forall j | 0 <= j < i ensures !OccursAt(a + b, t, j) {
      OccursBeforeEnd(a, b, t, j);
    }
  }

  /** An occurrence that ends inside `a` is one of `a + b` exactly when it is one of `a`. */
  lemma OccursBeforeEnd(a: string, b: string, t: string, j: int)
    requires 0 <= j && j + |t| <= |a|
    ensures OccursAt(a + b, t, j) <==> OccursAt(a, t, j)
  {
    assert (a + b)[j..j + |t|] == a[j..j + |t|];
  }

  /** `s.split(sep)[0]`: the text before the first `sep`, or all of `s`. */
  function SplitHead(s: string, sep: string): (r: string)
    ensures Contains(s, sep) ==> r == s[..IndexOf(s, sep)]
    ensures !Contains(s, sep) ==> r == s
  {
    var i := IndexOf(s, sep);
    if i == -1 then s else s[..i]
  }

  /**
   * `s.split(sep)[1]` when `sep` occurs: the text that starts right after
   * the first `sep` and runs up to the next `sep` or to the end.
   */
  function SplitSecond(s: string, sep: string): (r: string)
    requires Contains(s, sep)
    ensures var i := IndexOf(s, sep) + |sep|;
      && i + |r| <= |s| && s[i..i + |r|] == r
      && (i + |r| == |s| || OccursAt(s, sep, i + |r|))
      && forall j :: i <= j < i + |r| ==> !OccursAt(s, sep, j)
  {
    var i := IndexOf(s, sep) + |sep|;
    HeadFrom(s, sep, i);
    SplitHead(s[i..], sep)
  }

  /** The text before the first `sep` at or after `i` runs from `i` up to that `sep` or the end. */
  lemma HeadFrom(s: string, sep: string, i: int)
    requires 0 <= i <= |s|
    ensures var r := SplitHead(s[i..], sep);
      && i + |r| <= |s| && s[i..i + |r|] == r
      && (i + |r| == |s| || OccursAt(s, sep, i + |r|))
      && forall j :: i <= j < i + |r| ==> !OccursAt(s, sep, j)
  {
    var t := s[i..];
    var r := SplitHead(t, sep);
    assert t[..|r|] == r;
    forall j | i <= j <= |s| ensures OccursAt(s, sep, j) <==> OccursAt(t, sep, j - i) {
      OccursInDrop(s, sep, i, j - i);
    }
  }

  /** The occurrences in `s[i..]` are those of `s` at or after `i`, shifted by `i`. */
  lemma OccursInDrop(s: string, t: string, i: int, j: int)
    requires 0 <= i <= |s|
    ensures OccursAt(s[i..], t, j) <==> j >= 0 && OccursAt(s, t, i + j)
  {
    if 0 <= j && j + |t| <= |s| - i {
      assert s[i..][j..j + |t|] == s[i + j..i + j + |t|];
    }
  }

  lemma SplitHeadNoOccurrence(s: string, sep: string)
    requires forall i :: 0 <= i < |s| ==> s[i] !in sep
    requires sep != ""
    ensures SplitHead(s, sep) == s
  {
    var i := IndexOf(s, sep);
    if i != -1 {
      OccursAtFirstChar(s, sep, i);
    }
  }

  /** The text before the first separator, when the separator follows a separator-free prefix. */
  lemma SplitHeadAt(a: string, sep: string, b: string)
    requires forall i :: 0 <= i < |a| ==> a[i] !in sep
    requires sep != ""
    ensures SplitHead(a + sep + b, sep) == a
  {
    var s := a + sep + b;
    assert OccursAt(s, sep, |a|) by { assert s[|a|..|a| + |sep|] == sep; }
    ContainsIffOccurs(s, sep, |a|);
    var i := IndexOf(s, sep);
    if i < |a| {
      OccursAtFirstChar(s, sep, i);
    }
  }

  lemma OccursAtChar(s: string, t: string, i: int, k: int)
    requires OccursAt(s, t, i) && 0 <= k < |t|
    ensures s[i + k] == t[k]
  {
    assert s[i..i + |t|][k] == s[i + k];
  }

  /** The characters of an occurrence, for any offset that lies inside it. */
  lemma OccursAtCharIf(s: string, t: string, i: int, k: int)
    ensures OccursAt(s, t, i) && 0 <= k < |t| ==> s[i + k] == t[k]
  {
    if OccursAt(s, t, i) && 0 <= k < |t| {
      OccursAtChar(s, t, i, k);
    }
  }

  /** The occurrences in the first `n` characters are the occurrences that end by `n`. */
  lemma OccursInTake(s: string, t: string, n: int, j: int)
    requires 0 <= n <= |s|
    ensures OccursAt(s[..n], t, j) <==> OccursAt(s, t, j) && j + |t| <= n
  {
    if 0 <= j && j + |t| <= n {
      assert s[..n][j..j + |t|] == s[j..j + |t|];
    }
  }

  /** A text none of whose characters starts `t` does not contain `t`. */
  lemma NotContainsWithoutFirstChar(s: string, t: string)
    requires t != "" && forall i :: 0 <= i < |s| ==> s[i] != t[0]
    ensures !Contains(s, t)
  {
    var i := IndexOf(s, t);
    if i != -1 {
      OccursAtFirstChar(s, t, i);
    }
  }

  lemma OccursAtFirstChar(s: string, t: string, i: int)
    requires OccursAt(s, t, i) && t != ""
    ensures s[i] == t[0]
  {
    assert s[i..i + |t|][0] == s[i];
  }

  /** `parts.join(sep)`: the parts in order with `sep` between neighbours. */
  function Join(parts: seq<string>, sep: string): (r: string)
    ensures parts != [] && parts[0] != "" ==> r != ""
    ensures parts != [] ==> |r| >= |parts[0]|
    ensures |parts| == 1 ==> r == parts[0]
  {
    if |parts| == 0 then ""
    else if |parts| == 1 then parts[0]
    else parts[0] + sep + Join(parts[1..], sep)
  }

  /** Each further part is joined on after a separator. */
  lemma {:induction false} JoinSnoc(parts: seq<string>, x: string, sep: string)
    requires parts != []
    ensures Join(parts + [x], sep) == Join(parts, sep) + sep + x
  {
    var s := parts + [x];
    assert s[0] == parts[0] && s[1..] == parts[1..] + [x];
    if |parts| == 1 {
      assert s[1..] == [x];
    } else {
      JoinSnoc(parts[1..], x, sep);
    }
  }

  /** Joining non-empty parts gives the empty string only for no parts. */
  lemma JoinEmpty(parts: seq<string>, sep: string)
    requires forall s :: s in parts ==> s != ""
    ensures Join(parts, sep) == "" <==> parts == []
  {
    if parts != [] {
      assert parts[0] in parts;
    }
  }

  /** Every chunk of `chunks` concatenated in order. */
  function Concat(chunks: seq<string>): (r: string)
    ensures |chunks| == 1 ==> r == chunks[0]
  {
    if chunks == [] then "" else Concat(chunks[..|chunks| - 1]) + chunks[|chunks| - 1]
  }

  /** `s.replace(t, r)` with a string pattern: only the first occurrence is replaced. */
  function ReplaceFirst(s: string, t: string, r: string): (res: string)
    ensures !Contains(s, t) ==> res == s
    ensures Contains(s, t) ==> res == s[..IndexOf(s, t)] + r + s[IndexOf(s, t) + |t|..]
  {
    var i := IndexOf(s, t);
    if i == -1 then s else s[..i] + r + s[i + |t|..]
  }

  /** `s.replace(/\s+/g, sep)`: every maximal run of white space becomes one `sep`. */
  function ReplaceWhitespaceRuns(s: string, sep: string): (r: string)
    ensures (forall i :: 0 <= i < |sep| ==> !IsWhitespace(sep[i])) ==>
              forall i :: 0 <= i < |r| ==> !IsWhitespace(r[i])
    ensures (forall i :: 0 <= i < |s| ==> !IsWhitespace(s[i])) ==> r == s
  {
    if s == [] then ""
    else if IsWhitespace(s[0]) then sep + ReplaceWhitespaceRuns(TrimStart(s), sep)
    else [s[0]] + ReplaceWhitespaceRuns(s[1..], sep)
  }

  /** `t` is white space only. */
  predicate AllWhitespace(t: string) {
    forall i :: 0 <= i < |t| ==> IsWhitespace(t[i])
  }

  /** `t` holds no white space. */
  predicate NoWhitespace(t: string) {
    forall i :: 0 <= i < |t| ==> !IsWhitespace(t[i])
  }

  /**
   * A text without white space is kept as it is, and a maximal run of
   * white space (one followed by the end or by other text) becomes exactly
   * one `sep`.
   */
  lemma {:induction false} ReplaceWhitespaceRunsAt(a: string, w: string, b: string, sep: string)
    requires NoWhitespace(a) && AllWhitespace(w)
    requires b == [] || !IsWhitespace(b[0])
    ensures ReplaceWhitespaceRuns(a + w + b, sep) == a + (if w == [] then "" else sep) + ReplaceWhitespaceRuns(b, sep)
  {
    var s := a + w + b;
    var x, rb := if w == [] then "" else sep, ReplaceWhitespaceRuns(b, sep);
    if a == [] {
      assert s == w + b && a + x + rb == x + rb;
      if w != [] {
        RunFirst(w, b, sep);
      } else {
        assert s == b && x + rb == rb;
      }
    } else {
      assert !IsWhitespace(a[0]);
      assert s[1..] == a[1..] + w + b;
      KeptFirst(s, sep);
      ReplaceWhitespaceRunsAt(a[1..], w, b, sep);
      ConsConcat(a, x + rb);
      ConcatAssoc(a[1..], x, rb);
      ConcatAssoc(a, x, rb);
    }
  }

  lemma ConsConcat(a: string, t: string)
    requires a != []
    ensures a + t == [a[0]] + (a[1..] + t)
  {
  }

  lemma ConcatAssoc<T>(p: seq<T>, q: seq<T>, t: seq<T>)
    ensures p + q + t == p + (q + t)
  {
  }

  /** The white space between two words becomes one separator. */
  lemma TwoWords(first: string, gap: string, last: string, sep: string)
    requires NoWhitespace(first) && NoWhitespace(last)
    requires gap != [] && AllWhitespace(gap)
    ensures ReplaceWhitespaceRuns(first + gap + last, sep) == first + sep + last
  {
    ReplaceWhitespaceRunsAt(first, gap, last, sep);
    ReplaceWhitespaceRunsAt(last, [], [], sep);
    assert last + [] + [] == last;
    assert last + "" + ReplaceWhitespaceRuns([], sep) == last;
  }

  /** A character that is not white space is kept in front of the rest. */
  lemma KeptFirst(s: string, sep: string)
    requires s != [] && !IsWhitespace(s[0])
    ensures ReplaceWhitespaceRuns(s, sep) == [s[0]] + ReplaceWhitespaceRuns(s[1..], sep)
  {
  }

  /** A text that starts with a maximal white-space run: the run becomes one `sep`. */
  lemma RunFirst(w: string, b: string, sep: string)
    requires w != [] && AllWhitespace(w)
    requires b == [] || !IsWhitespace(b[0])
    ensures ReplaceWhitespaceRuns(w + b, sep) == sep + ReplaceWhitespaceRuns(b, sep)
  {
    assert (w + b)[0] == w[0];
    assert IsWhitespace(w[0]);
    TrimStartRun(w, b);
  }

  lemma {:induction false} TrimStartRun(w: string, b: string)
    requires AllWhitespace(w)
    requires b == [] || !IsWhitespace(b[0])
    ensures TrimStart(w + b) == b
  {
    if w == [] {
      assert w + b == b;
      TrimStartKeeps(b);
    } else {
      assert (w + b)[1..] == w[1..] + b;
      TrimStartRun(w[1..], b);
    }
  }

  /** `c.toUpperCase()` restricted to the ASCII letters. */
  function UpperAscii(c: char): (r: char)
    ensures 'a' <= c <= 'z' ==> 'A' <= r <= 'Z' && r as int == c as int - 32
    ensures !('a' <= c <= 'z') ==> r == c
  {
    if 'a' <= c <= 'z' then (c as int - 32) as char else c
  }

  /** `c.toLowerCase()` restricted to the ASCII letters. */
  function LowerAscii(c: char): (r: char)
    ensures 'A' <= c <= 'Z' ==> 'a' <= r <= 'z' && r as int == c as int + 32
    ensures !('A' <= c <= 'Z') ==> r == c
  {
    if 'A' <= c <= 'Z' then (c as int + 32) as char else c
  }

  /** `s.toLowerCase()` restricted to the ASCII letters. */
  function LowerAsciiString(s: string): (r: string)
    ensures |r| == |s|
    ensures forall i :: 0 <= i < |s| ==> r[i] == LowerAscii(s[i])
  {
    if s == [] then "" else [LowerAscii(s[0])] + LowerAsciiString(s[1..])
  }
}

/** The JavaScript string built-ins the generator relies on: `Array.prototype.join`,
    `String.prototype.trim` and the single-quoted literal union used in type text. */
module Strings {

  /** `parts.join(sep)`: the parts with `sep` between neighbours; no parts give "". */
  function Join(parts: seq<string>, sep: string): string
  {
    if |parts| == 0 then ""
    else if |parts| == 1 then parts[0]
    else parts[0] + sep + Join(parts[1..], sep)
  }

  /** Where part `k` starts inside `Join(parts, sep)`: every earlier part plus one separator each. */
  function Offset(parts: seq<string>, sep: string, k: nat): nat
    requires k <= |parts|
  {
    if k == 0 then 0 else Offset(parts, sep, k - 1) + |parts[k - 1]| + |sep|
  }

  /** `t` occurs in `s` starting at index `i`. */
  predicate OccursAt(s: string, t: string, i: nat)
  {
    i + |t| <= |s| && s[i..i + |t|] == t
  }

  /** `s.includes(t)`. */
  predicate Contains(s: string, t: string)
  {
    exists i: nat | i <= |s| :: OccursAt(s, t, i)
  }

  lemma {:induction false} OffsetShift(parts: seq<string>, sep: string, k: nat)
    requires 1 <= k <= |parts|
    ensures Offset(parts, sep, k) == |parts[0]| + |sep| + Offset(parts[1..], sep, k - 1)
  {
    if k > 1 {
      OffsetShift(parts, sep, k - 1);
    }
  }

  /** The layout of a joined string: part `k` sits at `Offset(parts, sep, k)`, a separator
      follows it unless it is the last part, and the last part ends the text (no trailing
      separator). Together these determine `Join` completely. */
  lemma {:induction false} JoinLayout(parts: seq<string>, sep: string, k: nat)
    requires k < |parts|
    ensures Offset(parts, sep, k) + |parts[k]| <= |Join(parts, sep)|
    ensures OccursAt(Join(parts, sep), parts[k], Offset(parts, sep, k))
    ensures k + 1 < |parts| ==>
              OccursAt(Join(parts, sep), sep, Offset(parts, sep, k) + |parts[k]|)
    ensures k + 1 == |parts| ==> Offset(parts, sep, k) + |parts[k]| == |Join(parts, sep)|
  {
    if |parts| == 1 {
      assert OccursAt(parts[0], parts[0], 0);
    } else {
      var head := parts[0] + sep;
      var tail := Join(parts[1..], sep);
      assert Join(parts, sep) == head + tail;
      if k == 0 {
        assert OccursAt(head, parts[0], 0);
        OccursBefore(head, tail, parts[0], 0);
        assert OccursAt(head, sep, |parts[0]|);
        OccursBefore(head, tail, sep, |parts[0]|);
      } else {
        OffsetShift(parts, sep, k);
        JoinLayout(parts[1..], sep, k - 1);
        var o := Offset(parts[1..], sep, k - 1);
        assert parts[1..][k - 1] == parts[k];
        OccursAfter(head, tail, parts[k], o);
        if k + 1 < |parts| {
          OffsetShift(parts, sep, k + 1);
          OccursAfter(head, tail, sep, o + |parts[k]|);
        }
      }
    }
  }

  /** An occurrence in `s` is still one, at the same index, after text is appended. */
  lemma OccursBefore(s: string, suffix: string, t: string, i: nat)
    requires OccursAt(s, t, i)
    ensures OccursAt(s + suffix, t, i)
  {
    assert (s + suffix)[i..i + |t|] == s[i..i + |t|];
  }

  /** An occurrence in `s` moves right by the length of text prepended to it. */
  lemma OccursAfter(prefix: string, s: string, t: string, i: nat)
    requires OccursAt(s, t, i)
    ensures OccursAt(prefix + s, t, |prefix| + i)
  {
    assert (prefix + s)[|prefix| + i..|prefix| + i + |t|] == s[i..i + |t|];
  }

  /** An occurrence inside `middle` is an occurrence inside `before + middle + after`. */
  lemma OccursInside(before: string, middle: string, after: string, t: string, i: nat)
    requires OccursAt(middle, t, i)
    ensures OccursAt(before + middle + after, t, |before| + i)
  {
    var s := before + middle + after;
    assert s[|before| + i..|before| + i + |t|] == middle[i..i + |t|];
  }

  /** Every part of a join occurs in the joined text. */
  lemma JoinContainsEachPart(parts: seq<string>, sep: string, k: nat)
    requires k < |parts|
    ensures Contains(Join(parts, sep), parts[k])
  {
    JoinLayout(parts, sep, k);
  }

  /** Joining one more part adds exactly one separator and that part at the end. */
  lemma {:induction false} JoinSnoc(parts: seq<string>, last: string, sep: string)
    requires |parts| > 0
    ensures Join(parts + [last], sep) == Join(parts, sep) + sep + last
  {
    if |parts| == 1 {
      assert (parts + [last])[1..] == [last];
    } else {
      assert (parts + [last])[1..] == parts[1..] + [last];
      JoinSnoc(parts[1..], last, sep);
    }
  }

  /** A character `String.prototype.trim` removes: ECMAScript WhiteSpace and LineTerminator. */
  predicate IsJsWhitespace(c: char)
  {
    || c == '\t' || c == '\n' || c == '\U{000B}' || c == '\U{000C}' || c == '\r' || c == ' '
    || c == '\U{00A0}' || c == '\U{1680}' || ('\U{2000}' <= c <= '\U{200A}')
    || c == '\U{2028}' || c == '\U{2029}' || c == '\U{202F}' || c == '\U{205F}'
    || c == '\U{3000}' || c == '\U{FEFF}'
  }

  /** `s.trimStart()`: the longest suffix of `s` that does not begin with whitespace. */
  function TrimStart(s: string): (r: string)
    ensures |r| <= |s| && r == s[|s| - |r|..]
    ensures |r| > 0 ==> !IsJsWhitespace(r[0])
    ensures forall i :: 0 <= i < |s| - |r| ==> IsJsWhitespace(s[i])
  {
    if |s| > 0 && IsJsWhitespace(s[0]) then TrimStart(s[1..]) else s
  }

  /** `s.trimEnd()`: the longest prefix of `s` that does not end with whitespace. */
  function TrimEnd(s: string): (r: string)
    ensures |r| <= |s| && r == s[..|r|]
    ensures |r| > 0 ==> !IsJsWhitespace(r[|r| - 1])
    ensures forall i :: |r| <= i < |s| ==> IsJsWhitespace(s[i])
  {
    if |s| > 0 && IsJsWhitespace(s[|s| - 1]) then TrimEnd(s[..|s| - 1]) else s
  }

  /** `s.trim()`. */
  function Trim(s: string): string
  {
    TrimEnd(TrimStart(s))
  }

  /** Trimming leaves a string alone when it neither starts nor ends with whitespace. */
  lemma TrimUnchanged(s: string)
    requires |s| > 0 && !IsJsWhitespace(s[0]) && !IsJsWhitespace(s[|s| - 1])
    ensures Trim(s) == s
  {
  }

  /** A value wrapped in single quotes, verbatim: no escaping of quotes inside it. */
  function Quote(v: string): string
  {
    "'" + v + "'"
  }

  /** `values.map((v) => `'${v}'`).join(" | ")`. */
  function QuotedUnion(values: seq<string>): string
  {
    Join(seq(|values|, i requires 0 <= i < |values| => Quote(values[i])), " | ")
  }

  /** The literal union names every value, each single-quoted and otherwise verbatim. */
  lemma QuotedUnionHasEveryValue(values: seq<string>, v: string)
    requires v in values
    ensures Contains(QuotedUnion(values), "'" + v + "'")
  {
    var quoted := seq(|values|, i requires 0 <= i < |values| => Quote(values[i]));
    var k :| 0 <= k < |values| && values[k] == v;
    JoinContainsEachPart(quoted, " | ", k);
  }

  /** A one-value union is just that value quoted. */
  lemma QuotedUnionSingle(v: string)
    ensures QuotedUnion([v]) == "'" + v + "'"
  {
  }
}

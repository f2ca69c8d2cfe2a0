/** JavaScript string operations used by the client: `toLowerCase`, `includes`,
    `trim`, the relational operators on strings, and `Array.prototype.join`.
    A string is a sequence of Unicode code points; JavaScript counts and
    compares UTF-16 code units, which agree with code points inside the Basic
    Multilingual Plane. */
module Text {

  /** `toLowerCase` on one character; only the ASCII letters are mapped. */
  function LowerChar(c: char): (r: char)
    ensures 'A' <= c <= 'Z' ==> r as int == c as int + 32
    ensures !('A' <= c <= 'Z') ==> r == c
  {
    if 'A' <= c <= 'Z' then (c as int + 32) as char else c
  }

  function ToLower(s: string): (r: string)
    ensures |r| == |s|
    ensures forall i :: 0 <= i < |s| ==> r[i] == LowerChar(s[i])
  {
    if s == [] then [] else [LowerChar(s[0])] + ToLower(s[1..])
  }

  lemma {:induction false} ToLowerIdempotent(s: string)
    ensures ToLower(ToLower(s)) == ToLower(s)
  {
    var once := ToLower(s);
    var twice := ToLower(once);
    assert |twice| == |once|;
    forall i | 0 <= i < |s| ensures twice[i] == once[i] {
      assert once[i] == LowerChar(s[i]);
    }
  }

  lemma ToLowerAppend(a: string, b: string)
    ensures ToLower(a + b) == ToLower(a) + ToLower(b)
  {
    var whole := ToLower(a + b);
    var parts := ToLower(a) + ToLower(b);
    assert |whole| == |parts|;
    forall i | 0 <= i < |whole| ensures whole[i] == parts[i] {
      if i < |a| {
        assert (a + b)[i] == a[i];
      } else {
        assert (a + b)[i] == b[i - |a|];
      }
    }
  }

  /** `needle` occurs in `hay` at position `k`. */
  predicate OccursAt(hay: string, needle: string, k: int)
  {
    0 <= k && k + |needle| <= |hay| && hay[k..k + |needle|] == needle
  }

  /** `hay.includes(needle)`, computed by scanning. */
  function Includes(hay: string, needle: string): (r: bool)
    decreases |hay|
  {
    if |needle| > |hay| then false
    else if hay[..|needle|] == needle then true
    else Includes(hay[1..], needle)
  }

  /** The scan agrees with the definition of "occurs somewhere". */
  lemma {:induction false} IncludesIff(hay: string, needle: string)
    ensures Includes(hay, needle) <==> exists k :: OccursAt(hay, needle, k)
    decreases |hay|
  {
    if |needle| > |hay| {
    } else if hay[..|needle|] == needle {
      assert OccursAt(hay, needle, 0);
    } else {
      IncludesIff(hay[1..], needle);
      if exists k :: OccursAt(hay, needle, k) {
        var k :| OccursAt(hay, needle, k);
        assert k != 0;
        assert hay[1..][k - 1..k - 1 + |needle|] == hay[k..k + |needle|];
        assert OccursAt(hay[1..], needle, k - 1);
      }
      if exists k :: OccursAt(hay[1..], needle, k) {
        var k :| OccursAt(hay[1..], needle, k);
        assert hay[1..][k..k + |needle|] == hay[k + 1..k + 1 + |needle|];
        assert OccursAt(hay, needle, k + 1);
      }
    }
  }

  lemma IncludesEmpty(hay: string)
    ensures Includes(hay, "")
  {
    IncludesIff(hay, "");
    assert OccursAt(hay, "", 0);
  }

  lemma IncludesSelf(s: string)
    ensures Includes(s, s)
  {
    IncludesIff(s, s);
    assert OccursAt(s, s, 0);
  }

  /** The white-space and line-terminator characters removed by `trim` and
      matched by `\s`: tab, vertical tab, form feed, space, no-break space,
      the byte-order mark, the other space separators (U+1680, U+2000 to
      U+200A, U+202F, U+205F, U+3000), line feed, carriage return and the
      line and paragraph separators. */
  predicate IsSpace(c: char)
  {
    c == '\t' || c == '\U{B}' || c == '\U{C}' || c == ' ' || c == '\U{A0}' || c == '\U{FEFF}'
    || c == '\U{1680}' || '\U{2000}' <= c <= '\U{200A}' || c == '\U{202F}' || c == '\U{205F}' || c == '\U{3000}'
    || c == '\n' || c == '\r' || c == '\U{2028}' || c == '\U{2029}'
  }

  /** `!s.trim()`: the trimmed string is empty exactly when every character is
      white space. */
  predicate IsBlank(s: string)
  {
    forall i :: 0 <= i < |s| ==> IsSpace(s[i])
  }

  /** JavaScript `a < b` on strings: lexicographic order, here on code
      points. */
  predicate StrLess(a: string, b: string)
    decreases |a|
  {
    if b == [] then false
    else if a == [] then true
    else if a[0] != b[0] then a[0] < b[0]
    else StrLess(a[1..], b[1..])
  }

  lemma {:induction false} StrLessIrreflexive(a: string)
    ensures !StrLess(a, a)
    decreases |a|
  {
    if a != [] { StrLessIrreflexive(a[1..]); }
  }

  lemma {:induction false} StrLessTransitive(a: string, b: string, c: string)
    requires StrLess(a, b) && StrLess(b, c)
    ensures StrLess(a, c)
    decreases |a|
  {
    if a != [] && a[0] == b[0] && b[0] == c[0] {
      StrLessTransitive(a[1..], b[1..], c[1..]);
    }
  }

  lemma {:induction false} StrLessTotal(a: string, b: string)
    requires a != b
    ensures StrLess(a, b) || StrLess(b, a)
    decreases |a|
  {
    if a != [] && b != [] && a[0] == b[0] {
      assert a == [a[0]] + a[1..] && b == [b[0]] + b[1..];
      StrLessTotal(a[1..], b[1..]);
    }
  }

  /** `values.join(sep)`. */
  function Join(values: seq<string>, sep: string): (r: string)
  {
    if values == [] then ""
    else if |values| == 1 then values[0]
    else values[0] + sep + Join(values[1..], sep)
  }

  /** Joining adds exactly one separator between neighbours. */
  lemma {:induction false} JoinLength(values: seq<string>, sep: string)
    requires values != []
    ensures |Join(values, sep)| == SumLengths(values) + (|values| - 1) * |sep|
  {
    if |values| > 1 { JoinLength(values[1..], sep); }
  }

  function SumLengths(values: seq<string>): nat
  {
    if values == [] then 0 else |values[0]| + SumLengths(values[1..])
  }
}

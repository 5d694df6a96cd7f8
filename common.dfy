/** Shared value types and the string operations the platform relies on:
    Python truthiness of optional strings, `str.strip()` emptiness, ASCII
    case folding (SQLite's `lower()`), substring search (SQL `ILIKE '%t%'`)
    and the binary string collation SQLite uses for `ORDER BY name`. */
module Common {

  datatype Option<T> = None | Some(value: T)

  /** Python truthiness of an optional string: `None` and `''` are falsy. */
  predicate Truthy(s: Option<string>) {
    s.Some? && s.value != ""
  }

  /** The characters `str.strip()` removes: those for which Python's
      `str.isspace()` holds (the Unicode separators and the ASCII and C1
      controls with a whitespace or separator bidirectional class). */
  predicate IsSpace(c: char) {
    || '\U{9}' <= c <= '\U{D}'      // tab, line feed, vertical tab, form feed, carriage return
    || '\U{1C}' <= c <= '\U{20}'    // file, group, record and unit separators; space
    || c == '\U{85}' || c == '\U{A0}' || c == '\U{1680}'
    || '\U{2000}' <= c <= '\U{200A}'
    || c == '\U{2028}' || c == '\U{2029}' || c == '\U{202F}' || c == '\U{205F}' || c == '\U{3000}'
  }

  /** `s.strip() == ''`: the string holds nothing but whitespace. */
  predicate IsBlank(s: string) {
    forall i :: 0 <= i < |s| ==> IsSpace(s[i])
  }

  /** WTForms' view of a raw text input that is missing or blank. */
  predicate BlankInput(s: Option<string>) {
    s.None? || IsBlank(s.value)
  }

  function LowerChar(c: char): (d: char)
    ensures 'A' <= c <= 'Z' ==> 'a' <= d <= 'z'
    ensures !('A' <= c <= 'Z') ==> d == c
  {
    if 'A' <= c <= 'Z' then (c as int - 'A' as int + 'a' as int) as char else c
  }

  /** SQLite's `lower()`: ASCII letters only. */
  function Lower(s: string): (r: string)
    ensures |r| == |s|
    ensures forall i :: 0 <= i < |s| ==> r[i] == LowerChar(s[i])
  {
    seq(|s|, i requires 0 <= i < |s| => LowerChar(s[i]))
  }

  /** `t` occurs in `s` at position `i`. */
  predicate OccursAt(s: string, t: string, i: nat) {
    i + |t| <= |s| && s[i..i + |t|] == t
  }

  /** Substring search, written as the scan a `LIKE '%t%'` performs. */
  function FindFrom(s: string, t: string, i: nat): (r: bool)
    requires i <= |s|
    decreases |s| - i
  {
    if OccursAt(s, t, i) then true
    else if i + |t| >= |s| then false
    else FindFrom(s, t, i + 1)
  }

  lemma {:induction false} FindFromCorrect(s: string, t: string, i: nat)
    requires i <= |s|
    ensures FindFrom(s, t, i) <==> exists j :: i <= j && OccursAt(s, t, j)
    decreases |s| - i
  {
    if OccursAt(s, t, i) {
    } else if i + |t| >= |s| {
      forall j | i <= j
        ensures !OccursAt(s, t, j)
      {
        if j == i {
        } else {
          assert j + |t| > |s|;
        }
      }
    } else {
      FindFromCorrect(s, t, i + 1);
      if exists j :: i <= j && OccursAt(s, t, j) {
        var j :| i <= j && OccursAt(s, t, j);
        assert j != i;
        assert i + 1 <= j && OccursAt(s, t, j);
      }
    }
  }

  /** `t` is a substring of `s`. */
  function Contains(s: string, t: string): (r: bool)
    ensures r <==> exists j :: OccursAt(s, t, j)
  {
    FindFromCorrect(s, t, 0);
    FindFrom(s, t, 0)
  }

  /** `s ILIKE '%t%'` as SQLite evaluates it: case-insensitive for ASCII. */
  function ContainsIgnoringCase(s: string, t: string): (r: bool)
    ensures r <==> exists j :: OccursAt(Lower(s), Lower(t), j)
  {
    Contains(Lower(s), Lower(t))
  }

  /** SQLite's BINARY collation: code-point lexicographic order. */
  predicate LexLeq(a: string, b: string) {
    if a == [] then true
    else if b == [] then false
    else if a[0] != b[0] then a[0] < b[0]
    else LexLeq(a[1..], b[1..])
  }

  lemma {:induction false} LexLeqTotal(a: string, b: string)
    ensures LexLeq(a, b) || LexLeq(b, a)
  {
    if a != [] && b != [] && a[0] == b[0] {
      LexLeqTotal(a[1..], b[1..]);
    }
  }

  lemma {:induction false} LexLeqTransitive(a: string, b: string, c: string)
    requires LexLeq(a, b) && LexLeq(b, c)
    ensures LexLeq(a, c)
  {
    if a != [] && b != [] && c != [] && a[0] == b[0] && b[0] == c[0] {
      LexLeqTransitive(a[1..], b[1..], c[1..]);
    }
  }
}

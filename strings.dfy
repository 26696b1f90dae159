/**
 * The three functions of Go's `strings` package that the create path uses:
 * `Contains`, `Replace` with a count of one, and `Split`.
 */
module GoStrings {
  import opened Optional

  /** `sub` occurs in `s` starting at index `i`. */
  predicate OccursAt(s: string, sub: string, i: nat)
  {
    i + |sub| <= |s| && s[i..i + |sub|] == sub
  }

  /** The first index at or after `from` where `sub` occurs in `s`. */
  function IndexFrom(s: string, sub: string, from: nat): (r: Option<nat>)
    requires from <= |s|
    ensures r.Some? ==> from <= r.value && OccursAt(s, sub, r.value)
    ensures r.Some? ==> forall j :: from <= j < r.value ==> !OccursAt(s, sub, j)
    ensures r.None? ==> forall j :: from <= j <= |s| ==> !OccursAt(s, sub, j)
    decreases |s| - from
  {
    if OccursAt(s, sub, from) then Some(from)
    else if from == |s| then None
    else IndexFrom(s, sub, from + 1)
  }

  /** Go's `strings.Index`: the first occurrence of `sub` in `s`, if any. */
  function Index(s: string, sub: string): (r: Option<nat>)
    ensures r.Some? ==> OccursAt(s, sub, r.value)
    ensures r.Some? ==> forall j :: 0 <= j < r.value ==> !OccursAt(s, sub, j)
    ensures r.None? ==> forall j :: 0 <= j <= |s| ==> !OccursAt(s, sub, j)
  {
    IndexFrom(s, sub, 0)
  }

  /** Go's `strings.Contains`: `sub` occurs anywhere in `s`, not only as a prefix. */
  predicate Contains(s: string, sub: string): (b: bool)
    ensures b <==> exists i :: 0 <= i <= |s| && OccursAt(s, sub, i)
  {
    Index(s, sub).Some?
  }

  /** Go's `strings.Replace(s, pattern, replacement, 1)`: only the first occurrence is replaced. */
  function ReplaceFirst(s: string, pattern: string, replacement: string): (r: string)
    ensures !Contains(s, pattern) ==> r == s
    ensures Contains(s, pattern) ==>
      var i := Index(s, pattern).value;
      r == s[..i] + replacement + s[i + |pattern|..] && |r| == |s| - |pattern| + |replacement|
  {
    match Index(s, pattern)
    case None => s
    case Some(i) => s[..i] + replacement + s[i + |pattern|..]
  }

  /** Joins `parts` with `sep` between neighbours; the inverse of `Split`. */
  function Join(parts: seq<string>, sep: char): string
    requires |parts| >= 1
  {
    if |parts| == 1 then parts[0] else parts[0] + [sep] + Join(parts[1..], sep)
  }

  /**
   * Go's `strings.Split(s, sep)` for a one-character separator: the pieces
   * between separators, empty pieces included and nothing trimmed; the
   * empty string gives one empty piece.
   */
  function Split(s: string, sep: char): (parts: seq<string>)
    ensures |parts| >= 1
    ensures forall i :: 0 <= i < |parts| ==> sep !in parts[i]
    ensures Join(parts, sep) == s
    decreases |s|
  {
    if |s| == 0 then [""]
    else if s[0] == sep then [""] + Split(s[1..], sep)
    else
      var rest := Split(s[1..], sep);
      [[s[0]] + rest[0]] + rest[1..]
  }

  /** Splitting a join of separator-free pieces gives the pieces back. */
  lemma {:induction false} SplitJoin(parts: seq<string>, sep: char)
    requires |parts| >= 1
    requires forall i :: 0 <= i < |parts| ==> sep !in parts[i]
    ensures Split(Join(parts, sep), sep) == parts
    decreases |parts|, |parts[0]|
  {
    if |parts[0]| > 0 {
      var head := parts[0];
      var shorter := [head[1..]] + parts[1..];
      assert Join(parts, sep) == [head[0]] + Join(shorter, sep) by {
        if |parts| > 1 {
          assert Join(shorter, sep) == head[1..] + [sep] + Join(parts[1..], sep);
        }
      }
      assert head[0] != sep by { assert head[0] in parts[0]; }
      assert forall i :: 0 <= i < |shorter| ==> sep !in shorter[i] by {
        forall i | 0 <= i < |shorter| ensures sep !in shorter[i] {
          if i > 0 {
            assert shorter[i] == parts[i];
          }
        }
      }
      SplitJoin(shorter, sep);
      assert ([head[0]] + Join(shorter, sep))[1..] == Join(shorter, sep);
      assert [head[0]] + head[1..] == head;
      assert parts == [head] + parts[1..];
    } else if |parts| > 1 {
      assert Join(parts, sep) == [sep] + Join(parts[1..], sep);
      SplitJoin(parts[1..], sep);
      assert ([sep] + Join(parts[1..], sep))[1..] == Join(parts[1..], sep);
      assert parts == [""] + parts[1..];
    }
  }
}

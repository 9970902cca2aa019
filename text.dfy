/**
 * The string primitives the recipe library relies on: Ruby's `\s`
 * character class, substring and prefix tests as its regular expressions
 * use them, and the first field of `String#split(/\s+/)`.
 */
module Text {
  import opened Wrappers

  /** Ruby's `\s`: space, tab, line feed, vertical tab, form feed, carriage return. */
  predicate IsSpace(c: char) {
    c == ' ' || c == '\t' || c == '\n' || c == '\U{0B}' || c == '\U{0C}' || c == '\r'
  }

  /** No character of `s` is whitespace. */
  predicate NoSpace(s: string) {
    forall k :: 0 <= k < |s| ==> !IsSpace(s[k])
  }

  /** Every character of `s` is whitespace (true of the empty string). */
  predicate AllSpace(s: string) {
    forall k :: 0 <= k < |s| ==> IsSpace(s[k])
  }

  predicate HasPrefix(s: string, p: string) {
    |p| <= |s| && s[..|p|] == p
  }

  predicate HasSuffix(s: string, p: string) {
    |p| <= |s| && s[|s| - |p|..] == p
  }

  /** `t` occurs in `s` starting at index `i`. */
  predicate OccursAt(s: string, t: string, i: int) {
    0 <= i && i + |t| <= |s| && s[i..i + |t|] == t
  }

  /** Unanchored regular-expression match of a literal: `s =~ /t/`. */
  function Contains(s: string, t: string): (r: bool)
    ensures r <==> exists i :: OccursAt(s, t, i)
    decreases |s|
  {
    if |s| < |t| then
      assert forall i :: !OccursAt(s, t, i);
      false
    else if s[..|t|] == t then
      assert OccursAt(s, t, 0);
      true
    else
      var rest := Contains(s[1..], t);
      assert forall i :: OccursAt(s[1..], t, i) <==> OccursAt(s, t, i + 1) by {
        forall i ensures OccursAt(s[1..], t, i) <==> OccursAt(s, t, i + 1) {
          if 0 <= i && i + |t| <= |s| - 1 {
            assert s[1..][i..i + |t|] == s[i + 1..i + 1 + |t|];
          }
        }
      }
      assert !OccursAt(s, t, 0);
      assert (exists i :: OccursAt(s, t, i)) ==> exists i :: OccursAt(s[1..], t, i) by {
        if exists i :: OccursAt(s, t, i) {
          var i :| OccursAt(s, t, i);
          assert OccursAt(s[1..], t, i - 1);
        }
      }
      rest
  }

  /** The longest prefix of `s` that holds no whitespace. */
  function NonSpacePrefix(s: string): (r: string)
    ensures HasPrefix(s, r) && NoSpace(r)
    ensures |r| == |s| || IsSpace(s[|r|])
  {
    if s == [] || IsSpace(s[0]) then [] else [s[0]] + NonSpacePrefix(s[1..])
  }

  /**
   * `s.split(/\s+/)[0]` in Ruby: `nil` when `s` is empty or all
   * whitespace (every field is empty and trailing empty fields are
   * dropped), otherwise the text before the first whitespace character,
   * which is "" when `s` starts with whitespace.
   */
  function FirstField(s: string): (r: Option<string>)
    ensures r.None? <==> AllSpace(s)
    ensures r.Some? ==> HasPrefix(s, r.value) && NoSpace(r.value)
    ensures r.Some? ==> |r.value| == |s| || IsSpace(s[|r.value|])
    ensures r.Some? && r.value == [] <==> !AllSpace(s) && IsSpace(s[0])
  {
    if AllSpace(s) then None else Some(NonSpacePrefix(s))
  }

  /** A maximal whitespace-free prefix is unique: the prefix is `w`. */
  lemma {:induction false} NonSpacePrefixOf(w: string, rest: string)
    requires NoSpace(w)
    requires rest == [] || IsSpace(rest[0])
    ensures NonSpacePrefix(w + rest) == w
    decreases |w|
  {
    if w == [] {
      assert w + rest == rest;
    } else {
      assert (w + rest)[0] == w[0];
      assert (w + rest)[1..] == w[1..] + rest;
      NonSpacePrefixOf(w[1..], rest);
    }
  }

  /**
   * Splitting a line that starts with the word `w` and continues with
   * whitespace (or nothing) gives back `w` as the first field.
   */
  lemma FirstFieldOfLine(w: string, rest: string)
    requires w != [] && NoSpace(w)
    requires rest == [] || IsSpace(rest[0])
    ensures FirstField(w + rest) == Some(w)
  {
    assert (w + rest)[0] == w[0];
    NonSpacePrefixOf(w, rest);
  }

  /** Ruby's `\w` (ASCII): letters, digits and underscore. */
  predicate IsWordChar(c: char) {
    ('a' <= c <= 'z') || ('A' <= c <= 'Z') || ('0' <= c <= '9') || c == '_'
  }

  /** Index of the last occurrence of `c` in `s`, if any. */
  function LastIndexOf(s: string, c: char): (r: Option<nat>)
    ensures r.Some? ==> r.value < |s| && s[r.value] == c
    ensures r.Some? ==> forall j :: r.value < j < |s| ==> s[j] != c
    ensures r.None? ==> forall j :: 0 <= j < |s| ==> s[j] != c
  {
    if s == [] then None
    else if s[|s| - 1] == c then Some(|s| - 1)
    else LastIndexOf(s[..|s| - 1], c)
  }
}

/**
 * The namespace sanitiser of setNamespace: lower-case the name, then replace
 * every maximal run of characters outside [a-z0-9.-] with a single '-'.
 * Lower-casing is modelled for ASCII letters only.
 */
module Namespaces {

  /** A character the sanitised name may contain. */
  predicate IsNameChar(ch: char) {
    ('a' <= ch <= 'z') || ('0' <= ch <= '9') || ch == '.' || ch == '-'
  }

  predicate AllNameChars(s: string) {
    forall i :: 0 <= i < |s| ==> IsNameChar(s[i])
  }

  predicate NoNameChars(s: string) {
    forall i :: 0 <= i < |s| ==> !IsNameChar(s[i])
  }

  function LowerChar(ch: char): (r: char)
    ensures 'A' <= ch <= 'Z' ==> 'a' <= r <= 'z' && r as int - 'a' as int == ch as int - 'A' as int
    ensures !('A' <= ch <= 'Z') ==> r == ch
    ensures IsNameChar(ch) ==> r == ch
  {
    if 'A' <= ch <= 'Z' then (ch as int + ('a' as int - 'A' as int)) as char else ch
  }

  /** strings.ToLower, restricted to ASCII letters. */
  function ToLower(s: string): (r: string)
    ensures |r| == |s|
    ensures forall i :: 0 <= i < |s| ==> r[i] == LowerChar(s[i])
  {
    seq(|s|, i requires 0 <= i < |s| => LowerChar(s[i]))
  }

  /** What is left of `s` once its leading run of invalid characters is dropped. */
  function DropInvalidRun(s: string): (r: string)
    ensures |r| <= |s|
    ensures r == [] || IsNameChar(r[0])
  {
    if s == [] || IsNameChar(s[0]) then s else DropInvalidRun(s[1..])
  }

  /** Only the leading invalid characters are dropped: what is left is a suffix of `s`. */
  lemma {:induction false} DropInvalidRunIsSuffix(s: string)
    ensures var r := DropInvalidRun(s);
            r == s[|s| - |r|..] && NoNameChars(s[..|s| - |r|])
  {
    if s != [] && !IsNameChar(s[0]) {
      DropInvalidRunIsSuffix(s[1..]);
      var r := DropInvalidRun(s);
      assert s[..|s| - |r|] == [s[0]] + s[1..][..|s[1..]| - |r|];
    }
  }

  /** Replaces every maximal run of invalid characters with one '-'. */
  function ReplaceInvalidRuns(s: string): (r: string)
    ensures AllNameChars(r)
    ensures |r| <= |s|
    decreases |s|
  {
    if s == [] then []
    else if IsNameChar(s[0]) then [s[0]] + ReplaceInvalidRuns(s[1..])
    else "-" + ReplaceInvalidRuns(DropInvalidRun(s[1..]))
  }

  /** The namespace as setNamespace configures and creates it. */
  function SanitizeNamespace(name: string): (r: string)
    ensures AllNameChars(r)
    ensures |r| <= |name|
  {
    ReplaceInvalidRuns(ToLower(name))
  }

  /** A name made only of valid characters passes through unchanged. */
  lemma {:induction false} ReplaceKeepsValidName(s: string)
    requires AllNameChars(s)
    ensures ReplaceInvalidRuns(s) == s
    decreases |s|
  {
    if s != [] {
      ReplaceKeepsValidName(s[1..]);
      assert s == [s[0]] + s[1..];
    }
  }

  /** A valid first character is copied and the rest sanitised on its own. */
  lemma ReplaceValidHead(s: string)
    requires |s| > 0 && IsNameChar(s[0])
    ensures ReplaceInvalidRuns(s) == [s[0]] + ReplaceInvalidRuns(s[1..])
  {
  }

  /** A valid stretch is copied through, character for character. */
  lemma {:induction false} ReplaceCopiesValidPrefix(v: string, s: string)
    requires AllNameChars(v)
    ensures ReplaceInvalidRuns(v + s) == v + ReplaceInvalidRuns(s)
    decreases |v|
  {
    if v == [] {
      assert v + s == s;
    } else {
      var vs := v + s;
      assert vs[0] == v[0] && vs[1..] == v[1..] + s;
      ReplaceValidHead(vs);
      ReplaceCopiesValidPrefix(v[1..], s);
      assert [v[0]] + (v[1..] + ReplaceInvalidRuns(s)) == v + ReplaceInvalidRuns(s);
    }
  }

  /** A maximal run of invalid characters, however long, becomes exactly one '-'. */
  lemma {:induction false} ReplaceCollapsesInvalidRun(b: string, s: string)
    requires |b| > 0 && NoNameChars(b)
    requires s == [] || IsNameChar(s[0])
    ensures ReplaceInvalidRuns(b + s) == "-" + ReplaceInvalidRuns(s)
  {
    assert (b + s)[0] == b[0];
    assert (b + s)[1..] == b[1..] + s;
    DropsWholeRun(b[1..], s);
  }

  lemma {:induction false} DropsWholeRun(b: string, s: string)
    requires NoNameChars(b)
    requires s == [] || IsNameChar(s[0])
    ensures DropInvalidRun(b + s) == s
    decreases |b|
  {
    if b == [] {
      assert b + s == s;
    } else {
      assert (b + s)[0] == b[0];
      assert (b + s)[1..] == b[1..] + s;
      DropsWholeRun(b[1..], s);
    }
  }

  /** Sanitising an already sanitised name changes nothing. */
  lemma SanitizeIdempotent(name: string)
    ensures SanitizeNamespace(SanitizeNamespace(name)) == SanitizeNamespace(name)
  {
    var once := SanitizeNamespace(name);
    assert ToLower(once) == once;
    ReplaceKeepsValidName(once);
  }

  /** A mixed-case name with an underscore and a trailing symbol. */
  lemma SanitizeExample()
    ensures SanitizeNamespace("My_NS!") == "my-ns-"
  {
    assert ToLower("My_NS!") == "my_ns!";
    assert ReplaceInvalidRuns("!") == "-";
    assert ReplaceInvalidRuns("s!") == "s-";
    assert ReplaceInvalidRuns("ns!") == "ns-";
    assert ReplaceInvalidRuns("_ns!") == "-ns-";
    assert ReplaceInvalidRuns("y_ns!") == "y-ns-";
  }
}

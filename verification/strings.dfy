/**
 This module models the two functions of Go's `strings` package that the
 ingestion pipeline uses: `Split` with a one-character separator (the
 pipeline splits on '|' and '/') and `HasSuffix`.
 */
module Strings {

  /* Concatenates `parts`, putting `sep` between consecutive parts. Not a
  function the pipeline calls: it states what Split inverts. */
  function Join(parts: seq<string>, sep: char): string
    requires |parts| >= 1
    decreases |parts|
  {
    if |parts| == 1 then parts[0] else parts[0] + [sep] + Join(parts[1..], sep)
  }

  /* True iff no part contains the separator. */
  predicate NoSep(parts: seq<string>, sep: char) {
    forall i :: 0 <= i < |parts| ==> sep !in parts[i]
  }

  /* Go's `strings.Split(s, sep)` for a one-character `sep`: the maximal
  pieces between separators. There is always at least one piece; the empty
  string splits into one empty piece. */
  function Split(s: string, sep: char): (parts: seq<string>)
    ensures |parts| >= 1
    ensures NoSep(parts, sep)
    ensures Join(parts, sep) == s
    decreases |s|
  {
    if |s| == 0 then [""]
    else
      var rest := Split(s[1..], sep);
      if s[0] == sep then
        assert ([""] + rest)[1..] == rest;
        [""] + rest
      else
        var parts := [[s[0]] + rest[0]] + rest[1..];
        assert |rest| > 1 ==> Join(rest, sep) == rest[0] + [sep] + Join(rest[1..], sep);
        assert |rest| > 1 ==> parts[1..] == rest[1..];
        assert s == [s[0]] + s[1..];
        parts
  }

  /* Splitting a separator-free prefix `w` glues `w` onto the first piece. */
  lemma {:induction false} SplitPrefix(w: string, t: string, sep: char)
    requires sep !in w
    ensures Split(w + t, sep) == [w + Split(t, sep)[0]] + Split(t, sep)[1..]
    decreases |w|
  {
    if |w| == 0 {
      assert w + t == t && w + Split(t, sep)[0] == Split(t, sep)[0];
      assert Split(t, sep) == [Split(t, sep)[0]] + Split(t, sep)[1..];
    } else {
      var p := Split(t, sep);
      SplitPrefix(w[1..], t, sep);
      var rest := Split(w[1..] + t, sep);
      assert rest == [w[1..] + p[0]] + p[1..];
      assert (w + t)[0] == w[0] && (w + t)[1..] == w[1..] + t;
      assert Split(w + t, sep) == [[w[0]] + rest[0]] + rest[1..];
      assert [w[0]] + (w[1..] + p[0]) == w + p[0];
    }
  }

  /* Split inverts Join when no part contains the separator. */
  lemma {:induction false} SplitJoin(parts: seq<string>, sep: char)
    requires |parts| >= 1
    requires NoSep(parts, sep)
    ensures Split(Join(parts, sep), sep) == parts
    decreases |parts|
  {
    var w := parts[0];
    assert sep !in w;
    if |parts| == 1 {
      SplitPrefix(w, "", sep);
      assert w + "" == w;
    } else {
      var j := Join(parts[1..], sep);
      SplitJoin(parts[1..], sep);
      assert ([sep] + j)[0] == sep && ([sep] + j)[1..] == j;
      assert Split([sep] + j, sep) == [""] + parts[1..];
      assert w + [sep] + j == w + ([sep] + j);
      SplitPrefix(w, [sep] + j, sep);
      assert w + "" == w;
    }
  }

  /* Go's `strings.HasSuffix`. */
  predicate HasSuffix(s: string, suffix: string) {
    |suffix| <= |s| && s[|s| - |suffix|..] == suffix
  }

  /* HasSuffix character by character: the last |suffix| characters of `s`
  are, one by one, those of `suffix`. */
  lemma HasSuffixChars(s: string, suffix: string)
    ensures HasSuffix(s, suffix) <==>
      |suffix| <= |s| && forall i :: 0 <= i < |suffix| ==> s[|s| - |suffix| + i] == suffix[i]
  {
    if |suffix| <= |s| && forall i :: 0 <= i < |suffix| ==> s[|s| - |suffix| + i] == suffix[i] {
      assert s[|s| - |suffix|..] == suffix;
    }
  }

  /* Every string ending in `suffix` has it as a suffix, `suffix` itself
  included, and a string shorter than `suffix` never has. */
  lemma HasSuffixAppend(p: string, suffix: string)
    ensures HasSuffix(p + suffix, suffix)
    ensures |p| < |suffix| ==> !HasSuffix(p, suffix)
  {
    assert (p + suffix)[|p|..] == suffix;
  }
}

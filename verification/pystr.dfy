/** The Python string operations the identifier and file-name rules are built
    from, with the meaning CPython gives them for one-character separators.
    Whitespace and case are the ASCII ones (see README, "Left out"). */
module PyStr {
  import opened Outcomes

  /** `c.isspace()` on ASCII: space, \t \n \v \f \r and the separators \x1c-\x1f. */
  predicate IsSpace(c: char) {
    c == ' ' || ('\t' <= c <= '\r') || ('\U{1C}' <= c <= '\U{1F}')
  }

  predicate AllSpace(s: string) {
    forall i :: 0 <= i < |s| ==> IsSpace(s[i])
  }

  predicate NoSpace(s: string) {
    forall i :: 0 <= i < |s| ==> !IsSpace(s[i])
  }

  // ---------------------------------------------------------------------------
  // str.split(sep) and sep.join(parts)
  // ---------------------------------------------------------------------------

  /** Position of the first occurrence of `c` (`s.index(c)`). */
  function IndexOf(s: string, c: char): (i: nat)
    requires c in s
    ensures i < |s| && s[i] == c && c !in s[..i]
  {
    if s[0] == c then 0
    else
      var j := IndexOf(s[1..], c);
      assert s[..1 + j] == [s[0]] + s[1..][..j];
      1 + j
  }

  /** `s.split(sep)` for a one-character separator: the pieces between the
      separators, empty pieces included. */
  function Split(s: string, sep: char): (parts: seq<string>)
    ensures |parts| >= 1
    ensures forall k :: 0 <= k < |parts| ==> sep !in parts[k]
    decreases |s|
  {
    if sep !in s then [s]
    else
      var i := IndexOf(s, sep);
      [s[..i]] + Split(s[i + 1..], sep)
  }

  /** `sep.join(parts)`. */
  function Join(parts: seq<string>, sep: char): string
    requires |parts| >= 1
  {
    if |parts| == 1 then parts[0] else parts[0] + [sep] + Join(parts[1..], sep)
  }

  /** Splitting at the first separator. */
  lemma {:induction false} SplitAtFirst(a: string, b: string, sep: char)
    requires sep !in a
    ensures Split(a + [sep] + b, sep) == [a] + Split(b, sep)
  {
    var s := a + [sep] + b;
    assert s[|a|] == sep;
    assert s[..|a|] == a;
    var i := IndexOf(s, sep);
    assert s[..i] == a;
    assert s[i + 1..] == b;
  }

  /** Joining the pieces gives back the string that was split. */
  lemma {:induction false} JoinSplit(s: string, sep: char)
    ensures Join(Split(s, sep), sep) == s
    decreases |s|
  {
    if sep in s {
      var i := IndexOf(s, sep);
      var rest := Split(s[i + 1..], sep);
      var parts := [s[..i]] + rest;
      assert Split(s, sep) == parts;
      assert parts[1..] == rest;
      JoinSplit(s[i + 1..], sep);
      assert Join(parts, sep) == s[..i] + [sep] + Join(rest, sep);
      assert s == s[..i] + [sep] + s[i + 1..];
    }
  }

  /** Splitting a join of separator-free pieces gives back the pieces. */
  lemma {:induction false} SplitJoin(parts: seq<string>, sep: char)
    requires |parts| >= 1
    requires forall k :: 0 <= k < |parts| ==> sep !in parts[k]
    ensures Split(Join(parts, sep), sep) == parts
    decreases |parts|
  {
    if |parts| > 1 {
      var tail := parts[1..];
      assert forall k :: 0 <= k < |tail| ==> sep !in tail[k] by {
        forall k | 0 <= k < |tail| ensures sep !in tail[k] {
          assert tail[k] == parts[k + 1];
        }
      }
      SplitJoin(tail, sep);
      assert sep !in parts[0];
      assert Join(parts, sep) == parts[0] + [sep] + Join(tail, sep);
      SplitAtFirst(parts[0], Join(tail, sep), sep);
      assert [parts[0]] + tail == parts;
    }
  }

  /** The first piece is the text before the first separator (all of `s`
      when there is none). */
  lemma {:induction false} SplitFirst(s: string, sep: char)
    ensures var p := Split(s, sep)[0];
            |p| <= |s| && s[..|p|] == p && (sep !in s ==> p == s) && (|p| < |s| ==> s[|p|] == sep)
  {
  }

  /** Appending a separator and a separator-free text appends one piece. */
  lemma {:induction false} SplitAppend(a: string, b: string, sep: char)
    requires sep !in b
    ensures Split(a + [sep] + b, sep) == Split(a, sep) + [b]
    decreases |a|
  {
    if sep !in a {
      SplitAtFirst(a, b, sep);
      assert Split(b, sep) == [b];
      assert Split(a, sep) == [a];
    } else {
      var i := IndexOf(a, sep);
      var head, tail := a[..i], a[i + 1..];
      assert a == head + [sep] + tail;
      SplitAppend(tail, b, sep);
      SplitAppendStep(head, tail, b, sep);
    }
  }

  /** One step of `SplitAppend`: a piece before the first separator. */
  lemma {:induction false} SplitAppendStep(head: string, tail: string, b: string, sep: char)
    requires sep !in head
    requires Split(tail + [sep] + b, sep) == Split(tail, sep) + [b]
    ensures Split(head + [sep] + tail + [sep] + b, sep) == Split(head + [sep] + tail, sep) + [b]
  {
    var rest := tail + [sep] + b;
    assert Split(head + [sep] + tail, sep) == [head] + Split(tail, sep) by {
      SplitAtFirst(head, tail, sep);
    }
    assert Split(head + [sep] + tail + [sep] + b, sep) == [head] + Split(rest, sep) by {
      assert head + [sep] + tail + [sep] + b == head + [sep] + rest;
      SplitAtFirst(head, rest, sep);
    }
    assert [head] + (Split(tail, sep) + [b]) == ([head] + Split(tail, sep)) + [b];
  }

  /** A text before a first separator is determined by the whole. */
  lemma {:induction false} SeparatedAt(h1: string, t1: string, h2: string, t2: string, sep: char)
    requires sep !in h1 && sep !in h2
    requires h1 + [sep] + t1 == h2 + [sep] + t2
    ensures h1 == h2 && t1 == t2
  {
    SplitAtFirst(h1, t1, sep);
    SplitAtFirst(h2, t2, sep);
    assert h1 == Split(h1 + [sep] + t1, sep)[0];
    assert h2 == Split(h2 + [sep] + t2, sep)[0];
    var u := h1 + [sep] + t1;
    assert t1 == u[|h1| + 1..];
    assert t2 == (h2 + [sep] + t2)[|h2| + 1..];
  }

  /** There is exactly one more piece than there are separators. */
  lemma {:induction false} SplitCount(s: string, sep: char)
    ensures |Split(s, sep)| == multiset(s)[sep] + 1
    decreases |s|
  {
    if sep in s {
      var i := IndexOf(s, sep);
      SplitCount(s[i + 1..], sep);
      assert s == s[..i] + [sep] + s[i + 1..];
      assert multiset(s) == multiset(s[..i]) + multiset([sep]) + multiset(s[i + 1..]);
    } else {
      assert multiset(s)[sep] == 0;
    }
  }

  // ---------------------------------------------------------------------------
  // str.lstrip(), str.rstrip(), str.strip() and str.split()[0]
  // ---------------------------------------------------------------------------

  /** `s.lstrip()`. */
  function TrimLeft(s: string): (r: string)
    ensures |r| <= |s| && r == s[|s| - |r|..]
    ensures AllSpace(s[..|s| - |r|])
    ensures r == [] || !IsSpace(r[0])
  {
    if s != [] && IsSpace(s[0]) then
      var r := TrimLeft(s[1..]);
      assert s[..|s| - |r|] == [s[0]] + s[1..][..|s| - 1 - |r|];
      r
    else s
  }

  /** `s.rstrip()`. */
  function TrimRight(s: string): (r: string)
    ensures |r| <= |s| && r == s[..|r|]
    ensures AllSpace(s[|r|..])
    ensures r == [] || !IsSpace(r[|r| - 1])
  {
    if s != [] && IsSpace(s[|s| - 1]) then
      var r := TrimRight(s[..|s| - 1]);
      assert s[|r|..] == s[..|s| - 1][|r|..] + [s[|s| - 1]];
      r
    else s
  }

  /** `s.strip()`. */
  function Strip(s: string): (r: string)
    ensures |r| <= |s|
    ensures r == [] || (!IsSpace(r[0]) && !IsSpace(r[|r| - 1]))
  {
    TrimRight(TrimLeft(s))
  }

  lemma {:induction false} TrimLeftPadded(w: string, t: string)
    requires AllSpace(w)
    requires t == [] || !IsSpace(t[0])
    ensures TrimLeft(w + t) == t
    decreases |w|
  {
    if w != [] {
      assert (w + t)[1..] == w[1..] + t;
      TrimLeftPadded(w[1..], t);
    } else {
      assert w + t == t;
    }
  }

  lemma {:induction false} TrimRightPadded(t: string, w: string)
    requires AllSpace(w)
    requires t == [] || !IsSpace(t[|t| - 1])
    ensures TrimRight(t + w) == t
    decreases |w|
  {
    if w != [] {
      assert (t + w)[..|t + w| - 1] == t + w[..|w| - 1];
      TrimRightPadded(t, w[..|w| - 1]);
    } else {
      assert t + w == t;
    }
  }

  /** Stripping removes exactly the surrounding whitespace: a text whose ends
      are not whitespace comes back from any padding. */
  lemma {:induction false} StripPadded(w1: string, a: string, w2: string)
    requires AllSpace(w1) && AllSpace(w2)
    requires a == [] || (!IsSpace(a[0]) && !IsSpace(a[|a| - 1]))
    ensures Strip(w1 + a + w2) == a
  {
    if a == [] {
      assert w1 + a + w2 == (w1 + w2) + [];
      TrimLeftPadded(w1 + w2, []);
    } else {
      assert w1 + a + w2 == w1 + (a + w2);
      TrimLeftPadded(w1, a + w2);
      TrimRightPadded(a, w2);
    }
  }

  /** Stripping twice is stripping once. */
  lemma {:induction false} StripIdempotent(s: string)
    ensures Strip(Strip(s)) == Strip(s)
  {
    var r := Strip(s);
    var e: string := [];
    StripPadded(e, r, e);
    assert e + r + e == r;
  }

  /** Length of the word at the start of `t`. */
  function WordEnd(t: string): (i: nat)
    ensures i <= |t| && NoSpace(t[..i])
    ensures i < |t| ==> IsSpace(t[i])
  {
    if t == [] || IsSpace(t[0]) then 0
    else
      var j := WordEnd(t[1..]);
      assert t[..1 + j] == [t[0]] + t[1..][..j];
      1 + j
  }

  /** `s.split()[0]`: the first whitespace-delimited word; None where Python
      raises IndexError because the string holds no word. */
  function FirstWord(s: string): (w: Option<string>)
    ensures w.None? <==> AllSpace(s)
    ensures w.Some? ==> w.value != [] && NoSpace(w.value)
  {
    var t := TrimLeft(s);
    if t == [] then
      assert s[..|s|] == s;
      None
    else
      assert t[0] == s[|s| - |t|];
      Some(t[..WordEnd(t)])
  }

  /** A word followed by whitespace or the end ends where the word does. */
  lemma {:induction false} WordEndOf(word: string, rest: string)
    requires NoSpace(word)
    requires rest == [] || IsSpace(rest[0])
    ensures WordEnd(word + rest) == |word|
    decreases |word|
  {
    if word == [] {
      assert word + rest == rest;
    } else {
      assert (word + rest)[1..] == word[1..] + rest;
      assert !IsSpace(word[0]);
      WordEndOf(word[1..], rest);
    }
  }

  /** The first word of a string that starts (after whitespace) with `word`
      followed by whitespace or the end is `word`. */
  lemma {:induction false} FirstWordOf(w: string, word: string, rest: string)
    requires AllSpace(w)
    requires word != [] && NoSpace(word)
    requires rest == [] || IsSpace(rest[0])
    ensures FirstWord(w + word + rest) == Some(word)
  {
    var t := word + rest;
    assert w + word + rest == w + t;
    TrimLeftPadded(w, t);
    WordEndOf(word, rest);
    assert t[..|word|] == word;
  }

  // ---------------------------------------------------------------------------
  // str.lower(), str.replace(a, b), `sub in s`
  // ---------------------------------------------------------------------------

  function LowerChar(c: char): char {
    if 'A' <= c <= 'Z' then (c as int + 32) as char else c
  }

  /** `s.lower()` on ASCII letters. */
  function Lower(s: string): (r: string)
    ensures |r| == |s|
    ensures forall i :: 0 <= i < |s| ==> r[i] == LowerChar(s[i])
  {
    seq(|s|, i requires 0 <= i < |s| => LowerChar(s[i]))
  }

  /** Lower-casing twice is lower-casing once. */
  lemma {:induction false} LowerIdempotent(s: string)
    ensures Lower(Lower(s)) == Lower(s)
  {
  }

  /** `Lower(s)` is the string of the characters' lower cases (a way to
      evaluate it on a given text). */
  lemma {:induction false} LowerOf(s: string, t: string)
    requires |s| == |t|
    requires forall i :: 0 <= i < |s| ==> t[i] == LowerChar(s[i])
    ensures Lower(s) == t
  {
  }

  /** `s.replace(a, b)` for one-character `a` and `b`. */
  function ReplaceChar(s: string, a: char, b: char): (r: string)
    ensures |r| == |s|
    ensures forall i :: 0 <= i < |s| ==> r[i] == (if s[i] == a then b else s[i])
  {
    seq(|s|, i requires 0 <= i < |s| => if s[i] == a then b else s[i])
  }

  /** `ReplaceChar(s, a, b)` character by character (a way to evaluate it
      on a given text). */
  lemma {:induction false} ReplaceCharOf(s: string, a: char, b: char, t: string)
    requires |s| == |t|
    requires forall i :: 0 <= i < |s| ==> t[i] == (if s[i] == a then b else s[i])
    ensures ReplaceChar(s, a, b) == t
  {
  }

  /** No `a` is left after replacing it by another character. */
  lemma {:induction false} ReplaceCharRemoves(s: string, a: char, b: char)
    requires a != b
    ensures a !in ReplaceChar(s, a, b)
  {
    var r := ReplaceChar(s, a, b);
    forall i | 0 <= i < |r|
      ensures r[i] != a
    {
    }
  }

  predicate OccursAt(s: string, sub: string, i: nat) {
    i + |sub| <= |s| && s[i..i + |sub|] == sub
  }

  /** An occurrence in `s[1..]` is an occurrence in `s`, one place later. */
  lemma {:induction false} OccursShift(s: string, sub: string, j: nat)
    requires |s| > 0
    ensures OccursAt(s[1..], sub, j) <==> OccursAt(s, sub, j + 1)
  {
    if j + 1 + |sub| <= |s| {
      assert s[1..][j..j + |sub|] == s[j + 1..j + 1 + |sub|];
    }
  }

  /** `sub in s` for strings. */
  function Contains(s: string, sub: string): (b: bool)
    ensures b <==> exists i: nat :: OccursAt(s, sub, i)
    decreases |s|
  {
    if |sub| > |s| then false
    else if s[..|sub|] == sub then
      assert OccursAt(s, sub, 0);
      true
    else
      var rest := Contains(s[1..], sub);
      if rest then
        var j: nat :| OccursAt(s[1..], sub, j);
        OccursShift(s, sub, j);
        true
      else
        forall i: nat | OccursAt(s, sub, i)
          ensures false
        {
          OccursShift(s, sub, i - 1);
        }
        false
  }

  /** `os.path.split(path)[-1]`: the part after the last '/'. */
  function BaseName(path: string): (name: string)
    ensures '/' !in name
    ensures |name| <= |path| && path[|path| - |name|..] == name
  {
    var parts := Split(path, '/');
    JoinSplit(path, '/');
    JoinEndsWithLast(parts, '/');
    parts[|parts| - 1]
  }

  /** The base name of "<dir>/<file>" is the file's name. */
  lemma {:induction false} BaseNameOf(dir: string, file: string)
    requires '/' !in file
    ensures BaseName(dir + "/" + file) == file
  {
    SplitAppend(dir, file, '/');
  }

  lemma {:induction false} JoinEndsWithLast(parts: seq<string>, sep: char)
    requires |parts| >= 1
    ensures var j := Join(parts, sep); var l := parts[|parts| - 1];
            |l| <= |j| && j[|j| - |l|..] == l
    decreases |parts|
  {
    if |parts| > 1 {
      JoinEndsWithLast(parts[1..], sep);
      var rest := Join(parts[1..], sep);
      var j := parts[0] + [sep] + rest;
      assert j[|j| - |rest|..] == rest;
    }
  }
}

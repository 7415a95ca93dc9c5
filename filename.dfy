/**
 * The name of the downloaded file: the full name with every run of
 * whitespace replaced by one underscore (`replace(/\s+/g, '_')`), followed by
 * `_Resume.html`.
 */
module FileName {

  /**
   * A character of the JavaScript `\s` class: the ASCII whitespace, the
   * no-break space, the byte-order mark, the line and paragraph separators
   * and the Unicode space separators.
   */
  predicate IsSpace(c: char) {
    var n := c as int;
    n == 0x09 || n == 0x0A || n == 0x0B || n == 0x0C || n == 0x0D || n == 0x20
    || n == 0xA0 || n == 0x1680 || (0x2000 <= n <= 0x200A)
    || n == 0x2028 || n == 0x2029 || n == 0x202F || n == 0x205F || n == 0x3000 || n == 0xFEFF
  }

  predicate NoSpace(s: string) {
    forall i :: 0 <= i < |s| ==> !IsSpace(s[i])
  }

  predicate AllSpace(s: string) {
    forall i :: 0 <= i < |s| ==> IsSpace(s[i])
  }

  /** What is left once the maximal run of whitespace at the front of `s` is dropped. */
  function SkipSpaces(s: string): (r: string)
    ensures |r| <= |s|
  {
    if s != [] && IsSpace(s[0]) then SkipSpaces(s[1..]) else s
  }

  /** The characters dropped are all whitespace, and what is left is a suffix that does not start with whitespace. */
  lemma {:induction false} SkipSpacesSuffix(s: string)
    ensures SkipSpaces(s) == s[|s| - |SkipSpaces(s)|..]
    ensures AllSpace(s[..|s| - |SkipSpaces(s)|])
    ensures SkipSpaces(s) == [] || !IsSpace(SkipSpaces(s)[0])
  {
    if s != [] && IsSpace(s[0]) {
      var r := SkipSpaces(s[1..]);
      SkipSpacesSuffix(s[1..]);
      assert s[1..][|s| - 1 - |r|..] == s[|s| - |r|..];
      forall i | 0 <= i < |s| - |r|
        ensures IsSpace(s[i])
      {
        if i > 0 {
          assert s[i] == s[1..][..|s| - 1 - |r|][i - 1];
        }
      }
    }
  }

  /**
   * `s.replace(/\s+/g, '_')`: each maximal whitespace run becomes one
   * underscore, so the result holds no whitespace and is no longer than `s`.
   */
  function Collapse(s: string): (r: string)
    ensures NoSpace(r)
    ensures |r| <= |s|
    decreases |s|
  {
    if s == [] then []
    else if IsSpace(s[0]) then "_" + Collapse(SkipSpaces(s[1..]))
    else [s[0]] + Collapse(s[1..])
  }

  /** The download name for a full name. */
  function DownloadName(fullName: string): (r: string)
    ensures NoSpace(r)
    ensures |r| >= 12 && r[|r| - 12..] == "_Resume.html"
  {
    Collapse(fullName) + "_Resume.html"
  }

  // ---------------------------------------------------------------------------
  // Lemmas

  /** A name without whitespace is left as it is. */
  lemma {:induction false} CollapseIdentity(s: string)
    requires NoSpace(s)
    ensures Collapse(s) == s
  {
    if s != [] {
      CollapseIdentity(s[1..]);
    }
  }

  /** A name without whitespace gets just the suffix. */
  lemma DownloadNameNoSpace(fullName: string)
    requires NoSpace(fullName)
    ensures DownloadName(fullName) == fullName + "_Resume.html"
  {
    CollapseIdentity(fullName);
  }

  /** Skipping spaces in front of a text that has a non-space stays inside that text. */
  lemma {:induction false} SkipSpacesAppend(a: string, b: string)
    requires !AllSpace(a)
    ensures SkipSpaces(a + b) == SkipSpaces(a) + b
    ensures SkipSpaces(a) != []
  {
    assert a != [];
    assert (a + b)[0] == a[0];
    if IsSpace(a[0]) {
      var k :| 0 <= k < |a| && !IsSpace(a[k]);
      assert k != 0;
      assert a[1..][k - 1] == a[k];
      assert (a + b)[1..] == a[1..] + b;
      SkipSpacesAppend(a[1..], b);
      assert SkipSpaces(a + b) == SkipSpaces(a[1..] + b);
      assert SkipSpaces(a) == SkipSpaces(a[1..]);
    } else {
      assert SkipSpaces(a + b) == a + b;
    }
  }

  /**
   * A text that ends in a non-space collapses independently of what follows
   * it: a whitespace run never straddles its end.
   */
  lemma {:induction false} CollapseAppend(a: string, b: string)
    requires a == [] || !IsSpace(a[|a| - 1])
    ensures Collapse(a + b) == Collapse(a) + Collapse(b)
    decreases |a|, 1
  {
    if a == [] {
      assert a + b == b;
    } else if IsSpace(a[0]) {
      CollapseAppendRun(a, b);
    } else {
      assert (a + b)[0] == a[0];
      assert (a + b)[1..] == a[1..] + b;
      CollapseAppend(a[1..], b);
    }
  }

  /** CollapseAppend for a text that starts with a whitespace run. */
  lemma {:induction false} CollapseAppendRun(a: string, b: string)
    requires a != [] && IsSpace(a[0]) && !IsSpace(a[|a| - 1])
    ensures Collapse(a + b) == Collapse(a) + Collapse(b)
    decreases |a|, 0
  {
    var t := SkipSpaces(a[1..]);
    RunThenText(a, b);
    CollapseAppend(t, b);
    assert (a + b)[0] == a[0];
    assert Collapse(a + b) == "_" + Collapse(t + b);
    assert Collapse(a) == "_" + Collapse(t);
    assert "_" + (Collapse(t) + Collapse(b)) == ("_" + Collapse(t)) + Collapse(b);
  }

  /**
   * After the leading whitespace run of a text that ends in a non-space,
   * what is left is non-empty, still ends in that non-space, and is
   * followed directly by whatever came after the text.
   */
  lemma RunThenText(a: string, b: string)
    requires a != [] && IsSpace(a[0]) && !IsSpace(a[|a| - 1])
    ensures SkipSpaces((a + b)[1..]) == SkipSpaces(a[1..]) + b
    ensures SkipSpaces(a[1..]) != [] && !IsSpace(SkipSpaces(a[1..])[|SkipSpaces(a[1..])| - 1])
  {
    var t := SkipSpaces(a[1..]);
    assert (a + b)[1..] == a[1..] + b;
    assert !AllSpace(a[1..]) by {
      assert a[1..][|a| - 2] == a[|a| - 1];
    }
    SkipSpacesAppend(a[1..], b);
    SkipSpacesSuffix(a[1..]);
    assert t == a[1..][|a[1..]| - |t|..];
    assert t[|t| - 1] == a[|a| - 1];
  }

  /** A whitespace run in front of a text that starts with a non-space becomes one underscore. */
  lemma CollapseRun(r: string, b: string)
    requires r != [] && AllSpace(r)
    requires b == [] || !IsSpace(b[0])
    ensures Collapse(r + b) == "_" + Collapse(b)
  {
    assert (r + b)[0] == r[0];
    assert (r + b)[1..] == r[1..] + b;
    SkipRun(r[1..], b);
  }

  lemma {:induction false} SkipRun(r: string, b: string)
    requires AllSpace(r)
    requires b == [] || !IsSpace(b[0])
    ensures SkipSpaces(r + b) == b
  {
    if r == [] {
      assert r + b == b;
    } else {
      assert (r + b)[0] == r[0];
      assert (r + b)[1..] == r[1..] + b;
      SkipRun(r[1..], b);
    }
  }

  /**
   * Each maximal whitespace run between two pieces of text becomes exactly
   * one underscore, and the pieces themselves collapse on their own.
   */
  lemma CollapseBetween(a: string, r: string, b: string)
    requires a == [] || !IsSpace(a[|a| - 1])
    requires r != [] && AllSpace(r)
    requires b == [] || !IsSpace(b[0])
    ensures Collapse(a + r + b) == Collapse(a) + "_" + Collapse(b)
  {
    assert a + r + b == a + (r + b);
    CollapseAppend(a, r + b);
    CollapseRun(r, b);
    Regroup(Collapse(a + r + b), Collapse(a), Collapse(r + b), Collapse(b));
  }

  lemma Regroup(whole: string, head: string, rest: string, tail: string)
    requires whole == head + rest && rest == "_" + tail
    ensures whole == head + "_" + tail
  {
  }
}

/** The few string operations the backend relies on: Python's `str.strip()`, the
    blank-line filter applied to TLE files, the substring test `sub in s`, and the
    ordering `<` of `str` values (code-point lexicographic). */
module Text {

  /** The characters `str.isspace()` accepts, hence the ones `str.strip()` removes. */
  predicate IsSpace(c: char)
  {
    || c == ' ' || c == '\t' || c == '\n' || c == '\r' || c == '\U{0B}' || c == '\U{0C}'
    || ('\U{1C}' <= c <= '\U{1F}') || c == '\U{85}' || c == '\U{A0}' || c == '\U{1680}'
    || ('\U{2000}' <= c <= '\U{200A}') || c == '\U{2028}' || c == '\U{2029}'
    || c == '\U{202F}' || c == '\U{205F}' || c == '\U{3000}'
  }

  /** A line `line.strip()` turns into the empty (falsy) string. */
  predicate IsBlank(s: string)
  {
    forall i :: 0 <= i < |s| ==> IsSpace(s[i])
  }

  function TrimStart(s: string): string
  {
    if s != [] && IsSpace(s[0]) then TrimStart(s[1..]) else s
  }

  lemma {:induction false} TrimStartSpec(s: string)
    ensures var r := TrimStart(s);
      |r| <= |s| && r == s[|s| - |r|..] && (r == [] || !IsSpace(r[0])) && IsBlank(s[..|s| - |r|])
  {
    if s != [] && IsSpace(s[0]) {
      TrimStartSpec(s[1..]);
      var r := TrimStart(s[1..]);
      assert s[1..][..|s| - 1 - |r|] == s[1..|s| - |r|];
    }
  }

  function TrimEnd(s: string): string
  {
    if s != [] && IsSpace(s[|s| - 1]) then TrimEnd(s[..|s| - 1]) else s
  }

  lemma {:induction false} TrimEndSpec(s: string)
    ensures var r := TrimEnd(s);
      |r| <= |s| && r == s[..|r|] && (r == [] || !IsSpace(r[|r| - 1])) && IsBlank(s[|r|..])
  {
    if s != [] && IsSpace(s[|s| - 1]) {
      var init := s[..|s| - 1];
      TrimEndSpec(init);
      var r := TrimEnd(init);
      assert TrimEnd(s) == r;
      assert r == s[..|r|] by { assert init[..|r|] == s[..|r|]; }
      forall i | 0 <= i < |s[|r|..]| ensures IsSpace(s[|r|..][i]) {
        if |r| + i < |s| - 1 {
          assert s[|r|..][i] == init[|r|..][i];
        }
      }
    }
  }

  /** `s.strip()`: the longest slice of `s` that neither starts nor ends with white space,
      obtained by dropping white space only. */
  function Strip(s: string): (r: string)
  {
    TrimEnd(TrimStart(s))
  }

  /** `s[i..j]` is what is left of `s` once white space alone is cut from both ends. */
  predicate TrimmedTo(s: string, i: nat, j: nat)
  {
    i <= j <= |s| && IsBlank(s[..i]) && IsBlank(s[j..])
  }

  lemma StripSpec(s: string)
    ensures exists i: nat, j: nat :: TrimmedTo(s, i, j) && Strip(s) == s[i..j]
    ensures Strip(s) == [] || (!IsSpace(Strip(s)[0]) && !IsSpace(Strip(s)[|Strip(s)| - 1]))
    ensures Strip(s) == [] <==> IsBlank(s)
  {
    var t := TrimStart(s);
    var r := TrimEnd(t);
    TrimStartSpec(s);
    TrimEndSpec(t);
    var i: nat := |s| - |t|;
    var j: nat := i + |r|;
    assert t == s[i..];
    assert r == s[i..j];
    assert s[j..] == t[|r|..];
    assert TrimmedTo(s, i, j);
    if r == [] {
      assert t[|r|..] == t;
      assert t == [];
      assert s[..i] == s;
    } else {
      assert s[i] == r[0];
    }
  }

  /** What the filter keeps of one line: the line itself unless it is all white space
      (which is when `line.strip()` is empty, by `StripSpec`). */
  function Kept(line: string): seq<string>
  {
    if IsBlank(line) then [] else [line]
  }

  /** `[line for line in lines if line.strip()]`. */
  function NonBlankLines(lines: seq<string>): (r: seq<string>)
    ensures |r| <= |lines|
  {
    if lines == [] then [] else Kept(lines[0]) + NonBlankLines(lines[1..])
  }

  /** The filter keeps exactly the lines that are not blank. */
  lemma {:induction false} NonBlankLinesMembers(lines: seq<string>)
    ensures forall l :: l in NonBlankLines(lines) <==> l in lines && !IsBlank(l)
  {
    if lines != [] {
      NonBlankLinesMembers(lines[1..]);
      assert forall l :: l in lines <==> l == lines[0] || l in lines[1..];
    }
  }

  /** A single line is kept exactly when `line.strip()` is a non-empty (truthy) string. */
  lemma NonBlankLinesSingle(line: string)
    ensures NonBlankLines([line]) == if Strip(line) == [] then [] else [line]
  {
    StripSpec(line);
    assert [line][1..] == [];
  }

  /** The filter works line by line: it keeps the order of the lines and their repeats. */
  lemma {:induction false} NonBlankLinesAppend(a: seq<string>, b: seq<string>)
    ensures NonBlankLines(a + b) == NonBlankLines(a) + NonBlankLines(b)
  {
    if a == [] {
      assert a + b == b;
    } else {
      NonBlankLinesAppend(a[1..], b);
      assert (a + b)[0] == a[0] && (a + b)[1..] == a[1..] + b;
      ConcatAssoc(Kept(a[0]), NonBlankLines(a[1..]), NonBlankLines(b));
    }
  }

  lemma ConcatAssoc<T>(x: seq<T>, y: seq<T>, z: seq<T>)
    ensures x + (y + z) == (x + y) + z
  {
  }

  /** Python's `sub in s` on strings. */
  function Contains(s: string, sub: string): bool
    decreases |s|
  {
    if |sub| > |s| then false
    else s[..|sub|] == sub || Contains(s[1..], sub)
  }

  predicate OccursAt(s: string, sub: string, i: int)
  {
    0 <= i <= |s| - |sub| && s[i..i + |sub|] == sub
  }

  /** A string that lacks one of the characters of `sub` does not contain `sub`. */
  lemma {:induction false} LackingCharNotContained(s: string, sub: string, k: nat)
    requires k < |sub| && sub[k] !in s
    ensures !Contains(s, sub)
    decreases |s|
  {
    if |sub| <= |s| {
      assert s[..|sub|][k] == s[k] && s[k] in s;
      assert forall c :: c in s[1..] ==> c in s;
      LackingCharNotContained(s[1..], sub, k);
    }
  }

  lemma {:induction false} ContainsSpec(s: string, sub: string)
    ensures Contains(s, sub) <==> exists i :: OccursAt(s, sub, i)
    decreases |s|
  {
    if |sub| > |s| {
    } else if s[..|sub|] == sub {
      assert OccursAt(s, sub, 0);
    } else {
      ContainsSpec(s[1..], sub);
      if Contains(s[1..], sub) {
        var i :| OccursAt(s[1..], sub, i);
        assert s[i + 1..i + 1 + |sub|] == s[1..][i..i + |sub|];
        assert OccursAt(s, sub, i + 1);
      } else {
        forall i | OccursAt(s, sub, i) ensures false {
          assert i != 0;
          var t := s[1..];
          assert t[i - 1..i - 1 + |sub|] == s[i..i + |sub|];
          assert OccursAt(t, sub, i - 1);
        }
      }
    }
  }

  /** Python's `a < b` on `str`: code-point lexicographic, a proper prefix is smaller. */
  predicate Less(a: string, b: string)
  {
    if a == [] then b != []
    else b != [] && (a[0] < b[0] || (a[0] == b[0] && Less(a[1..], b[1..])))
  }

  lemma {:induction false} LessIrreflexive(a: string)
    ensures !Less(a, a)
  {
    if a != [] { LessIrreflexive(a[1..]); }
  }
}

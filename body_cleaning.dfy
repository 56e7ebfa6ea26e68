/** The post-processing of the model's email body: three global regular-expression
    replacements applied in order (newProcessSubmission.ts:169-171).

    Each of the three patterns is a backslash followed by one more character, so one
    function models all three: `Replace(p, s)` scans `s` left to right and rewrites each
    non-overlapping match of pass `p`'s pattern, which is what `String.replace` with a
    global regular expression does. */
module BodyCleaning {

  /** The three passes, in the order the source applies them:
      `/\\n/g -> "\n"`, `/\\./g -> ""` and `/\\\\/g -> "\\"`. */
  datatype Pass = NewlineEscape | AnyEscape | DoubleBackslash

  /** The characters that `.` in a JavaScript regular expression without the `s` flag
      does not match. */
  predicate IsLineTerminator(c: char) {
    c == '\n' || c == '\r' || c == '\U{2028}' || c == '\U{2029}'
  }

  /** Whether `c`, right after a backslash, completes a match of pass `p`. */
  predicate Completes(p: Pass, c: char) {
    match p
    case NewlineEscape => c == 'n'
    case AnyEscape => !IsLineTerminator(c)
    case DoubleBackslash => c == '\\'
  }

  /** The text that replaces one match of pass `p`. */
  function Replacement(p: Pass): (r: seq<char>)
    ensures |r| <= 1
  {
    match p
    case NewlineEscape => "\n"
    case AnyEscape => ""
    case DoubleBackslash => "\\"
  }

  /** A match of pass `p` starts at index `i` of `s`. */
  predicate MatchAt(p: Pass, s: seq<char>, i: int) {
    0 <= i < |s| - 1 && s[i] == '\\' && Completes(p, s[i + 1])
  }

  predicate HasMatch(p: Pass, s: seq<char>) {
    exists i | 0 <= i < |s| - 1 :: MatchAt(p, s, i)
  }

  /** `s.replace(pattern of p, Replacement(p))` with the global flag: every match found
      scanning left to right is replaced, and scanning resumes after the match. Each
      match is two characters and its replacement at most one, so the result is never
      longer than the input. */
  function Replace(p: Pass, s: seq<char>): (r: seq<char>)
    ensures |r| <= |s|
    decreases |s|
  {
    if s == [] then []
    else if MatchAt(p, s, 0) then Replacement(p) + Replace(p, s[2..])
    else [s[0]] + Replace(p, s[1..])
  }

  /** The whole cleaning chain, in the source's order. */
  function CleanBody(body: seq<char>): seq<char> {
    Replace(DoubleBackslash, Replace(AnyEscape, Replace(NewlineEscape, body)))
  }

  /** Away from index 0, the matches of `s` are those of `s[1..]`, shifted by one. */
  lemma MatchShift(p: Pass, s: seq<char>, i: int)
    requires s != [] && i >= 1
    ensures MatchAt(p, s, i) <==> MatchAt(p, s[1..], i - 1)
  {
  }

  /** Without a match, a pass leaves the string as it is. */
  lemma {:induction false} ReplaceNoMatch(p: Pass, s: seq<char>)
    requires !HasMatch(p, s)
    ensures Replace(p, s) == s
    decreases |s|
  {
    if s != [] {
      assert !MatchAt(p, s, 0);
      forall i | MatchAt(p, s[1..], i) ensures false {
        MatchShift(p, s, i + 1);
      }
      ReplaceNoMatch(p, s[1..]);
    }
  }

  /** With a match, a pass makes the string strictly shorter. */
  lemma {:induction false} ReplaceShrinks(p: Pass, s: seq<char>)
    requires HasMatch(p, s)
    ensures |Replace(p, s)| < |s|
    decreases |s|
  {
    if !MatchAt(p, s, 0) {
      var i :| 0 <= i < |s| - 1 && MatchAt(p, s, i);
      assert i >= 1;
      MatchShift(p, s, i);
      ReplaceShrinks(p, s[1..]);
    }
  }

  /** A pass changes the string exactly when its pattern occurs in it. */
  lemma ReplaceFixedIff(p: Pass, s: seq<char>)
    ensures Replace(p, s) == s <==> !HasMatch(p, s)
  {
    if HasMatch(p, s) {
      ReplaceShrinks(p, s);
    } else {
      ReplaceNoMatch(p, s);
    }
  }

  /** A string with no backslash has no match of any pass. */
  lemma NoBackslashNoMatch(p: Pass, s: seq<char>)
    requires '\\' !in s
    ensures !HasMatch(p, s)
  {
  }

  /** Where no match starts at the head, a pass keeps the head character in front. */
  lemma ReplaceKeepsHead(p: Pass, s: seq<char>)
    requires s != [] && !MatchAt(p, s, 0)
    ensures Replace(p, s) == [s[0]] + Replace(p, s[1..])
  {
  }

  /** After the second pass no backslash is followed by a character other than a line
      terminator: every such pair has been deleted. */
  lemma {:induction false} AnyEscapeClears(s: seq<char>)
    ensures !HasMatch(AnyEscape, Replace(AnyEscape, s))
    decreases |s|
  {
    if s == [] {
    } else if MatchAt(AnyEscape, s, 0) {
      assert Replace(AnyEscape, s) == Replace(AnyEscape, s[2..]);
      AnyEscapeClears(s[2..]);
    } else {
      var rest := Replace(AnyEscape, s[1..]);
      var r := Replace(AnyEscape, s);
      assert r == [s[0]] + rest;
      AnyEscapeClears(s[1..]);
      if s[0] == '\\' && |s| >= 2 {
        assert IsLineTerminator(s[1]);
        ReplaceKeepsHead(AnyEscape, s[1..]);
        assert rest[0] == s[1];
      }
      assert r[1..] == rest;
      forall i | MatchAt(AnyEscape, r, i) ensures false {
        if i >= 1 {
          MatchShift(AnyEscape, r, i);
        }
      }
    }
  }

  /** Every match of the first or third pass is also a match of the second. */
  lemma AnyEscapeSubsumes(p: Pass, s: seq<char>)
    requires !HasMatch(AnyEscape, s)
    ensures !HasMatch(p, s)
  {
    forall i | MatchAt(p, s, i) ensures false {
      assert MatchAt(AnyEscape, s, i);
    }
  }

  /** The third pass never changes the string; the cleaned body contains none of the
      three patterns; and cleaning never lengthens the body. */
  lemma CleanBodyFacts(body: seq<char>)
    ensures CleanBody(body) == Replace(AnyEscape, Replace(NewlineEscape, body))
    ensures !HasMatch(NewlineEscape, CleanBody(body))
    ensures !HasMatch(AnyEscape, CleanBody(body))
    ensures !HasMatch(DoubleBackslash, CleanBody(body))
    ensures |CleanBody(body)| <= |body|
  {
    var t := Replace(AnyEscape, Replace(NewlineEscape, body));
    AnyEscapeClears(Replace(NewlineEscape, body));
    AnyEscapeSubsumes(DoubleBackslash, t);
    ReplaceNoMatch(DoubleBackslash, t);
    AnyEscapeSubsumes(NewlineEscape, t);
  }

  /** Cleaning an already cleaned body changes nothing. */
  lemma CleanBodyIdempotent(body: seq<char>)
    ensures CleanBody(CleanBody(body)) == CleanBody(body)
  {
    var t := CleanBody(body);
    CleanBodyFacts(body);
    ReplaceNoMatch(NewlineEscape, t);
    ReplaceNoMatch(AnyEscape, t);
    ReplaceNoMatch(DoubleBackslash, t);
  }

  /** A prefix without backslashes passes through a pass unchanged. */
  lemma {:induction false} ReplacePlainPrefix(p: Pass, u: seq<char>, v: seq<char>)
    requires '\\' !in u
    ensures Replace(p, u + v) == u + Replace(p, v)
    decreases |u|
  {
    if u != [] {
      assert (u + v)[1..] == u[1..] + v;
      assert (u + v)[0] == u[0] && u[0] in u;
      ReplaceKeepsHead(p, u + v);
      ReplacePlainPrefix(p, u[1..], v);
      assert [u[0]] + u[1..] == u;
    } else {
      assert u + v == v;
    }
  }

  /** A match in front of the string is replaced and the scan resumes after it. */
  lemma ReplaceMatchPrefix(p: Pass, c: char, v: seq<char>)
    requires Completes(p, c)
    ensures Replace(p, ['\\', c] + v) == Replacement(p) + Replace(p, v)
  {
    assert (['\\', c] + v)[2..] == v;
  }

  /** The passes must run in the source's order: the escaped newline followed by an
      escaped dot becomes one real newline, whereas running the second pass first would
      delete the escaped newline as well. */
  lemma PassOrderMatters()
    ensures Replace(NewlineEscape, "\\n\\.") == "\n\\."
    ensures Replace(AnyEscape, "\n\\.") == "\n"
    ensures CleanBody("\\n\\.") == "\n"
    ensures Replace(AnyEscape, "\\n\\.") == ""
  {
  }

  /** A body whose only backslash is one escaped newline comes out with a real newline
      in its place and nothing else changed. */
  lemma EscapedNewline(u: seq<char>, v: seq<char>)
    requires '\\' !in u && '\\' !in v
    ensures CleanBody(u + "\\n" + v) == u + "\n" + v
  {
    assert u + "\\n" + v == u + (['\\', 'n'] + v);
    ReplacePlainPrefix(NewlineEscape, u, ['\\', 'n'] + v);
    ReplaceMatchPrefix(NewlineEscape, 'n', v);
    ReplaceNoMatch(NewlineEscape, v) by { NoBackslashNoMatch(NewlineEscape, v); }
    var t := u + "\n" + v;
    assert Replace(NewlineEscape, u + "\\n" + v) == t;
    assert '\\' !in t;
    NoBackslashNoMatch(AnyEscape, t);
    ReplaceNoMatch(AnyEscape, t);
    NoBackslashNoMatch(DoubleBackslash, t);
    ReplaceNoMatch(DoubleBackslash, t);
  }

  lemma EscapedNewlineExample()
    ensures CleanBody("Hello,\\nThe ramp is broken.") == "Hello,\nThe ramp is broken."
  {
    var u, v := "Hello,", "The ramp is broken.";
    assert "Hello,\\nThe ramp is broken." == u + "\\n" + v;
    assert "Hello,\nThe ramp is broken." == u + "\n" + v;
    EscapedNewline(u, v);
  }
}

/** The cleaning rule both server-action files apply to a completion reply
    before parsing it (client/actions/interview.js:35 and
    client/actions/dashboard.js:36): every match of the pattern
    ```` ```(?:json)?\n? ```` is deleted, scanning left to right, and the
    remainder is trimmed as `String.prototype.trim` does. */
module FenceCleaning {

  /** The code points `trim` removes: ECMAScript WhiteSpace and LineTerminator. */
  const Whitespace: set<char> := {
    '\t', '\n', '\U{000B}', '\U{000C}', '\r', ' ', '\U{00A0}', '\U{1680}',
    '\U{2000}', '\U{2001}', '\U{2002}', '\U{2003}', '\U{2004}', '\U{2005}',
    '\U{2006}', '\U{2007}', '\U{2008}', '\U{2009}', '\U{200A}',
    '\U{2028}', '\U{2029}', '\U{202F}', '\U{205F}', '\U{3000}', '\U{FEFF}'
  }

  predicate IsWhitespace(c: char) {
    c in Whitespace
  }

  /** Neither end of `s` is white space. */
  predicate Trimmed(s: string) {
    s == [] || (!IsWhitespace(s[0]) && !IsWhitespace(s[|s| - 1]))
  }

  /** How many characters of white space `s` starts with. */
  function LeadingWhitespace(s: string): (n: nat)
    ensures n <= |s|
    ensures forall k :: 0 <= k < n ==> IsWhitespace(s[k])
    ensures n < |s| ==> !IsWhitespace(s[n])
  {
    if s != [] && IsWhitespace(s[0]) then 1 + LeadingWhitespace(s[1..]) else 0
  }

  /** How many characters of white space `s` ends with. */
  function TrailingWhitespace(s: string): (n: nat)
    ensures n <= |s|
    ensures forall k :: |s| - n <= k < |s| ==> IsWhitespace(s[k])
    ensures n < |s| ==> !IsWhitespace(s[|s| - n - 1])
  {
    if s != [] && IsWhitespace(s[|s| - 1]) then 1 + TrailingWhitespace(s[..|s| - 1]) else 0
  }

  /** `String.prototype.trim`: one contiguous slice of `s`, starting after
      its leading white space, neither of whose ends is white space, with
      only white space around it. */
  function Trim(s: string): (r: string)
    ensures Trimmed(r)
    ensures LeadingWhitespace(s) + |r| <= |s|
    ensures r == s[LeadingWhitespace(s)..LeadingWhitespace(s) + |r|]
    ensures forall k :: 0 <= k < LeadingWhitespace(s) ==> IsWhitespace(s[k])
    ensures forall k :: LeadingWhitespace(s) + |r| <= k < |s| ==> IsWhitespace(s[k])
  {
    var lo := LeadingWhitespace(s);
    var hi := |s| - TrailingWhitespace(s);
    if hi <= lo then [] else s[lo..hi]
  }

  predicate StartsWithFence(s: string) {
    |s| >= 3 && s[0] == '`' && s[1] == '`' && s[2] == '`'
  }

  /** No three consecutive backticks anywhere in `s`. */
  predicate NoFence(s: string) {
    forall i :: 0 <= i < |s| ==> !StartsWithFence(s[i..])
  }

  predicate NoBacktick(s: string) {
    forall i :: 0 <= i < |s| ==> s[i] != '`'
  }

  /** Length of the match of the pattern at the start of `s`: the three
      backticks, then `json` if it follows, then a line feed if one follows. */
  function MarkerLength(s: string): (n: nat)
    requires StartsWithFence(s)
    ensures 3 <= n <= |s|
  {
    var k := if |s| >= 7 && s[3..7] == "json" then 7 else 3;
    if k < |s| && s[k] == '\n' then k + 1 else k
  }

  /** The global `replace` of the pattern by the empty string: where a match
      starts it is deleted and scanning resumes after it; elsewhere one
      character is kept. */
  function StripFences(s: string): (r: string)
    decreases |s|
  {
    if s == [] then []
    else if StartsWithFence(s) then StripFences(s[MarkerLength(s)..])
    else [s[0]] + StripFences(s[1..])
  }

  /** The cleaned reply handed to `JSON.parse`. */
  function Clean(reply: string): string {
    Trim(StripFences(reply))
  }

  /** A prefix without backticks passes through the replacement untouched. */
  lemma {:induction false} StripFencesAfterPlainPrefix(a: string, b: string)
    requires NoBacktick(a)
    ensures StripFences(a + b) == a + StripFences(b)
  {
    if a != [] {
      assert (a + b)[0] == a[0];
      assert (a + b)[1..] == a[1..] + b;
      StripFencesAfterPlainPrefix(a[1..], b);
    } else {
      assert a + b == b;
    }
  }

  /** Text containing no backtick is only trimmed. */
  lemma CleanWithoutBacktick(s: string)
    requires NoBacktick(s)
    ensures Clean(s) == Trim(s)
  {
    StripFencesAfterPlainPrefix(s, []);
    assert s + [] == s;
  }

  /** White space at the end of a trimmed text is all that `trim` removes. */
  lemma TrimLineFeedSuffix(b: string)
    requires Trimmed(b)
    ensures Trim(b + "\n") == b
  {
    var s := b + "\n";
    assert s[|s| - 1] == '\n' && s[..|s| - 1] == b;
    assert TrailingWhitespace(s) == 1 + TrailingWhitespace(b);
    if b != [] {
      assert s[0] == b[0];
      assert s[0..|b|] == b;
    }
  }

  /** A reply that wraps a trimmed, backtick-free body in a `json` code fence
      cleans to exactly that body. */
  lemma CleanFencedJson(body: string)
    requires NoBacktick(body) && Trimmed(body)
    ensures Clean("```json\n" + body + "\n```") == body
  {
    var s := "```json\n" + body + "\n```";
    assert StartsWithFence(s);
    assert s[3..7] == "json" && s[7] == '\n';
    assert MarkerLength(s) == 8;
    assert s[8..] == body + "\n```";
    StripFencesAfterPlainPrefix(body, "\n```");
    var tail := "\n```";
    assert !StartsWithFence(tail) && tail[1..] == "```";
    assert StartsWithFence("```") && MarkerLength("```") == 3;
    assert StripFences("```") == [];
    assert StripFences(tail) == "\n";
    TrimLineFeedSuffix(body);
  }

  /** Where no match starts, the first character is kept as it is. */
  lemma StripFencesKeepsHead(t: string)
    requires t != [] && !StartsWithFence(t)
    ensures StripFences(t) == [t[0]] + StripFences(t[1..])
  {
  }

  /** A backtick kept by the replacement is not followed by two more. */
  lemma KeptBacktickStartsNoFence(s: string)
    requires s != [] && !StartsWithFence(s)
    ensures !StartsWithFence([s[0]] + StripFences(s[1..]))
  {
    var t := s[1..];
    if s[0] == '`' && t != [] {
      assert !StartsWithFence(t);
      StripFencesKeepsHead(t);
      if t[0] == '`' && t[1..] != [] {
        assert t[1] != '`';
        assert !StartsWithFence(t[1..]);
        StripFencesKeepsHead(t[1..]);
      }
    }
  }

  /** The replacement leaves no three consecutive backticks behind. */
  lemma {:induction false} StripFencesHasNoFence(s: string)
    ensures NoFence(StripFences(s))
    decreases |s|
  {
    if s == [] {
    } else if StartsWithFence(s) {
      StripFencesHasNoFence(s[MarkerLength(s)..]);
    } else {
      var rest := StripFences(s[1..]);
      var r := [s[0]] + rest;
      StripFencesHasNoFence(s[1..]);
      KeptBacktickStartsNoFence(s);
      forall i | 0 <= i < |r| ensures !StartsWithFence(r[i..]) {
        if i == 0 {
          assert r[i..] == r;
        } else {
          assert r[i..] == rest[i - 1..];
        }
      }
    }
  }

  lemma NoFenceSlice(s: string, lo: nat, hi: nat)
    requires NoFence(s) && lo <= hi <= |s|
    ensures NoFence(s[lo..hi])
  {
    var t := s[lo..hi];
    forall i | 0 <= i < |t| ensures !StartsWithFence(t[i..]) {
      assert !StartsWithFence(s[lo + i..]);
    }
  }

  /** Whatever the reply, its cleaned form contains no code-fence marker. */
  lemma CleanRemovesEveryFence(reply: string)
    ensures NoFence(Clean(reply))
  {
    var x := StripFences(reply);
    StripFencesHasNoFence(reply);
    var lo := LeadingWhitespace(x);
    NoFenceSlice(x, lo, lo + |Trim(x)|);
  }

  /** Cleaning is idempotent on its own output when no backtick is left. */
  lemma CleanTwice(reply: string)
    requires NoBacktick(Clean(reply))
    ensures Clean(Clean(reply)) == Clean(reply)
  {
    var c := Clean(reply);
    CleanWithoutBacktick(c);
    TrimOfTrimmed(c);
  }

  lemma TrimOfTrimmed(s: string)
    requires Trimmed(s)
    ensures Trim(s) == s
  {
    if s != [] {
      assert LeadingWhitespace(s) == 0 && TrailingWhitespace(s) == 0;
      assert s[0..|s|] == s;
    }
  }
}

/** The operations the agent performs on command text: splitting a command
    string into words (`shlex.split`, without its quoting rules), joining an
    argument list with single spaces (`' '.join`), and replacing every
    occurrence of a placeholder (`str.replace`). */
module Strings {

  /** The separators `shlex.split` skips between words. */
  predicate IsSpace(c: char) {
    c == ' ' || c == '\t' || c == '\n' || c == '\r'
  }

  /** `t` holds no separator. */
  predicate Solid(t: string) {
    forall i | 0 <= i < |t| :: !IsSpace(t[i])
  }

  /** The longest prefix of `s` that holds no separator. */
  function Word(s: string): (w: string)
    ensures w <= s && Solid(w)
    ensures |w| < |s| ==> IsSpace(s[|w|])
    ensures s != [] && !IsSpace(s[0]) ==> w != []
  {
    if s == [] || IsSpace(s[0]) then [] else [s[0]] + Word(s[1..])
  }

  /** The words of `s`, left to right. */
  function Split(s: string): (words: seq<string>)
    ensures forall i | 0 <= i < |words| :: words[i] != [] && Solid(words[i])
    decreases |s|
  {
    if s == [] then []
    else if IsSpace(s[0]) then Split(s[1..])
    else
      var w := Word(s);
      [w] + Split(s[|w|..])
  }

  /** `sep.join(parts)`. */
  function Join(parts: seq<string>, sep: string): string {
    if parts == [] then []
    else if |parts| == 1 then parts[0]
    else parts[0] + sep + Join(parts[1..], sep)
  }

  /** `pat in s` for strings: `pat` occurs somewhere in `s`. */
  predicate Contains(s: string, pat: string)
    decreases |s|
  {
    |pat| <= |s| && (s[..|pat|] == pat || (s != [] && Contains(s[1..], pat)))
  }

  /** `s.replace(pat, rep)`: every non-overlapping occurrence of `pat`, found
      left to right, is replaced by `rep`. */
  function ReplaceAll(s: string, pat: string, rep: string): string
    requires pat != []
    decreases |s|
  {
    if |s| < |pat| then s
    else if s[..|pat|] == pat then rep + ReplaceAll(s[|pat|..], pat, rep)
    else [s[0]] + ReplaceAll(s[1..], pat, rep)
  }

  /** A character occurs in a joined string exactly when it occurs in one of
      the parts, as long as the separator does not hold it. */
  lemma {:induction false} JoinContains(parts: seq<string>, sep: string, c: char)
    requires c !in sep
    ensures c in Join(parts, sep) <==> exists i | 0 <= i < |parts| :: c in parts[i]
    decreases |parts|
  {
    if |parts| > 1 {
      JoinContains(parts[1..], sep, c);
      var rest := Join(parts[1..], sep);
      assert Join(parts, sep) == parts[0] + sep + rest;
      if c in rest {
        var i :| 0 <= i < |parts[1..]| && c in parts[1..][i];
        assert c in parts[i + 1];
      }
      if exists i | 0 <= i < |parts| :: c in parts[i] {
        var i :| 0 <= i < |parts| && c in parts[i];
        if i > 0 {
          assert c in parts[1..][i - 1];
        }
      }
    }
  }

  /** The first word of a word followed by a separator is that word. */
  lemma {:induction false} WordOfPrefix(t: string, rest: string)
    requires Solid(t)
    requires rest == [] || IsSpace(rest[0])
    ensures Word(t + rest) == t
    decreases |t|
  {
    if t != [] {
      assert (t + rest)[0] == t[0];
      assert (t + rest)[1..] == t[1..] + rest;
      WordOfPrefix(t[1..], rest);
    } else {
      assert t + rest == rest;
    }
  }

  /** Splitting undoes joining with single spaces, for non-empty words
      without separators. */
  lemma {:induction false} SplitJoin(words: seq<string>)
    requires forall i | 0 <= i < |words| :: words[i] != [] && Solid(words[i])
    ensures Split(Join(words, " ")) == words
    decreases |words|
  {
    if |words| == 1 {
      var t := words[0];
      WordOfPrefix(t, []);
      assert t + [] == t;
      assert t[|t|..] == [];
    } else if |words| > 1 {
      var t := words[0];
      var rest := Join(words[1..], " ");
      var s := t + " " + rest;
      assert Join(words, " ") == s;
      assert s == t + (" " + rest);
      WordOfPrefix(t, " " + rest);
      assert s[0] == t[0];
      assert s[|t|..] == " " + rest;
      assert (" " + rest)[1..] == rest;
      SplitJoin(words[1..]);
      assert Split(s) == [t] + Split(" " + rest);
      assert Split(" " + rest) == Split(rest);
      assert words == [t] + words[1..];
    }
  }

  /** Replacing a pattern that does not occur leaves the string unchanged, so
      the source's test for the placeholder before replacing it changes
      nothing. */
  lemma {:induction false} ReplaceAbsent(s: string, pat: string, rep: string)
    requires pat != []
    requires !Contains(s, pat)
    ensures ReplaceAll(s, pat, rep) == s
    decreases |s|
  {
    if |s| >= |pat| {
      ReplaceAbsent(s[1..], pat, rep);
      assert [s[0]] + s[1..] == s;
    }
  }

  /** A character that the pattern does not hold survives the replacement. */
  lemma {:induction false} ReplaceKeeps(s: string, pat: string, rep: string, c: char)
    requires pat != [] && c !in pat
    requires c in s
    ensures c in ReplaceAll(s, pat, rep)
    decreases |s|
  {
    if |s| >= |pat| {
      if s[..|pat|] == pat {
        assert s == s[..|pat|] + s[|pat|..];
        assert c in s[|pat|..];
        ReplaceKeeps(s[|pat|..], pat, rep, c);
      } else if s[0] != c {
        assert s == [s[0]] + s[1..];
        ReplaceKeeps(s[1..], pat, rep, c);
      }
    }
  }
}

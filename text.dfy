/** The name match of the search handlers, `name ILIKE '%term%'`, restricted
    to ASCII case folding and to a term without SQL wildcards. */
module Text {

  /** ASCII lower-casing of one character; every other character is kept. */
  function LowerChar(c: char): char
  {
    if 'A' <= c <= 'Z' then (c as int + 32) as char else c
  }

  function Lower(s: string): string
  {
    seq(|s|, i requires 0 <= i < |s| => LowerChar(s[i]))
  }

  /** `s` begins with `prefix`, ignoring ASCII case. */
  predicate StartsWithIgnoringCase(s: string, prefix: string)
  {
    |prefix| <= |s| && Lower(s[..|prefix|]) == Lower(prefix)
  }

  /** `s ILIKE '%term%'`: `term` occurs somewhere in `s`, ignoring ASCII case. */
  predicate ContainsIgnoringCase(s: string, term: string): (r: bool)
    ensures r ==> |term| <= |s|
    ensures StartsWithIgnoringCase(s, term) ==> r
    decreases |s|
  {
    StartsWithIgnoringCase(s, term) || (s != [] && ContainsIgnoringCase(s[1..], term))
  }

  /** `term` occurs in `s` at position `i`, ignoring ASCII case. */
  predicate MatchesAt(s: string, term: string, i: int)
  {
    0 <= i <= |s| - |term| && Lower(s[i..i + |term|]) == Lower(term)
  }

  /** The scan agrees with the pattern's meaning: `term` occurs at some
      position of `s` once both are lower-cased. */
  lemma {:induction false} ContainsIgnoringCaseAt(s: string, term: string)
    ensures ContainsIgnoringCase(s, term) <==> exists i :: MatchesAt(s, term, i)
    decreases |s|
  {
    if s != [] {
      ContainsIgnoringCaseAt(s[1..], term);
      if ContainsIgnoringCase(s[1..], term) && !StartsWithIgnoringCase(s, term) {
        var i :| MatchesAt(s[1..], term, i);
        assert s[1..][i..i + |term|] == s[i + 1..i + 1 + |term|];
        assert MatchesAt(s, term, i + 1);
      }
      if StartsWithIgnoringCase(s, term) {
        assert MatchesAt(s, term, 0);
      }
      if exists i :: MatchesAt(s, term, i) {
        var i :| MatchesAt(s, term, i);
        if i > 0 {
          assert s[1..][i - 1..i - 1 + |term|] == s[i..i + |term|];
          assert MatchesAt(s[1..], term, i - 1);
        }
      }
    } else if |term| == 0 {
      assert s[..0] == s[0..0];
      assert MatchesAt(s, term, 0);
    }
  }

  /** The default search term, the empty string, matches every name. */
  lemma EmptyTermMatchesEverything(s: string)
    ensures ContainsIgnoringCase(s, "")
  {
  }

  /** Changing the case of the term's ASCII letters does not change the match. */
  lemma {:induction false} MatchIgnoresTermCase(s: string, term: string)
    ensures ContainsIgnoringCase(s, term) <==> ContainsIgnoringCase(s, Lower(term))
    decreases |s|
  {
    assert Lower(Lower(term)) == Lower(term);
    if s != [] {
      MatchIgnoresTermCase(s[1..], term);
    }
  }

  /** When no position with room for the term starts with its first letter,
      the term does not occur. */
  lemma {:induction false} FirstLetterAbsentExcludes(s: string, term: string)
    requires |term| > 0
    requires forall i :: 0 <= i <= |s| - |term| ==> LowerChar(s[i]) != LowerChar(term[0])
    ensures !ContainsIgnoringCase(s, term)
    decreases |s|
  {
    if |s| >= |term| {
      assert Lower(s[..|term|])[0] != Lower(term)[0];
    }
    if s != [] {
      forall i | 0 <= i <= |s[1..]| - |term| ensures LowerChar(s[1..][i]) != LowerChar(term[0]) {
        assert s[1..][i] == s[i + 1];
      }
      FirstLetterAbsentExcludes(s[1..], term);
    }
  }

  /** Searching for "blue" finds "The Blue Note" and "Bluebird Cafe" but not
      "Jazz Club". */
  lemma SearchForBlue()
    ensures ContainsIgnoringCase("The Blue Note", "blue")
    ensures ContainsIgnoringCase("Bluebird Cafe", "blue")
    ensures !ContainsIgnoringCase("Jazz Club", "blue")
  {
    assert Lower("Blue") == "blue" == Lower("blue");
    assert ContainsIgnoringCase("The Blue Note", "blue") by {
      var s := "The Blue Note";
      assert s[4..][..4] == "Blue";
      assert StartsWithIgnoringCase(s[4..], "blue");
      assert s[1..][1..][1..][1..] == s[4..];
    }
    assert ContainsIgnoringCase("Bluebird Cafe", "blue") by {
      assert "Bluebird Cafe"[..4] == "Blue";
    }
    FirstLetterAbsentExcludes("Jazz Club", "blue");
  }
}

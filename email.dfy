/**
 * `isValidEmail`: the test of the pattern `^[^\s@]+@[^\s@]+\.[^\s@]+$`
 * (script.js:252-255), stated as a predicate on strings rather than through
 * a regular-expression engine.
 */
module Email {
  import opened Wrappers
  import opened Text

  /** A character of the class `[^\s@]`. */
  predicate IsPlain(c: char)
  {
    c != '@' && !IsWhitespace(c)
  }

  /** Every character of `s` belongs to `[^\s@]`. */
  predicate AllPlain(s: string)
  {
    forall k | 0 <= k < |s| :: IsPlain(s[k])
  }

  /** The index of the first occurrence of `c` in `s`, if any. */
  function IndexOf(s: string, c: char): (r: Option<nat>)
    ensures r.Some? ==> r.value < |s| && s[r.value] == c && c !in s[..r.value]
    ensures r.None? <==> c !in s
  {
    if s == [] then None
    else if s[0] == c then Some(0)
    else
      match IndexOf(s[1..], c)
      case None => None
      case Some(i) => assert s[..i + 1] == [s[0]] + s[1..][..i]; Some(i + 1)
  }

  /** The domain holds a `.` with at least one character on each side. */
  predicate HasInnerDot(domain: string)
  {
    exists j | 0 < j < |domain| - 1 :: domain[j] == '.'
  }

  /**
   * `isValidEmail(email)`: a non-empty local part, the first `@`, and a
   * domain with an inner `.`; neither part may hold whitespace or `@`.
   */
  predicate IsValidEmail(email: string)
    ensures IsValidEmail(email) ==> 5 <= |email|
    ensures IsValidEmail(email) ==> IsPlain(email[0]) && IsPlain(email[|email| - 1])
  {
    match IndexOf(email, '@')
    case None => false
    case Some(at) =>
      var local, domain := email[..at], email[at + 1..];
      local != [] && AllPlain(local) && AllPlain(domain) && HasInnerDot(domain)
  }

  /**
   * The pattern read position by position: an `@` at `i` and a `.` at `j`
   * split `email` into three non-empty runs of `[^\s@]`.
   */
  ghost predicate MatchesAt(email: string, i: int, j: int)
  {
    0 < i && i + 1 < j && j + 1 < |email| &&
    email[i] == '@' && email[j] == '.' &&
    AllPlain(email[..i]) && AllPlain(email[i + 1..j]) && AllPlain(email[j + 1..])
  }

  /** `^[^\s@]+@[^\s@]+\.[^\s@]+$` matches `email`. */
  ghost predicate MatchesPattern(email: string)
  {
    exists i, j :: MatchesAt(email, i, j)
  }

  /** Every address the decision procedure accepts matches the pattern. */
  lemma AcceptedMatchesPattern(email: string)
    requires IsValidEmail(email)
    ensures MatchesPattern(email)
  {
    var at := IndexOf(email, '@').value;
    var domain := email[at + 1..];
    var d :| 0 < d < |domain| - 1 && domain[d] == '.';
    var j := at + 1 + d;
    assert email[at + 1..j] == domain[..d];
    assert email[j + 1..] == domain[d + 1..];
    assert MatchesAt(email, at, j);
  }

  /** Every string the pattern matches, the decision procedure accepts. */
  lemma MatchAccepted(email: string, i: int, j: int)
    requires MatchesAt(email, i, j)
    ensures IsValidEmail(email)
  {
    assert '@' !in email[..i] by {
      forall k | 0 <= k < i ensures email[..i][k] != '@' {
        assert IsPlain(email[..i][k]);
      }
    }
    assert email[..i + 1] == email[..i] + [email[i]];
    assert IndexOf(email, '@') == Some(i);
    var domain := email[i + 1..];
    assert domain == email[i + 1..j] + [email[j]] + email[j + 1..];
    assert domain[j - i - 1] == '.';
    assert AllPlain(domain) by {
      forall k | 0 <= k < |domain| ensures IsPlain(domain[k]) {
        if k < j - i - 1 {
          assert domain[k] == email[i + 1..j][k];
        } else if k > j - i - 1 {
          assert domain[k] == email[j + 1..][k - (j - i)];
        }
      }
    }
  }

  /** The decision procedure accepts exactly the strings the pattern matches. */
  lemma IsValidEmailMatchesPattern(email: string)
    ensures IsValidEmail(email) <==> MatchesPattern(email)
  {
    if IsValidEmail(email) {
      AcceptedMatchesPattern(email);
    }
    if MatchesPattern(email) {
      var i, j :| MatchesAt(email, i, j);
      MatchAccepted(email, i, j);
    }
  }

  /** An accepted address holds no whitespace anywhere. */
  lemma ValidEmailHasNoWhitespace(email: string)
    requires IsValidEmail(email)
    ensures forall k | 0 <= k < |email| :: !IsWhitespace(email[k])
  {
    var at := IndexOf(email, '@').value;
    forall k | 0 <= k < |email| ensures !IsWhitespace(email[k]) {
      if k < at {
        assert email[k] == email[..at][k];
      } else if k > at {
        assert email[k] == email[at + 1..][k - at - 1];
      }
    }
  }

  /**
   * Emptiness is tested on the trimmed address but the pattern on the raw
   * one; an accepted address is its own trim, so the emptiness test never
   * decides anything the pattern does not.
   */
  lemma ValidEmailIsTrimmed(email: string)
    requires IsValidEmail(email)
    ensures Trim(email) == email && Trim(email) != []
  {
    ValidEmailHasNoWhitespace(email);
    TrimIdentity(email);
  }

  /** Leading or trailing whitespace, as a form field may carry, makes the address invalid. */
  lemma PaddedEmailRejected(email: string, pad: char)
    requires IsWhitespace(pad)
    ensures !IsValidEmail([pad] + email) && !IsValidEmail(email + [pad])
  {
  }

  /** In a match, the `@` at `i` is the only `@`, and no character is whitespace. */
  lemma MatchIsPlainOutsideAt(email: string, i: int, j: int)
    requires MatchesAt(email, i, j)
    ensures forall k | 0 <= k < |email| && k != i :: IsPlain(email[k])
  {
    forall k | 0 <= k < |email| && k != i ensures IsPlain(email[k]) {
      if k < i {
        assert email[k] == email[..i][k];
      } else if k < j {
        assert email[k] == email[i + 1..j][k - i - 1];
      } else if k > j {
        assert email[k] == email[j + 1..][k - j - 1];
      }
    }
  }

  /** A string with two `@` never matches. */
  lemma SecondAtRejected(email: string, p: int, q: int)
    requires 0 <= p < q < |email| && email[p] == '@' && email[q] == '@'
    ensures !MatchesPattern(email)
  {
    forall i, j | MatchesAt(email, i, j) ensures false {
      MatchIsPlainOutsideAt(email, i, j);
    }
  }

  /** A string holding whitespace anywhere never matches. */
  lemma WhitespaceRejected(email: string, p: int)
    requires 0 <= p < |email| && IsWhitespace(email[p])
    ensures !MatchesPattern(email)
  {
    forall i, j | MatchesAt(email, i, j) ensures false {
      MatchIsPlainOutsideAt(email, i, j);
    }
  }

  /** Three non-empty runs of `[^\s@]`, joined by `@` and `.`, match. */
  lemma JoinedPartsMatch(local: string, domain: string, tld: string)
    requires local != [] && domain != [] && tld != []
    requires AllPlain(local) && AllPlain(domain) && AllPlain(tld)
    ensures MatchesPattern(local + "@" + domain + "." + tld)
  {
    var email := local + "@" + domain + "." + tld;
    var i, j := |local|, |local| + 1 + |domain|;
    assert email[..i] == local;
    assert email[i + 1..j] == domain;
    assert email[j + 1..] == tld;
    assert MatchesAt(email, i, j);
  }

  /** Lower-case letters, digits and dots belong to `[^\s@]`. */
  lemma SimpleTextIsPlain(s: string)
    requires forall k | 0 <= k < |s| :: 'a' <= s[k] <= 'z' || '0' <= s[k] <= '9' || s[k] == '.'
    ensures AllPlain(s)
  {
  }

  /** The shortest address the pattern accepts. */
  lemma PatternAcceptsShortest()
    ensures MatchesPattern("a@b.c")
  {
    SimpleTextIsPlain("a");
    SimpleTextIsPlain("b");
    SimpleTextIsPlain("c");
    JoinedPartsMatch("a", "b", "c");
    assert "a" + "@" + "b" + "." + "c" == "a@b.c";
  }

  /** Dots are allowed in the local part and inside the domain. */
  lemma PatternAcceptsDottedParts()
    ensures MatchesPattern("first.last@mail.example.org")
  {
    var local, domain, tld := "first.last", "mail.example", "org";
    SimpleTextIsPlain(local);
    SimpleTextIsPlain(domain);
    SimpleTextIsPlain(tld);
    JoinedPartsMatch(local, domain, tld);
    assert local + "@" + domain + "." + tld == "first.last@mail.example.org";
  }

  /** Strings the pattern rejects: no dot after the `@`, no `@`, nothing at all. */
  lemma PatternRejectsMissingParts()
    ensures !MatchesPattern("a@b") && !MatchesPattern("ab.c") && !MatchesPattern("")
  {
  }

  /** Strings the pattern rejects: an empty run around the dot, a second `@`, inner whitespace. */
  lemma PatternRejectsBadRuns()
    ensures !MatchesPattern("a@b.") && !MatchesPattern("a@.c")
    ensures !MatchesPattern("a@@b.c") && !MatchesPattern("a b@c.d")
  {
    SecondAtRejected("a@@b.c", 1, 2);
    WhitespaceRejected("a b@c.d", 1);
  }
}

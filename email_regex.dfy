/**
 * The email test of the join form: the JavaScript regular expression
 * `^[^\s@]+@[^\s@]+\.[^\s@]+$`, its language stated as a split of the
 * string, and a single left-to-right scan proved to decide it.
 */
module EmailRegex {

  /** JavaScript's `\s`: the ECMAScript WhiteSpace and LineTerminator characters. */
  predicate IsSpace(c: char)
  {
    ('\t' <= c <= '\r') || c == ' ' || c == '\U{00A0}' || c == '\U{1680}'
    || ('\U{2000}' <= c <= '\U{200A}') || c == '\U{2028}' || c == '\U{2029}'
    || c == '\U{202F}' || c == '\U{205F}' || c == '\U{3000}' || c == '\U{FEFF}'
  }

  /** One character of the class `[^\s@]`. */
  predicate IsPartChar(c: char)
  {
    !IsSpace(c) && c != '@'
  }

  /** `[^\s@]+`: a non-empty run of class characters. */
  predicate IsPart(s: string)
  {
    |s| > 0 && forall k :: 0 <= k < |s| ==> IsPartChar(s[k])
  }

  /**
   * The language of `^[^\s@]+@[^\s@]+\.[^\s@]+$`: the string splits at an
   * `@` (index `at`) and a later `.` (index `dot`) into a local part, a host
   * and a final label, each a non-empty run of `[^\s@]`.
   */
  ghost predicate SplitsAt(s: string, at: int, dot: int)
  {
    0 < at && at + 1 < dot < |s| - 1 && s[at] == '@' && s[dot] == '.'
    && IsPart(s[..at]) && IsPart(s[at + 1..dot]) && IsPart(s[dot + 1..])
  }

  ghost predicate Matches(s: string)
  {
    exists at, dot :: SplitsAt(s, at, dot)
  }

  /** Every character of a split string is a class character, except the `@` itself. */
  lemma SplitCharacters(s: string, at: int, dot: int)
    requires SplitsAt(s, at, dot)
    ensures forall k :: 0 <= k < |s| ==> !IsSpace(s[k])
    ensures forall k :: 0 <= k < |s| && k != at ==> s[k] != '@'
  {
  }

  /**
   * The same language without the existential: no whitespace, exactly one
   * `@`, not at the front, and a `.` with at least one character between it
   * and the `@` and at least one after it.
   */
  ghost predicate Shaped(s: string)
  {
    (forall k :: 0 <= k < |s| ==> !IsSpace(s[k]))
    && (exists at :: 0 < at < |s| && s[at] == '@'
         && (forall k :: 0 <= k < |s| && k != at ==> s[k] != '@')
         && (exists dot :: at + 1 < dot < |s| - 1 && s[dot] == '.'))
  }

  lemma {:induction false} MatchesIff(s: string)
    ensures Matches(s) <==> Shaped(s)
  {
    if Matches(s) {
      var at, dot :| SplitsAt(s, at, dot);
      SplitCharacters(s, at, dot);
    }
    if Shaped(s) {
      var at :| 0 < at < |s| && s[at] == '@'
         && (forall k :: 0 <= k < |s| && k != at ==> s[k] != '@')
         && (exists dot :: at + 1 < dot < |s| - 1 && s[dot] == '.');
      var dot :| at + 1 < dot < |s| - 1 && s[dot] == '.';
      SplitFromCharacters(s, at, dot);
    }
  }

  /** A string without whitespace whose only `@` is at `at` splits at `at` and any suitable `.`. */
  lemma SplitFromCharacters(s: string, at: int, dot: int)
    requires 0 < at && at + 1 < dot < |s| - 1 && s[at] == '@' && s[dot] == '.'
    requires forall k :: 0 <= k < |s| ==> !IsSpace(s[k])
    requires forall k :: 0 <= k < |s| && k != at ==> s[k] != '@'
    ensures SplitsAt(s, at, dot)
  {
  }

  /**
   * `emailRegex.test(s)`: one scan that fails on whitespace or a second `@`,
   * remembers the `@`, and remembers the first `.` that can separate a
   * non-empty host from a non-empty final label.
   */
  method Test(s: string) returns (ok: bool)
    ensures ok <==> Matches(s)
  {
    MatchesIff(s);
    var at := -1;
    var dot := -1;
    var i := 0;
    while i < |s|
      invariant 0 <= i <= |s|
      invariant forall k :: 0 <= k < i ==> !IsSpace(s[k])
      invariant -1 <= at < i
      invariant at >= 0 ==> s[at] == '@'
      invariant forall k :: 0 <= k < i && k != at ==> s[k] != '@'
      invariant dot == -1 || (0 <= at && at + 1 < dot < |s| - 1 && dot < i && s[dot] == '.')
      invariant dot == -1 && at >= 0 ==> forall k :: at + 1 < k < i && k < |s| - 1 ==> s[k] != '.'
    {
      if IsSpace(s[i]) {
        return false;
      }
      if s[i] == '@' {
        if at >= 0 {
          return false;
        }
        at := i;
      } else if s[i] == '.' && dot == -1 && 0 <= at && at + 1 < i < |s| - 1 {
        dot := i;
      }
      i := i + 1;
    }
    ok := at > 0 && dot >= 0;
    if ok {
      assert SplitsAt(s, at, dot) by { SplitFromCharacters(s, at, dot); }
    }
  }

  /** The placeholder address of the form is accepted. */
  lemma PlaceholderMatches()
    ensures Matches("john@company.com")
  {
    SplitFromCharacters("john@company.com", 4, 12);
  }

  /** The pattern demands a `.` after the `@`: a bare host is refused. */
  lemma NoDotRefused()
    ensures !Matches("john@company")
  {
  }

  /** A second `@` is refused, as is whitespace and an empty local part or final label. */
  lemma MalformedRefused()
    ensures !Matches("a@b@c.d")
    ensures !Matches("a b@c.d")
    ensures !Matches("@c.d")
    ensures !Matches("a@c.")
  {
    MatchesIff("a@b@c.d");
    assert "a@b@c.d"[1] == '@' && "a@b@c.d"[3] == '@';
    MatchesIff("a b@c.d");
    assert IsSpace("a b@c.d"[1]);
    MatchesIff("@c.d");
    assert "@c.d"[0] == '@';
    MatchesIff("a@c.");
    assert forall k :: 0 <= k < 4 && k != 1 ==> "a@c."[k] != '@';
  }

  /** Dots are ordinary characters of every part, so a dotted host or final label is accepted. */
  lemma DottedPartsMatch()
    ensures Matches("a@b.c.d")
    ensures Matches("a.b@c..d")
  {
    SplitFromCharacters("a@b.c.d", 1, 3);
    SplitFromCharacters("a.b@c..d", 3, 5);
  }
}

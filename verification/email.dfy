/** The e-mail check of `app.py`: `re.match(r"[^@]+@[^@]+\.[^@]+", email)`.

    `re.match` anchors the pattern at the start of the string only, so the
    check accepts every string that BEGINS with a local part, an '@', a
    domain, a '.' and one more character, whatever follows. The class
    `[^@]` is every character other than '@' (newline included).

    `EmailPattern` states the regular expression directly, as the existence
    of split points; `ScanAccepts` decides it by scanning, the two are
    proved equal, and `IsValidEmail` is the scan with that meaning. */
module EmailValidation {

  /** No '@' among `s[lo..hi]`: every character there is one `[^@]` accepts. */
  ghost predicate NoAtBetween(s: string, lo: int, hi: int)
  {
    forall i :: lo <= i < hi && 0 <= i < |s| ==> s[i] != '@'
  }

  /** Where the '@'-free stretch starting at `k` ends: the index of the
      first '@' at or after `k`, or `|s|` when there is none. This is how
      far a greedy `[^@]+` started at `k` can reach. */
  function NonAtRun(s: string, k: nat): (e: nat)
    requires k <= |s|
    ensures k <= e <= |s|
    ensures NoAtBetween(s, k, e)
    ensures e < |s| ==> s[e] == '@'
    decreases |s| - k
  {
    if k == |s| || s[k] == '@' then k else NonAtRun(s, k + 1)
  }

  /** The end of the stretch is fixed: any '@'-free `s[k..e]` that stops at
      an '@' (or at the end) ends where `NonAtRun` says. */
  lemma NonAtRunUnique(s: string, k: nat, e: nat)
    requires k <= e <= |s| && NoAtBetween(s, k, e)
    requires e < |s| ==> s[e] == '@'
    ensures NonAtRun(s, k) == e
  {
  }

  /** The pattern matches with the local part `s[..a]`, the '@' at `a`,
      the domain `s[a+1..d]`, the '.' at `d` and the first top-level
      domain character at `d + 1` (one `[^@]` is all `+` demands). */
  ghost predicate MatchesAt(s: string, a: int, d: int)
  {
    && 0 < a && a + 1 < d && d + 1 < |s|
    && s[a] == '@' && s[d] == '.' && s[d + 1] != '@'
    && NoAtBetween(s, 0, a) && NoAtBetween(s, a + 1, d)
  }

  /** The regular expression, matched at the start of `s`. */
  ghost predicate EmailPattern(s: string)
  {
    exists a, d :: MatchesAt(s, a, d)
  }

  /** The scan behind `is_valid_email`: the local part runs to the first
      '@', which must not be the first character; the '@'-free stretch
      after it, which the domain, the '.' and the top-level domain must
      share, has to hold a '.' with at least one character on each side. */
  function ScanAccepts(s: string): bool
  {
    var a := NonAtRun(s, 0);
    if a == 0 || a == |s| then false
    else
      var e := NonAtRun(s, a + 1);
      e - a >= 4 && '.' in s[a + 2..e - 1]
  }

  /** The scan decides the regular expression: both directions. */
  lemma ScanDecidesPattern(s: string)
    ensures ScanAccepts(s) <==> EmailPattern(s)
  {
    if ScanAccepts(s) {
      ValidEmailMatches(s);
    }
    if EmailPattern(s) {
      var a, d :| MatchesAt(s, a, d);
      MatchImpliesValid(s, a, d);
    }
  }

  /** A successful scan exhibits split points: the first '@' and the '.'
      the scan found. */
  lemma ValidEmailMatches(s: string)
    requires ScanAccepts(s)
    ensures exists d :: MatchesAt(s, NonAtRun(s, 0), d)
  {
    var a := NonAtRun(s, 0);
    var e := NonAtRun(s, a + 1);
    var k :| 0 <= k < |s[a + 2..e - 1]| && s[a + 2..e - 1][k] == '.';
    assert MatchesAt(s, a, a + 2 + k);
  }

  /** Any split points force the scan to succeed: the local part must end
      at the first '@', and the stretch after it reaches past the '.'. */
  lemma MatchImpliesValid(s: string, a: int, d: int)
    requires MatchesAt(s, a, d)
    ensures ScanAccepts(s)
  {
    NonAtRunUnique(s, 0, a);
    var e := NonAtRun(s, a + 1);
    assert e >= d + 2;
    assert s[a + 2..e - 1][d - a - 2] == '.';
  }

  /** `is_valid_email`: true exactly for the strings that begin with a match
      of the regular expression. */
  function IsValidEmail(s: string): (ok: bool)
    ensures ok <==> EmailPattern(s)
  {
    ScanDecidesPattern(s);
    ScanAccepts(s)
  }

  /** `re.match` is not anchored at the end: whatever follows a valid
      address, the whole string is still accepted. */
  lemma ValidEmailExtends(s: string, t: string)
    requires IsValidEmail(s)
    ensures IsValidEmail(s + t)
  {
    var a, d :| MatchesAt(s, a, d);
    assert MatchesAt(s + t, a, d);
  }

  /** An ordinary address is accepted. */
  lemma AcceptsOrdinaryAddress()
    ensures IsValidEmail("user@example.com")
  {
    MatchImpliesValid("user@example.com", 4, 12);
  }

  /** A string without '@' is rejected. */
  lemma RejectsMissingAt()
    ensures !IsValidEmail("not-an-email")
  {
    NonAtRunUnique("not-an-email", 0, 12);
  }

  /** A string without a '.' after the '@' is rejected. */
  lemma RejectsMissingDot()
    ensures !IsValidEmail("a@b")
  {
    NonAtRunUnique("a@b", 0, 1);
    NonAtRunUnique("a@b", 2, 3);
  }

  /** A string with an empty local part is rejected. */
  lemma RejectsEmptyLocalPart()
    ensures !IsValidEmail("@b.c")
  {
    NonAtRunUnique("@b.c", 0, 0);
  }

  /** Text after a valid prefix, even another '@', is accepted. */
  lemma AcceptsTrailingText()
    ensures IsValidEmail("a@b.c@")
  {
    MatchImpliesValid("a@b.c@", 1, 3);
  }
}

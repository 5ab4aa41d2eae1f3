/**
 * The flyweight demo's compiled email pattern `^[^@\s]+@[^@\s]+\.[^@\s]+$`
 * (case-insensitive), as a string predicate.  `IsMatch` follows the
 * pattern's own structure: three runs of characters other than `@` and
 * white space, joined by `@` and `.`; `$` without the multiline option also
 * matches just before one final `\n`.  `Accepts` is the same language read
 * off the whole string, and `PatternIff` proves the two agree.
 */
module EmailValidator {
  import opened Seqs
  import opened Text

  /** The class `[^@\s]`. */
  predicate Plain(c: char) {
    c != '@' && !IsWhiteSpace(c)
  }

  /** `[^@\s]*`: nothing but plain characters. */
  predicate AllPlain(s: string) {
    forall i :: 0 <= i < |s| ==> Plain(s[i])
  }

  /** `[^@\s]+`. */
  predicate PlainRun(s: string) {
    |s| >= 1 && AllPlain(s)
  }

  /** `[^@\s]+@[^@\s]+\.[^@\s]+` matches all of `s`: some `@` and some later `.` split it into three plain runs. */
  predicate BodyMatches(s: string) {
    exists at, dot :: 0 <= at < dot < |s| && s[at] == '@' && s[dot] == '.'
      && PlainRun(s[..at]) && PlainRun(s[at + 1..dot]) && PlainRun(s[dot + 1..])
  }

  /** The anchored match: the body, optionally followed by one `\n` that `$` accepts. */
  predicate IsMatch(s: string) {
    BodyMatches(s) || (|s| >= 1 && s[|s| - 1] == '\n' && BodyMatches(s[..|s| - 1]))
  }

  /** The string without one final `\n`, if it has one. */
  function Body(s: string): (b: string)
    ensures b == s || (|s| >= 1 && s[|s| - 1] == '\n' && b == s[..|s| - 1])
  {
    if |s| >= 1 && s[|s| - 1] == '\n' then s[..|s| - 1] else s
  }

  /** The position of the first `c` in `s`, or `|s|` when there is none. */
  function IndexOf(s: string, c: char): (i: nat)
    ensures i <= |s| && c !in s[..i]
    ensures i < |s| ==> s[i] == c
    ensures i == |s| <==> c !in s
  {
    if s == [] then 0
    else if s[0] == c then 0
    else
      assert s[1..][..IndexOf(s[1..], c)] == s[1..1 + IndexOf(s[1..], c)];
      assert s[..1 + IndexOf(s[1..], c)] == [s[0]] + s[1..][..IndexOf(s[1..], c)];
      1 + IndexOf(s[1..], c)
  }

  /** The part before the first `@`. */
  function LocalPart(b: string): string {
    b[..IndexOf(b, '@')]
  }

  /** The part after the first `@` (empty when there is none). */
  function Domain(b: string): string {
    var at := IndexOf(b, '@');
    if at < |b| then b[at + 1..] else ""
  }

  /** Plain, and with a `.` that is neither the first nor the last character. */
  predicate DomainShape(domain: string) {
    AllPlain(domain) && |domain| >= 3 && '.' in domain[1..|domain| - 1]
  }

  /**
   * The accepted strings, stated directly: after dropping one final `\n`,
   * there is an `@`; the local part before it is non-empty and plain; the
   * domain after it is plain (so holds no second `@` and no white space)
   * and has a `.` that is neither its first nor its last character.
   */
  predicate Accepts(s: string) {
    var b := Body(s);
    var domain := Domain(b);
    && '@' in b
    && PlainRun(LocalPart(b))
    && DomainShape(domain)
  }

  /** A whole match never ends in white space, so a `\n` at the end can only be the one `$` allows. */
  lemma BodyMatchEndsPlain(s: string)
    requires BodyMatches(s)
    ensures |s| >= 1 && Plain(s[|s| - 1]) && Body(s) == s
  {
    var at, dot :| 0 <= at < dot < |s| && s[at] == '@' && s[dot] == '.'
      && PlainRun(s[..at]) && PlainRun(s[at + 1..dot]) && PlainRun(s[dot + 1..]);
    var tail := s[dot + 1..];
    assert s[|s| - 1] == tail[|tail| - 1];
    assert IsWhiteSpace('\n');
  }

  /** Given the pattern's split points, the first `@` is the pattern's `@`. */
  lemma SplitAtFirstAt(b: string, at: nat, dot: nat)
    requires at < dot < |b| && b[at] == '@' && PlainRun(b[..at])
    ensures IndexOf(b, '@') == at
  {
    assert forall i :: 0 <= i < at ==> b[..at][i] == b[i];
  }

  /** The domain after the pattern's `@`: plain, with the pattern's `.` strictly inside it. */
  lemma SplitDomain(b: string, at: nat, dot: nat)
    requires 0 <= at < dot < |b| && b[dot] == '.'
    requires PlainRun(b[at + 1..dot]) && PlainRun(b[dot + 1..])
    ensures DomainShape(b[at + 1..])
  {
    var domain := b[at + 1..];
    var k := dot - at - 1;
    assert domain[k] == '.' && 1 <= k < |domain| - 1;
    assert domain[1..|domain| - 1][k - 1] == '.';
    forall i | 0 <= i < |domain|
      ensures Plain(domain[i])
    {
      if i < k {
        assert domain[i] == b[at + 1..dot][i];
      } else if k < i {
        assert domain[i] == b[dot + 1..][i - k - 1];
      }
    }
  }

  /** A match of the body splits at its first `@`, into the local part and a domain of the required shape. */
  lemma BodyMatchesAccepted(b: string)
    requires BodyMatches(b)
    ensures '@' in b && PlainRun(LocalPart(b))
    ensures DomainShape(Domain(b))
  {
    var at, dot :| 0 <= at < dot < |b| && b[at] == '@' && b[dot] == '.'
      && PlainRun(b[..at]) && PlainRun(b[at + 1..dot]) && PlainRun(b[dot + 1..]);
    SplitAtFirstAt(b, at, dot);
    SplitDomain(b, at, dot);
    assert LocalPart(b) == b[..at] && Domain(b) == b[at + 1..];
  }

  /** Conversely, an accepted body has the split the pattern asks for. */
  lemma AcceptedBodyMatches(b: string)
    requires '@' in b && PlainRun(LocalPart(b))
    requires DomainShape(Domain(b))
    ensures BodyMatches(b)
  {
    var at := IndexOf(b, '@');
    var domain := Domain(b);
    var middle := domain[1..|domain| - 1];
    var j :| 0 <= j < |middle| && middle[j] == '.';
    var dot := at + 2 + j;
    assert b[dot] == domain[j + 1] == '.';
    assert b[at + 1..dot] == domain[..j + 1];
    assert b[dot + 1..] == domain[j + 2..];
    assert PlainRun(b[..at]) && PlainRun(b[at + 1..dot]) && PlainRun(b[dot + 1..]);
  }

  lemma MatchIsAccepted(s: string)
    requires IsMatch(s)
    ensures Accepts(s)
  {
    if BodyMatches(s) {
      BodyMatchEndsPlain(s);
      BodyMatchesAccepted(s);
    } else {
      BodyMatchesAccepted(s[..|s| - 1]);
    }
  }

  lemma AcceptedIsMatch(s: string)
    requires Accepts(s)
    ensures IsMatch(s)
  {
    AcceptedBodyMatches(Body(s));
  }

  /** The pattern's split-point reading and the direct description accept exactly the same strings. */
  lemma PatternIff(s: string)
    ensures IsMatch(s) <==> Accepts(s)
  {
    if IsMatch(s) {
      MatchIsAccepted(s);
    }
    if Accepts(s) {
      AcceptedIsMatch(s);
    }
  }

  /** A string with an `@` and a plain domain after its first `@` has exactly one `@`. */
  lemma OneAtBeforePlainDomain(b: string)
    requires '@' in b && AllPlain(Domain(b))
    ensures Count(b, '@') == 1
  {
    var at := IndexOf(b, '@');
    var domain := Domain(b);
    assert domain == b[at + 1..];
    assert '@' !in domain by {
      assert forall i :: 0 <= i < |domain| ==> domain[i] != '@';
    }
    CountOnce(b, at, '@');
  }

  /** An accepted address holds exactly one `@`, after dropping the final `\n` that `$` allows. */
  lemma ExactlyOneAt(s: string)
    requires IsMatch(s)
    ensures Count(Body(s), '@') == 1
  {
    MatchIsAccepted(s);
    OneAtBeforePlainDomain(Body(s));
  }

  /** An address with a second `@` is rejected. */
  lemma TwoAtsRejected(s: string)
    requires Count(Body(s), '@') >= 2
    ensures !IsMatch(s)
  {
    if IsMatch(s) {
      ExactlyOneAt(s);
    }
  }

  /** A bare address matches. */
  lemma PlainAddressMatches(a: string)
    requires a == "a@b.c"
    ensures IsMatch(a)
  {
    assert a[..1] == "a" && a[2..3] == "b" && a[4..] == "c";
    assert 0 <= 1 < 3 < |a| && a[1] == '@' && a[3] == '.' && PlainRun(a[..1]) && PlainRun(a[2..3]) && PlainRun(a[4..]);
  }

  /** `$` accepts one final line feed. */
  lemma OneNewlineMatches(a: string, withNewline: string)
    requires a == "a@b.c" && withNewline == a + "\n"
    ensures IsMatch(withNewline)
  {
    PlainAddressMatches(a);
    assert withNewline[..|withNewline| - 1] == a;
  }

  /** A second final line feed is not accepted: it is white space inside the domain. */
  lemma TwoNewlinesRejected(withNewline: string, twoNewlines: string)
    requires withNewline == "a@b.c\n" && twoNewlines == withNewline + "\n"
    ensures !IsMatch(twoNewlines)
  {
    PatternIff(twoNewlines);
    assert Body(twoNewlines) == withNewline;
    assert IndexOf(withNewline, '@') == 1;
    assert Domain(withNewline)[3] == '\n';
    assert IsWhiteSpace('\n');
  }

  /** The local part must be there. */
  lemma MissingLocalPartRejected(noLocal: string)
    requires noLocal == "@b.c"
    ensures !IsMatch(noLocal)
  {
    PatternIff(noLocal);
    assert IndexOf(noLocal, '@') == 0;
  }

  /** Something must follow the dot. */
  lemma MissingTopLevelRejected(noTld: string)
    requires noTld == "a@b."
    ensures !IsMatch(noTld)
  {
    PatternIff(noTld);
    assert IndexOf(noTld, '@') == 1;
  }
}

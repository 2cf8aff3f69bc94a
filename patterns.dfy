/**
 * The two regular expressions of the counting cog, as exact string predicates.
 * Both are used with Python's `re.search` and no flags: `^` anchors at the start
 * of the string, `.` matches anything but "\n", and `$` matches at the end of the
 * string or just before a final "\n".
 */
module CountPatterns {
  import opened Wrappers
  import opened Text

  /** The common tail `(?: .*)?$`, matched against what follows the number. */
  predicate RestThenEnd(t: string) {
    || t == ""
    || t == "\n"
    || (t[0] == ' ' && NoNewline(t[1..]))
    || (|t| >= 2 && t[0] == ' ' && t[|t| - 1] == '\n' && NoNewline(t[1..|t| - 1]))
  }

  /** What can follow a number never starts with a digit. */
  lemma RestStartsWithNoDigit(t: string)
    requires RestThenEnd(t) && t != ""
    ensures !IsDigit(t[0])
  {
  }

  /** `re.search(r"^{}(?: .*)?$".format(n), content)` succeeds. */
  predicate AcceptsCount(content: string, n: int) {
    var lit := IntToString(n);
    HasPrefix(content, lit) && RestThenEnd(content[|lit|..])
  }

  /** The longest run of digits at the start of s. */
  function LeadingDigits(s: string): (d: string)
    ensures HasPrefix(s, d) && AllDigits(d)
    ensures |d| < |s| ==> !IsDigit(s[|d|])
  {
    if s != [] && IsDigit(s[0]) then [s[0]] + LeadingDigits(s[1..]) else ""
  }

  /**
   * `match.group(1)` of `re.search(r"^(\d+)(?: .*)?$", s)`, or None when there
   * is no match.
   */
  function LeadingNumber(s: string): (r: Option<string>)
    ensures r.Some? ==> TokenSplit(s, r.value)
  {
    var d := LeadingDigits(s);
    if d != "" && RestThenEnd(s[|d|..]) then Some(d) else None
  }

  /** s is the digits d followed by a tail that `(?: .*)?$` matches. */
  predicate TokenSplit(s: string, d: string) {
    |d| >= 1 && AllDigits(d) && HasPrefix(s, d) && RestThenEnd(s[|d|..])
  }

  /**
   * The regex captures exactly the digits of the one way of reading s as digits
   * followed by an allowed tail: no other split exists, so backtracking can find
   * no other group.
   */
  lemma LeadingNumberIsTheMatch(s: string, d: string)
    ensures LeadingNumber(s) == Some(d) <==> TokenSplit(s, d)
  {
    if TokenSplit(s, d) {
      var ld := LeadingDigits(s);
      if |d| < |s| {
        RestStartsWithNoDigit(s[|d|..]);
      }
      assert ld == s[..|d|] == d;
    }
  }

  /** A message is an acceptable count for at most one number. */
  lemma AcceptsAtMostOne(content: string, n: int, m: int)
    requires AcceptsCount(content, n) && AcceptsCount(content, m)
    ensures n == m
  {
    var a, b := IntToString(n), IntToString(m);
    if |a| < |b| {
      assert content[|a|] == b[|a|];
      RestStartsWithNoDigit(content[|a|..]);
      assert false;
    } else if |b| < |a| {
      assert content[|b|] == a[|b|];
      RestStartsWithNoDigit(content[|b|..]);
      assert false;
    }
    assert a == content[..|a|] == b;
    IntToStringInjective(n, m);
  }

  /**
   * The number an accepted message was accepted for is the token the edit
   * handler reads from it; a message accepted for a negative number starts with
   * '-' and so has no token at all.
   */
  lemma AcceptedMessageToken(content: string, n: int)
    requires AcceptsCount(content, n)
    ensures LeadingNumber(content) == if n >= 0 then Some(IntToString(n)) else None
  {
    if n >= 0 {
      LeadingNumberIsTheMatch(content, IntToString(n));
    } else {
      assert content[0] == IntToString(n)[0] == '-';
    }
  }

  /** "10" is not a valid message when 1 is expected; a space and text may follow the number. */
  lemma AcceptExamples()
    ensures !AcceptsCount("10", 1)
    ensures AcceptsCount("1", 1)
    ensures AcceptsCount("6 let's go", 6)
    ensures !AcceptsCount("7 let's go", 6)
    ensures !AcceptsCount("6let's go", 6)
    ensures AcceptsCount("6\n", 6)
  {
    assert IntToString(1) == "1";
    assert IntToString(6) == "6";
    assert "10"[1..] == "0";
    assert "6 let's go"[..1] == "6";
    assert "6let's go"[1..][0] == 'l';
  }

  /** Tokens read by the edit handler; a message without one yields None, not Some("0"). */
  lemma TokenExamples()
    ensures LeadingNumber("42 x") == Some("42")
    ensures LeadingNumber("42") == Some("42")
    ensures LeadingNumber("x") == None
    ensures LeadingNumber("4x") == None
    ensures LeadingNumber("0") == Some("0")
  {
    LeadingNumberIsTheMatch("42 x", "42");
    LeadingNumberIsTheMatch("42", "42");
    LeadingNumberIsTheMatch("0", "0");
    assert LeadingDigits("x") == "";
    assert LeadingDigits("4x") == "4";
  }
}

/**
 * Credential validators of src/utils/validation.js: the e-mail shape check,
 * the password rule list, the strength meter and the confirmation check.
 * The regular expressions of the source are written out as character
 * predicates and explicit scans.
 */
module Validation {
  import opened Text

  // ---------------------------------------------------------------------------
  // E-mail: /^[^\s@]+@[^\s@]+\.[^\s@]+$/
  // ---------------------------------------------------------------------------

  /** A character of the class `[^\s@]`. */
  predicate IsPlain(c: char)
  {
    !IsWhitespace(c) && c != '@'
  }

  predicate AllPlain(s: string)
  {
    forall i :: 0 <= i < |s| ==> IsPlain(s[i])
  }

  /**
   * What the regular expression matches: a split of `s` into a local part,
   * `@`, a domain head, `.`, and a domain tail, each part non-empty and
   * made of plain characters.
   */
  ghost predicate EmailShape(s: string)
  {
    exists i, j :: 0 < i && i + 1 < j && j + 1 < |s| && s[i] == '@' && s[j] == '.'
      && AllPlain(s[..i]) && AllPlain(s[i + 1..j]) && AllPlain(s[j + 1..])
  }

  /** Length of the longest prefix of `s` made of plain characters. */
  function PlainPrefix(s: string): (n: nat)
    ensures n <= |s| && AllPlain(s[..n])
    ensures n < |s| ==> !IsPlain(s[n])
  {
    if s == [] || !IsPlain(s[0]) then 0
    else
      var n := 1 + PlainPrefix(s[1..]);
      assert s[..n] == [s[0]] + s[1..][..n - 1];
      n
  }

  /** A `.` with at least one character on each side. */
  predicate HasInnerDot(d: string)
  {
    exists k :: 0 < k < |d| - 1 && d[k] == '.'
  }

  /** `validateEmail(email)`: true exactly when the regular expression matches. */
  function ValidateEmail(s: string): (ok: bool)
    ensures ok <==> EmailShape(s)
  {
    var i := PlainPrefix(s);
    var ok := 0 < i < |s| && s[i] == '@' && AllPlain(s[i + 1..]) && HasInnerDot(s[i + 1..]);
    EmailShapeIff(s, i, ok);
    ok
  }

  lemma EmailShapeIff(s: string, i: nat, ok: bool)
    requires i <= |s| && AllPlain(s[..i]) && (i < |s| ==> !IsPlain(s[i]))
    requires ok == (0 < i < |s| && s[i] == '@' && AllPlain(s[i + 1..]) && HasInnerDot(s[i + 1..]))
    ensures ok <==> EmailShape(s)
  {
    if ok {
      ShapeFromScan(s, i);
    }
    if EmailShape(s) {
      ScanFromSomeShape(s, i);
    }
  }

  lemma ScanFromSomeShape(s: string, i: nat)
    requires i == PlainPrefix(s) && EmailShape(s)
    ensures 0 < i < |s| && s[i] == '@' && AllPlain(s[i + 1..]) && HasInnerDot(s[i + 1..])
  {
    var a, j :| 0 < a && a + 1 < j && j + 1 < |s| && s[a] == '@' && s[j] == '.'
      && AllPlain(s[..a]) && AllPlain(s[a + 1..j]) && AllPlain(s[j + 1..]);
    ScanFromShape(s, i, a, j);
  }

  lemma ShapeFromScan(s: string, i: nat)
    requires 0 < i < |s| && s[i] == '@' && AllPlain(s[..i])
    requires AllPlain(s[i + 1..]) && HasInnerDot(s[i + 1..])
    ensures EmailShape(s)
  {
    var d := s[i + 1..];
    var k :| 0 < k < |d| - 1 && d[k] == '.';
    var j := i + 1 + k;
    assert s[j] == '.';
    assert s[i + 1..j] == d[..k];
    assert s[j + 1..] == d[k + 1..];
  }

  /** The prefix scan stops at the first non-plain character. */
  lemma {:induction false} PlainPrefixStops(s: string, a: nat)
    requires a < |s| && AllPlain(s[..a]) && !IsPlain(s[a])
    ensures PlainPrefix(s) == a
  {
    if a > 0 {
      assert IsPlain(s[..a][0]);
      assert s[1..][..a - 1] == s[1..a];
      PlainPrefixStops(s[1..], a - 1);
    }
  }

  lemma ScanFromShape(s: string, i: nat, a: nat, j: nat)
    requires i == PlainPrefix(s)
    requires 0 < a && a + 1 < j && j + 1 < |s| && s[a] == '@' && s[j] == '.'
    requires AllPlain(s[..a]) && AllPlain(s[a + 1..j]) && AllPlain(s[j + 1..])
    ensures i == a && AllPlain(s[i + 1..]) && HasInnerDot(s[i + 1..])
  {
    PlainPrefixStops(s, a);
    var d := s[a + 1..];
    assert d == s[a + 1..j] + ['.'] + s[j + 1..];
    assert d[j - a - 1] == '.';
    forall m | 0 <= m < |d| ensures IsPlain(d[m]) {
      if m < j - a - 1 { assert d[m] == s[a + 1..j][m]; }
      else if m > j - a - 1 { assert d[m] == s[j + 1..][m - (j - a)]; }
    }
  }

  /** Number of occurrences of `c` in `s`. */
  function Occurrences(s: string, c: char): nat
  {
    if s == [] then 0 else (if s[0] == c then 1 else 0) + Occurrences(s[1..], c)
  }

  lemma {:induction false} OccurrencesAppend(a: string, b: string, c: char)
    ensures Occurrences(a + b, c) == Occurrences(a, c) + Occurrences(b, c)
  {
    if a == [] {
      assert a + b == b;
    } else {
      assert (a + b)[0] == a[0];
      assert (a + b)[1..] == a[1..] + b;
      OccurrencesAppend(a[1..], b, c);
    }
  }

  lemma {:induction false} NoOccurrencesInPlain(s: string)
    requires AllPlain(s)
    ensures Occurrences(s, '@') == 0
  {
    if s != [] {
      assert IsPlain(s[0]);
      NoOccurrencesInPlain(s[1..]);
    }
  }

  /** Every accepted address holds exactly one `@`. */
  lemma ValidEmailHasOneAt(s: string)
    requires ValidateEmail(s)
    ensures Occurrences(s, '@') == 1
  {
    var i := PlainPrefix(s);
    assert s == s[..i] + [s[i]] + s[i + 1..];
    OccurrencesAppend(s[..i] + [s[i]], s[i + 1..], '@');
    OccurrencesAppend(s[..i], [s[i]], '@');
    NoOccurrencesInPlain(s[..i]);
    NoOccurrencesInPlain(s[i + 1..]);
  }

  /** A blank string (the empty one included) is never an accepted address. */
  lemma BlankIsNotEmail(s: string)
    requires Blank(s)
    ensures !ValidateEmail(s)
  {
    if s != [] {
      assert IsWhitespace(s[0]);
    }
  }

  // ---------------------------------------------------------------------------
  // Password rules
  // ---------------------------------------------------------------------------

  predicate IsUpper(c: char) { 'A' <= c <= 'Z' }
  predicate IsLower(c: char) { 'a' <= c <= 'z' }
  predicate IsDigit(c: char) { '0' <= c <= '9' }

  /** The class `[!@#$%^&*(),.?":{}|<>]`. */
  predicate IsSpecial(c: char)
  {
    c in "!@#$%^&*(),.?\":{}|<>"
  }

  /** `/[A-Z]/.test(p)`. */
  predicate HasUpper(p: string) { exists i :: 0 <= i < |p| && IsUpper(p[i]) }

  /** `/[a-z]/.test(p)`. */
  predicate HasLower(p: string) { exists i :: 0 <= i < |p| && IsLower(p[i]) }

  /** `/[0-9]/.test(p)`. */
  predicate HasDigit(p: string) { exists i :: 0 <= i < |p| && IsDigit(p[i]) }

  /** `/[!@#$%^&*(),.?":{}|<>]/.test(p)`. */
  predicate HasSpecial(p: string) { exists i :: 0 <= i < |p| && IsSpecial(p[i]) }

  /** The five rules of `validatePassword`, in the order it checks them. */
  datatype Rule = MinLength | Uppercase | Lowercase | Digit | Special

  const Rules: seq<Rule> := [MinLength, Uppercase, Lowercase, Digit, Special]

  /** Position of a rule in `Rules`. */
  function Rank(r: Rule): nat
  {
    match r
    case MinLength => 0
    case Uppercase => 1
    case Lowercase => 2
    case Digit => 3
    case Special => 4
  }

  predicate Satisfies(p: string, r: Rule)
  {
    match r
    case MinLength => |p| >= 8
    case Uppercase => HasUpper(p)
    case Lowercase => HasLower(p)
    case Digit => HasDigit(p)
    case Special => HasSpecial(p)
  }

  /** The message pushed when a rule fails. */
  function Message(r: Rule): string
  {
    match r
    case MinLength => "At least 8 characters"
    case Uppercase => "At least 1 uppercase letter"
    case Lowercase => "At least 1 lowercase letter"
    case Digit => "At least 1 number"
    case Special => "At least 1 special character"
  }

  /** Distinct rules have distinct messages. */
  lemma MessageInjective(r: Rule, q: Rule)
    requires Message(r) == Message(q)
    ensures r == q
  {
  }

  /** The rules of `rules` that `p` fails, in the order of `rules`. */
  function Failing(rules: seq<Rule>, p: string): seq<Rule>
  {
    if rules == [] then []
    else (if Satisfies(p, rules[0]) then [] else [rules[0]]) + Failing(rules[1..], p)
  }

  /** The rules `validatePassword` reports for `p`. */
  function FailedRules(p: string): seq<Rule>
  {
    Failing(Rules, p)
  }

  function Messages(rs: seq<Rule>): (ms: seq<string>)
    ensures |ms| == |rs| && forall i :: 0 <= i < |rs| ==> ms[i] == Message(rs[i])
  {
    seq(|rs|, i requires 0 <= i < |rs| => Message(rs[i]))
  }

  /** Ranks strictly increase along `rs`: every rule at most once, in the order of `Rules`. */
  predicate StrictlyRanked(rs: seq<Rule>)
  {
    forall i, j :: 0 <= i < j < |rs| ==> Rank(rs[i]) < Rank(rs[j])
  }

  lemma {:induction false} FailingMembers(rules: seq<Rule>, p: string, r: Rule)
    ensures r in Failing(rules, p) <==> r in rules && !Satisfies(p, r)
  {
    if rules != [] {
      FailingMembers(rules[1..], p, r);
      assert rules == [rules[0]] + rules[1..];
    }
  }

  lemma {:induction false} FailingRanked(rules: seq<Rule>, p: string)
    requires StrictlyRanked(rules)
    ensures StrictlyRanked(Failing(rules, p))
  {
    if rules != [] {
      var tail := Failing(rules[1..], p);
      FailingRanked(rules[1..], p);
      forall j | 0 <= j < |tail| ensures Rank(rules[0]) < Rank(tail[j]) {
        FailingMembers(rules[1..], p, tail[j]);
        var k :| 0 <= k < |rules[1..]| && rules[1..][k] == tail[j];
        assert rules[k + 1] == tail[j];
      }
    }
  }

  /**
   * The reported rules are exactly the failed ones, each once, in the fixed
   * order of `Rules`.
   */
  lemma FailedRulesExact(p: string)
    ensures forall r :: r in FailedRules(p) <==> !Satisfies(p, r)
    ensures StrictlyRanked(FailedRules(p))
    ensures |FailedRules(p)| <= 5
  {
    forall r ensures r in FailedRules(p) <==> !Satisfies(p, r) {
      FailingMembers(Rules, p, r);
    }
    FailingRanked(Rules, p);
    FailingLength(Rules, p);
  }

  lemma {:induction false} FailingLength(rules: seq<Rule>, p: string)
    ensures |Failing(rules, p)| <= |rules|
  {
    if rules != [] { FailingLength(rules[1..], p); }
  }

  lemma MessagesMembers(rs: seq<Rule>, r: Rule)
    ensures Message(r) in Messages(rs) <==> r in rs
  {
    if Message(r) in Messages(rs) {
      var i :| 0 <= i < |rs| && Messages(rs)[i] == Message(r);
      MessageInjective(rs[i], r);
    }
    if r in rs {
      var i :| 0 <= i < |rs| && rs[i] == r;
      assert Messages(rs)[i] == Message(r);
    }
  }

  /** One step of `Failing`. */
  lemma FailingCons(rules: seq<Rule>, p: string)
    requires rules != []
    ensures Failing(rules, p) == (if Satisfies(p, rules[0]) then [] else [rules[0]]) + Failing(rules[1..], p)
  {
  }

  /** `FailedRules` checks the five rules one after the other. */
  lemma FailedRulesUnfold(p: string)
    ensures FailedRules(p) ==
      (if Satisfies(p, MinLength) then [] else [MinLength])
      + ((if Satisfies(p, Uppercase) then [] else [Uppercase])
      + ((if Satisfies(p, Lowercase) then [] else [Lowercase])
      + ((if Satisfies(p, Digit) then [] else [Digit])
      + (if Satisfies(p, Special) then [] else [Special]))))
  {
    var r1 := [Uppercase, Lowercase, Digit, Special];
    var r2 := [Lowercase, Digit, Special];
    var r3 := [Digit, Special];
    var r4 := [Special];
    var c0 := if Satisfies(p, MinLength) then [] else [MinLength];
    var c1 := if Satisfies(p, Uppercase) then [] else [Uppercase];
    var c2 := if Satisfies(p, Lowercase) then [] else [Lowercase];
    var c3 := if Satisfies(p, Digit) then [] else [Digit];
    var c4 := if Satisfies(p, Special) then [] else [Special];
    assert r4[1..] == [];
    FailingCons(r4, p);
    assert Failing(r4, p) == c4;
    assert r3[1..] == r4;
    FailingCons(r3, p);
    assert Failing(r3, p) == c3 + c4;
    assert r2[1..] == r3;
    FailingCons(r2, p);
    assert Failing(r2, p) == c2 + (c3 + c4);
    assert r1[1..] == r2;
    FailingCons(r1, p);
    assert Failing(r1, p) == c1 + (c2 + (c3 + c4));
    assert Rules[1..] == r1;
    FailingCons(Rules, p);
    assert Failing(Rules, p) == c0 + (c1 + (c2 + (c3 + c4)));
  }

  lemma MessagesAppend(a: seq<Rule>, b: seq<Rule>)
    ensures Messages(a + b) == Messages(a) + Messages(b)
  {
  }

  /** A message is reported exactly when its rule fails. */
  lemma FailedMessagesExact(p: string)
    ensures forall rule :: Message(rule) in Messages(FailedRules(p)) <==> !Satisfies(p, rule)
  {
    FailedRulesExact(p);
    forall rule ensures Message(rule) in Messages(FailedRules(p)) <==> !Satisfies(p, rule) {
      MessagesMembers(FailedRules(p), rule);
    }
  }

  /** The empty password fails all five rules. */
  lemma EmptyPasswordFailsAll()
    ensures FailedRules("") == Rules
  {
    FailedRulesUnfold("");
  }

  /** The object `validatePassword` returns. */
  datatype PasswordCheck = PasswordCheck(isValid: bool, errors: seq<string>)

  /** `validatePassword(password)`: pushes one message per failed rule. */
  method ValidatePassword(p: string) returns (r: PasswordCheck)
    ensures r.errors == Messages(FailedRules(p))
    ensures r.isValid <==> r.errors == []
    ensures forall rule :: Message(rule) in r.errors <==> !Satisfies(p, rule)
    ensures |r.errors| <= 5
  {
    var errors: seq<string> := [];
    errors := Report(errors, [], p, MinLength, |p| < 8);
    errors := Report(errors, [MinLength], p, Uppercase, !HasUpper(p));
    assert [MinLength] + [Uppercase] == [MinLength, Uppercase];
    errors := Report(errors, [MinLength, Uppercase], p, Lowercase, !HasLower(p));
    assert [MinLength, Uppercase] + [Lowercase] == [MinLength, Uppercase, Lowercase];
    errors := Report(errors, [MinLength, Uppercase, Lowercase], p, Digit, !HasDigit(p));
    assert [MinLength, Uppercase, Lowercase] + [Digit] == [MinLength, Uppercase, Lowercase, Digit];
    errors := Report(errors, [MinLength, Uppercase, Lowercase, Digit], p, Special, !HasSpecial(p));
    assert [MinLength, Uppercase, Lowercase, Digit] + [Special] == Rules;
    r := PasswordCheck(|errors| == 0, errors);
    FailedRulesExact(p);
    FailedMessagesExact(p);
  }

  lemma {:induction false} FailingSnoc(rules: seq<Rule>, r: Rule, p: string)
    ensures Failing(rules + [r], p) == Failing(rules, p) + (if Satisfies(p, r) then [] else [r])
  {
    if rules == [] {
      assert [] + [r] == [r];
      assert [r][1..] == [];
    } else {
      var head := if Satisfies(p, rules[0]) then [] else [rules[0]];
      var last := if Satisfies(p, r) then [] else [r];
      assert (rules + [r])[0] == rules[0];
      assert (rules + [r])[1..] == rules[1..] + [r];
      assert Failing(rules + [r], p) == head + Failing(rules[1..] + [r], p);
      FailingSnoc(rules[1..], r, p);
      assert Failing(rules[1..] + [r], p) == Failing(rules[1..], p) + last;
      assert head + (Failing(rules[1..], p) + last) == (head + Failing(rules[1..], p)) + last;
    }
  }

  /**
   * One rule of `validatePassword`: `if (failing) errors.push(message)`, where
   * `errors` so far holds the messages of the rules in `done` that `p` fails.
   */
  method Report(errors: seq<string>, ghost done: seq<Rule>, p: string, rule: Rule, failing: bool)
    returns (next: seq<string>)
    requires errors == Messages(Failing(done, p))
    requires failing <==> !Satisfies(p, rule)
    ensures next == Messages(Failing(done + [rule], p))
  {
    FailingSnoc(done, rule, p);
    next := errors;
    if failing {
      next := next + [Message(rule)];
      MessagesAppend(Failing(done, p), [rule]);
    }
  }

  // ---------------------------------------------------------------------------
  // Strength meter
  // ---------------------------------------------------------------------------

  /** The object `getPasswordStrength` returns; `grade` is its `label` property (a Dafny keyword). */
  datatype Strength = Strength(grade: string, color: string, percent: nat)

  /** Number of strength criteria `p` meets: length 8, length 12, and the four character classes. */
  function Score(p: string): nat
  {
    (if |p| >= 8 then 1 else 0) + (if |p| >= 12 then 1 else 0)
    + (if HasUpper(p) then 1 else 0) + (if HasLower(p) then 1 else 0)
    + (if HasDigit(p) then 1 else 0) + (if HasSpecial(p) then 1 else 0)
  }

  /** The meter reading for a score. */
  function Band(score: nat): (s: Strength)
    ensures score <= 2 ==> s.grade == "Weak" && s.percent == 33
    ensures 3 <= score <= 4 ==> s.grade == "Medium" && s.percent == 66
    ensures score >= 5 ==> s.grade == "Strong" && s.percent == 100
  {
    if score <= 2 then Strength("Weak", "bg-red-500", 33)
    else if score <= 4 then Strength("Medium", "bg-yellow-500", 66)
    else Strength("Strong", "bg-green-500", 100)
  }

  /** `getPasswordStrength(password)`: counts the criteria met, then picks a band. */
  method GetPasswordStrength(p: string) returns (s: Strength)
    ensures s == Band(Score(p))
    ensures s.grade in {"Weak", "Medium", "Strong"}
  {
    var strength := 0;
    if |p| >= 8 { strength := strength + 1; }
    if |p| >= 12 { strength := strength + 1; }
    if HasUpper(p) { strength := strength + 1; }
    if HasLower(p) { strength := strength + 1; }
    if HasDigit(p) { strength := strength + 1; }
    if HasSpecial(p) { strength := strength + 1; }
    if strength <= 2 {
      s := Strength("Weak", "bg-red-500", 33);
    } else if strength <= 4 {
      s := Strength("Medium", "bg-yellow-500", 66);
    } else {
      s := Strength("Strong", "bg-green-500", 100);
    }
  }

  lemma ScoreRange(p: string)
    ensures 0 <= Score(p) <= 6
  {
  }

  /** A password that passes every rule scores at least 5 and reads "Strong". */
  lemma AcceptedIsStrong(p: string)
    requires FailedRules(p) == []
    ensures Score(p) >= 5
    ensures Band(Score(p)).grade == "Strong"
  {
    FailedRulesExact(p);
    assert Satisfies(p, MinLength) && Satisfies(p, Uppercase) && Satisfies(p, Lowercase);
    assert Satisfies(p, Digit) && Satisfies(p, Special);
  }

  /** The empty password reads "Weak". */
  lemma EmptyPasswordIsWeak()
    ensures Score("") == 0 && Band(Score("")).grade == "Weak"
  {
  }

  // ---------------------------------------------------------------------------
  // Confirmation
  // ---------------------------------------------------------------------------

  /** `validateConfirmPassword(password, confirm)`: strict string equality, character by character. */
  function ValidateConfirmPassword(password: string, confirm: string): (ok: bool)
    ensures ok <==> |password| == |confirm| && forall i :: 0 <= i < |password| ==> password[i] == confirm[i]
  {
    password == confirm
  }

  lemma ConfirmSymmetric(a: string, b: string)
    ensures ValidateConfirmPassword(a, b) == ValidateConfirmPassword(b, a)
  {
  }
}

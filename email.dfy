/** `isValidEmail` (functions/contact.ts): the regular expression `^[^\s@]+@[^\s@]+\.[^\s@]+$`
    tested against the trimmed address.  The expression is modelled by its minimal
    deterministic automaton and proved to accept exactly the addresses `local@domain.tld`
    whose three parts are non-empty and free of whitespace and `@`. */
module EmailAddress {
  import opened Strings

  /** A character the class `[^\s@]` matches (note that `.` is one). */
  predicate Part(c: char) {
    !IsSpace(c) && c != '@'
  }

  predicate AllPart(s: string) {
    forall i :: 0 <= i < |s| ==> Part(s[i])
  }

  /** What `[^\s@]+` matches. */
  predicate Segment(s: string) {
    s != [] && AllPart(s)
  }

  /** t is `local@domain.tld` with three well-formed parts. */
  predicate SplitsAs(t: string, local: string, domain: string, tld: string) {
    t == local + "@" + domain + "." + tld && Segment(local) && Segment(domain) && Segment(tld)
  }

  /** The meaning of the pattern, stated without automata. */
  ghost predicate AddressShape(t: string) {
    exists local, domain, tld :: SplitsAs(t, local, domain, tld)
  }

  /** States of the matcher.  After the `@`, Domain means "at least one domain character
      read", Dot means "a `.` just read that may end the domain", and Final means "a
      non-empty top-level part read".  Reject is the dead state. */
  datatype State = Start | Local | AfterAt | Domain | Dot | Final | Reject

  function Step(q: State, c: char): State {
    match q
    case Start => if Part(c) then Local else Reject
    case Local => if c == '@' then AfterAt else if Part(c) then Local else Reject
    case AfterAt => if Part(c) then Domain else Reject
    case Domain => if c == '.' then Dot else if Part(c) then Domain else Reject
    case Dot => if Part(c) then Final else Reject
    case Final => if Part(c) then Final else Reject
    case Reject => Reject
  }

  function Run(q: State, s: string): State
    decreases |s|
  {
    if s == [] then q else Run(Step(q, s[0]), s[1..])
  }

  /** `emailRegex.test(t)`. */
  predicate MatchesPattern(t: string) {
    Run(Start, t) == Final
  }

  /** `isValidEmail`. */
  predicate IsValidEmail(email: string) {
    MatchesPattern(Trim(email))
  }

  // ---- What each state accepts ----

  /** A `.` at position j of s with at least one character after it. */
  predicate DotBefore(s: string, j: int) {
    0 <= j < |s| - 1 && s[j] == '.'
  }

  /** What the Domain state still accepts. */
  ghost predicate DomainTail(s: string) {
    AllPart(s) && exists j :: DotBefore(s, j)
  }

  /** What the AfterAt state still accepts. */
  ghost predicate AfterAtTail(s: string) {
    s != [] && Part(s[0]) && DomainTail(s[1..])
  }

  /** An `@` at position a of s, preceded by local characters and followed by a domain. */
  ghost predicate AtSplit(s: string, a: int) {
    0 <= a < |s| && s[a] == '@' && AllPart(s[..a]) && AfterAtTail(s[a + 1..])
  }

  lemma {:induction false} RunReject(s: string)
    ensures Run(Reject, s) == Reject
  {
    if s != [] {
      RunReject(s[1..]);
    }
  }

  lemma {:induction false} RunFinal(s: string)
    ensures Run(Final, s) == Final <==> AllPart(s)
  {
    if s != [] {
      if Part(s[0]) {
        RunFinal(s[1..]);
        assert AllPart(s) <==> AllPart(s[1..]) by {
          if AllPart(s[1..]) {
            forall i | 0 <= i < |s| ensures Part(s[i]) {
              if i > 0 { assert s[i] == s[1..][i - 1]; }
            }
          }
        }
      } else {
        RunReject(s[1..]);
      }
    }
  }

  lemma RunDot(s: string)
    ensures Run(Dot, s) == Final <==> Segment(s)
  {
    if s != [] {
      if Part(s[0]) {
        RunFinal(s[1..]);
        assert AllPart(s) <==> AllPart(s[1..]) by {
          if AllPart(s[1..]) {
            forall i | 0 <= i < |s| ensures Part(s[i]) {
              if i > 0 { assert s[i] == s[1..][i - 1]; }
            }
          }
        }
      } else {
        RunReject(s[1..]);
      }
    }
  }

  lemma {:induction false} RunDomain(s: string)
    ensures Run(Domain, s) == Final <==> DomainTail(s)
  {
    if s == [] {
      return;
    }
    var c, rest := s[0], s[1..];
    assert AllPart(s) <==> Part(c) && AllPart(rest) by {
      if Part(c) && AllPart(rest) {
        forall i | 0 <= i < |s| ensures Part(s[i]) {
          if i > 0 { assert s[i] == rest[i - 1]; }
        }
      }
    }
    if !Part(c) {
      RunReject(rest);
    } else if c == '.' {
      RunDot(rest);
      if Segment(rest) {
        assert DotBefore(s, 0);
      }
      if DomainTail(s) {
        var j :| DotBefore(s, j);
        assert |rest| > 0;
      }
    } else {
      RunDomain(rest);
      if DomainTail(rest) {
        var j :| DotBefore(rest, j);
        assert DotBefore(s, j + 1);
      }
      if DomainTail(s) {
        var j :| DotBefore(s, j);
        assert DotBefore(rest, j - 1);
      }
    }
  }

  lemma RunAfterAt(s: string)
    ensures Run(AfterAt, s) == Final <==> AfterAtTail(s)
  {
    if s != [] {
      if Part(s[0]) {
        RunDomain(s[1..]);
      } else {
        RunReject(s[1..]);
      }
    }
  }

  lemma {:induction false} RunLocal(s: string)
    ensures Run(Local, s) == Final <==> exists a :: AtSplit(s, a)
  {
    if s == [] {
      return;
    }
    var c, rest := s[0], s[1..];
    if c == '@' {
      RunAfterAt(rest);
      if AfterAtTail(rest) {
        assert AtSplit(s, 0);
      }
    } else if Part(c) {
      RunLocal(rest);
      if exists a :: AtSplit(rest, a) {
        var a :| AtSplit(rest, a);
        AtSplitShiftUp(s, a);
      }
      if exists a :: AtSplit(s, a) {
        var a :| AtSplit(s, a);
        AtSplitShiftDown(s, a);
      }
    } else {
      RunReject(rest);
    }
  }

  lemma AtSplitShiftUp(s: string, a: int)
    requires s != [] && Part(s[0]) && AtSplit(s[1..], a)
    ensures AtSplit(s, a + 1)
  {
    var rest := s[1..];
    assert s[..a + 1] == [s[0]] + rest[..a];
    assert s[a + 2..] == rest[a + 1..];
  }

  lemma AtSplitShiftDown(s: string, a: int)
    requires s != [] && Part(s[0]) && AtSplit(s, a)
    ensures AtSplit(s[1..], a - 1)
  {
    var rest := s[1..];
    assert a > 0;
    assert rest[..a - 1] == s[..a][1..];
    assert rest[a..] == s[a + 1..];
  }

  /** The automaton accepts exactly the strings of the form `local@domain.tld`. */
  lemma PatternMeansShape(t: string)
    ensures MatchesPattern(t) <==> AddressShape(t)
  {
    if MatchesPattern(t) {
      PatternGivesShape(t);
    }
    if AddressShape(t) {
      var l, d, tld :| SplitsAs(t, l, d, tld);
      ShapeMatchesPattern(t, l, d, tld);
    }
  }

  lemma PatternGivesShape(t: string)
    requires MatchesPattern(t)
    ensures AddressShape(t)
  {
    if t == [] || !Part(t[0]) {
      if t != [] { RunReject(t[1..]); }
      return;
    }
    var s := t[1..];
    RunLocal(s);
    var a :| AtSplit(s, a);
    var r := s[a + 1..];
    var j :| DotBefore(r[1..], j);
    assert t[..a + 1] == [t[0]] + s[..a];
    AllPartCons(t[0], s[..a]);
    assert r == [r[0]] + r[1..];
    AllPartCons(r[0], r[1..]);
    assert r == t[a + 2..] && r[1..][j] == t[a + 3 + j];
    ShapeAt(t, a + 1, a + 3 + j);
  }

  /** An `@` and a later `.` at the given positions, with only address characters around
      them, split the string into local part, domain and top-level domain. */
  lemma ShapeAt(t: string, at: int, dot: int)
    requires 0 < at && at + 1 < dot < |t| - 1 && t[at] == '@' && t[dot] == '.'
    requires AllPart(t[..at]) && AllPart(t[at + 1..])
    ensures SplitsAs(t, t[..at], t[at + 1..dot], t[dot + 1..])
  {
    var r := t[at + 1..];
    AllPartSlice(r, 0, dot - at - 1);
    AllPartSlice(r, dot - at, |r|);
    assert r[0..dot - at - 1] == t[at + 1..dot] && r[dot - at..|r|] == t[dot + 1..];
    assert t == t[..at] + "@" + t[at + 1..dot] + "." + t[dot + 1..];
  }

  lemma AllPartCons(c: char, s: string)
    requires Part(c) && AllPart(s)
    ensures AllPart([c] + s)
  {
    forall i | 0 <= i < |[c] + s| ensures Part(([c] + s)[i]) {
      if i > 0 { assert ([c] + s)[i] == s[i - 1]; }
    }
  }

  lemma AllPartSlice(s: string, i: int, j: int)
    requires AllPart(s) && 0 <= i <= j <= |s|
    ensures AllPart(s[i..j])
  {
    forall k | 0 <= k < j - i ensures Part(s[i..j][k]) {
      assert s[i..j][k] == s[i + k];
    }
  }

  lemma ShapeMatchesPattern(t: string, l: string, d: string, tld: string)
    requires SplitsAs(t, l, d, tld)
    ensures MatchesPattern(t)
  {
    var s := t[1..];
    var a := |l| - 1;
    var r := d + "." + tld;
    assert t[0] == l[0];
    assert s == l[1..] + "@" + r;
    assert s[..a] == l[1..];
    assert s[a + 1..] == r;
    assert r[1..] == d[1..] + "." + tld;
    assert DotBefore(r[1..], |d| - 1);
    assert AllPart(r[1..]) by {
      forall i | 0 <= i < |r[1..]| ensures Part(r[1..][i]) {
        if i < |d| - 1 {
          assert r[1..][i] == d[i + 1];
        } else if i > |d| - 1 {
          assert r[1..][i] == tld[i - |d|];
        }
      }
    }
    assert AtSplit(s, a);
    RunLocal(s);
  }

  // ---- Properties of isValidEmail ----

  /** `isValidEmail(e)` holds exactly when the trimmed e is `local@domain.tld` with
      three non-empty parts free of whitespace and `@`. */
  lemma ValidMeansShape(email: string)
    ensures IsValidEmail(email) <==> exists local, domain, tld :: SplitsAs(Trim(email), local, domain, tld)
  {
    PatternMeansShape(Trim(email));
  }

  /** An address whose trimmed form is not local@domain.tld is refused. */
  lemma ShapelessIsInvalid(email: string)
    requires !AddressShape(Trim(email))
    ensures !IsValidEmail(email)
  {
    PatternMeansShape(Trim(email));
  }

  /** Any well-formed address is accepted, whatever whitespace surrounds it. */
  lemma ShapeIsValid(before: string, local: string, domain: string, tld: string, after: string)
    requires Segment(local) && Segment(domain) && Segment(tld)
    requires AllSpace(before) && AllSpace(after)
    ensures IsValidEmail(before + (local + "@" + domain + "." + tld) + after)
  {
    var t := local + "@" + domain + "." + tld;
    assert t[0] == local[0] && t[|t| - 1] == tld[|tld| - 1];
    TrimPadded(before, t, after);
    assert SplitsAs(t, local, domain, tld);
    PatternMeansShape(t);
  }

  /** A valid address holds exactly one `@`. */
  lemma ValidHasOneAt(email: string)
    requires IsValidEmail(email)
    ensures multiset(Trim(email))['@'] == 1
  {
    var t := Trim(email);
    PatternMeansShape(t);
    var l, d, tld :| SplitsAs(t, l, d, tld);
    ShapeHasOneAt(t, l, d, tld);
  }

  lemma ShapeHasOneAt(t: string, l: string, d: string, tld: string)
    requires SplitsAs(t, l, d, tld)
    ensures multiset(t)['@'] == 1
  {
    assert '@' !in l && '@' !in d && '@' !in tld;
    assert multiset(t) == multiset(l) + multiset{'@'} + multiset(d) + multiset{'.'} + multiset(tld);
  }

  /** A valid address contains no whitespace once trimmed, and does not start with `@`. */
  lemma ValidHasNoSpace(email: string)
    requires IsValidEmail(email)
    ensures forall i :: 0 <= i < |Trim(email)| ==> !IsSpace(Trim(email)[i])
    ensures Trim(email)[0] != '@'
  {
    var t := Trim(email);
    PatternMeansShape(t);
    var l, d, tld :| SplitsAs(t, l, d, tld);
    ShapeHasNoSpace(t, l, d, tld);
  }

  lemma ShapeHasNoSpace(t: string, l: string, d: string, tld: string)
    requires SplitsAs(t, l, d, tld)
    ensures forall i :: 0 <= i < |t| ==> !IsSpace(t[i])
    ensures t[0] != '@'
  {
    forall i | 0 <= i < |t| ensures !IsSpace(t[i]) {
      if i < |l| {
        assert t[i] == l[i];
      } else if i == |l| {
      } else if i < |l| + 1 + |d| {
        assert t[i] == d[i - |l| - 1];
      } else if i == |l| + 1 + |d| {
      } else {
        assert t[i] == tld[i - |l| - 2 - |d|];
      }
    }
    assert t[0] == l[0];
  }

  /** A valid address has a `.` somewhere after its `@`. */
  lemma ValidHasDot(email: string)
    requires IsValidEmail(email)
    ensures exists i, j :: 0 <= i < j < |Trim(email)| && Trim(email)[i] == '@' && Trim(email)[j] == '.'
  {
    var t := Trim(email);
    PatternMeansShape(t);
    var l, d, tld :| SplitsAs(t, l, d, tld);
    assert t[|l|] == '@' && t[|l| + 1 + |d|] == '.';
  }
}

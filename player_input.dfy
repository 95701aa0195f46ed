/**
 * What the two player forms accept, shared by both: the contact record a form
 * submits, and the email and phone regular expressions of `PlayerForm.tsx`,
 * `/^[^\s@]+@[^\s@]+\.[^\s@]+$/` and `/^\+?[\d\s\-()]{7,15}$/`, written as predicates
 * over characters.
 */
module PlayerInput {
  import opened Text

  /** What a form hands to its `onSubmit`. */
  datatype PlayerInfo = PlayerInfo(email: string, phone: string)

  /** Which fields `validate` flagged. */
  datatype FormErrors = FormErrors(email: bool, phone: bool)

  const NoErrors: FormErrors := FormErrors(false, false)

  /** A character of the class `[^\s@]`. */
  predicate PlainChar(c: char) { !IsSpace(c) && c != '@' }

  /** A string of `[^\s@]*`. */
  predicate Plain(s: string) { forall k :: 0 <= k < |s| ==> PlainChar(s[k]) }

  /**
   * The email expression read piece by piece: a non-empty plain run, the `@` at `i`,
   * a non-empty plain run, the `.` at `j`, a non-empty plain run, and nothing else.
   */
  predicate EmailPattern(s: string)
  {
    exists i, j :: 0 < i && i + 1 < j && j + 1 < |s| && s[i] == '@' && s[j] == '.'
      && Plain(s[..i]) && Plain(s[i + 1..j]) && Plain(s[j + 1..])
  }

  /** The split of an address at its one `@`: a local part and a domain with an inner dot. */
  predicate EmailSplit(s: string, a: int)
  {
    0 < a < |s| && s[a] == '@'
    && Plain(s[..a]) && Plain(s[a + 1..])
    && (exists b :: a + 1 < b < |s| - 1 && s[b] == '.')
  }

  /** A match splits at its `@`, and then has no whitespace anywhere. */
  lemma PatternSplits(s: string) returns (a: int)
    requires EmailPattern(s)
    ensures EmailSplit(s, a)
    ensures NoSpace(s)
  {
    var i, j :| 0 < i && i + 1 < j && j + 1 < |s| && s[i] == '@' && s[j] == '.'
      && Plain(s[..i]) && Plain(s[i + 1..j]) && Plain(s[j + 1..]);
    PlainAfterAt(s, i, j);
    NoSpaceAround(s, i);
    a := i;
  }

  /** The domain part, dot included, is plain when both sides of the dot are. */
  lemma PlainAfterAt(s: string, i: int, j: int)
    requires 0 <= i && i + 1 < j < |s| && s[j] == '.'
    requires Plain(s[i + 1..j]) && Plain(s[j + 1..])
    ensures Plain(s[i + 1..])
  {
    forall p | i + 1 <= p < |s| ensures PlainChar(s[p]) {
      if p < j {
        assert s[p] == s[i + 1..j][p - i - 1];
      } else if p > j {
        assert s[p] == s[j + 1..][p - j - 1];
      }
    }
  }

  /** Plain text on both sides of a character that is not whitespace leaves no whitespace at all. */
  lemma NoSpaceAround(s: string, i: int)
    requires 0 <= i < |s| && !IsSpace(s[i])
    requires Plain(s[..i]) && Plain(s[i + 1..])
    ensures NoSpace(s)
  {
    forall k | 0 <= k < |s| ensures !IsSpace(s[k]) {
      if k < i {
        assert s[k] == s[..i][k];
      } else if k > i {
        assert s[k] == s[i + 1..][k - i - 1];
      }
    }
  }

  /** A split at an `@` is a match. */
  lemma SplitMatches(s: string, a: int)
    requires EmailSplit(s, a)
    ensures EmailPattern(s)
  {
    var b :| a + 1 < b < |s| - 1 && s[b] == '.';
    forall p | a + 1 <= p < |s| ensures PlainChar(s[p]) {
      assert s[p] == s[a + 1..][p - a - 1];
    }
    assert Plain(s[a + 1..b]);
    assert Plain(s[b + 1..]);
  }

  /** The `@` of a split is the only one in the address. */
  lemma SplitAtIsUnique(s: string, a: int)
    requires EmailSplit(s, a)
    ensures forall k :: 0 <= k < |s| && k != a ==> s[k] != '@'
  {
    forall k | 0 <= k < a ensures s[k] != '@' {
      assert s[k] == s[..a][k];
    }
    forall k | a < k < |s| ensures s[k] != '@' {
      assert s[k] == s[a + 1..][k - a - 1];
    }
  }

  /**
   * An address matches exactly when it has the shape the expression describes: a
   * non-empty local part, one `@` and no other, and a domain with a `.` that has at
   * least one character on each side, with no whitespace anywhere.
   */
  lemma EmailPatternShape(s: string)
    ensures EmailPattern(s) <==> exists a :: EmailSplit(s, a)
    ensures forall a, k :: EmailSplit(s, a) && 0 <= k < |s| && k != a ==> s[k] != '@'
    ensures EmailPattern(s) ==> NoSpace(s)
  {
    if EmailPattern(s) {
      var a := PatternSplits(s);
    }
    forall a | EmailSplit(s, a) ensures EmailPattern(s) {
      SplitMatches(s, a);
    }
    forall a | EmailSplit(s, a) ensures forall k :: 0 <= k < |s| && k != a ==> s[k] != '@' {
      SplitAtIsUnique(s, a);
    }
  }

  /** A matching address has no whitespace, so trimming it changes nothing. */
  lemma EmailPatternIsTrimmed(s: string)
    requires EmailPattern(s)
    ensures Trim(s) == s
  {
    EmailPatternShape(s);
    TrimNoSpace(s);
  }

  /** A character of the class `[\d\s\-()]`. */
  predicate PhoneChar(c: char)
  {
    '0' <= c <= '9' || IsSpace(c) || c == '-' || c == '(' || c == ')'
  }

  /** `[\d\s\-()]{7,15}`. */
  predicate PhoneBody(s: string)
  {
    7 <= |s| <= 15 && forall k :: 0 <= k < |s| ==> PhoneChar(s[k])
  }

  /** The phone expression: an optional `+` and then the body. */
  predicate PhonePattern(s: string)
  {
    PhoneBody(s) || (s != [] && s[0] == '+' && PhoneBody(s[1..]))
  }

  /** A `+` followed by a phone body matches the phone expression. */
  lemma PlusBodyMatches(s: string)
    requires s != [] && s[0] == '+' && PhoneBody(s[1..])
    ensures PhonePattern(s)
  {
  }

  /**
   * A matching phone is 7 to 16 characters long, and a `+` can only be its first
   * character.
   */
  lemma PhonePatternShape(s: string)
    requires PhonePattern(s)
    ensures 7 <= |s| <= 16
    ensures forall k :: 0 < k < |s| ==> s[k] != '+'
    ensures s[0] == '+' ==> PhoneBody(s[1..]) && |s| >= 8
    ensures s[0] != '+' ==> PhoneBody(s)
  {
    if !PhoneBody(s) {
      forall k | 0 < k < |s| ensures s[k] != '+' {
        assert s[k] == s[1..][k - 1];
      }
    }
  }
}

/** The e-mail shape that sign-up accepts: the JavaScript regular expression
    `^[^\s@]+@[^\s@]+\.[^\s@]+$`, written as a predicate on strings. */
module EmailFormat {

  /** JavaScript's `\s`: the ECMAScript white-space and line-terminator
      characters (tab to carriage return, space, no-break space, the Unicode
      space separators, line and paragraph separators, and the byte-order mark). */
  predicate IsSpace(c: char)
  {
    var n := c as int;
    (9 <= n <= 13) || n == 0x20 || n == 0xA0 || n == 0x1680 || (0x2000 <= n <= 0x200A) ||
    n == 0x2028 || n == 0x2029 || n == 0x202F || n == 0x205F || n == 0x3000 || n == 0xFEFF
  }

  /** A character of the class `[^\s@]`. */
  predicate Plain(c: char)
  {
    !IsSpace(c) && c != '@'
  }

  /** `[^\s@]+`: a non-empty run of plain characters. */
  predicate PlainRun(s: string)
  {
    |s| > 0 && forall k :: 0 <= k < |s| ==> Plain(s[k])
  }

  /** The anchored pattern `^[^\s@]+@[^\s@]+\.[^\s@]+$`: the string splits at
      an '@' (index i) and a later '.' (index j) into three plain runs. */
  predicate IsEmailShape(s: string)
    ensures IsEmailShape(s) ==> 5 <= |s| && Plain(s[0]) && Plain(s[|s| - 1])
  {
    exists i, j | 0 < i < j < |s| - 1 ::
      s[i] == '@' && s[j] == '.' && PlainRun(s[..i]) && PlainRun(s[i + 1..j]) && PlainRun(s[j + 1..])
  }

  predicate NoSpace(s: string)
  {
    forall k :: 0 <= k < |s| ==> !IsSpace(s[k])
  }

  /** Every '@' of `s` is at index `i`. */
  predicate AtOnlyAt(s: string, i: nat)
  {
    forall k :: 0 <= k < |s| && k != i ==> s[k] != '@'
  }

  /** A '.' lies strictly inside the part of `s` after index `i`: neither
      right after `i` nor at the end. */
  predicate InnerDotAfter(s: string, i: nat)
  {
    exists j :: i + 1 < j < |s| - 1 && s[j] == '.'
  }

  /** The pattern read character by character: no white space, one '@' not
      at the front, and a '.' strictly inside the part after it. */
  predicate ShapeByCharacters(s: string)
  {
    NoSpace(s) && exists i: nat :: 0 < i < |s| && s[i] == '@' && AtOnlyAt(s, i) && InnerDotAfter(s, i)
  }

  /** What the pattern means as a whole: no white space anywhere, exactly one
      '@', which is not the first character, and a '.' after it that is
      neither the first nor the last character of the domain part. */
  lemma EmailShapeCharacterization(s: string)
    ensures IsEmailShape(s) <==> ShapeByCharacters(s)
  {
    if IsEmailShape(s) {
      MatchImpliesCharacters(s);
    }
    if ShapeByCharacters(s) {
      CharactersImplyMatch(s);
    }
  }

  lemma MatchImpliesCharacters(s: string)
    requires IsEmailShape(s)
    ensures ShapeByCharacters(s)
  {
    var i, j :| 0 < i < j < |s| - 1 && s[i] == '@' && s[j] == '.' &&
      PlainRun(s[..i]) && PlainRun(s[i + 1..j]) && PlainRun(s[j + 1..]);
    var user, host, top := s[..i], s[i + 1..j], s[j + 1..];
    forall k | 0 <= k < |s|
      ensures !IsSpace(s[k]) && (k != i ==> s[k] != '@')
    {
      if k < i {
        assert s[k] == user[k];
      } else if i < k < j {
        assert s[k] == host[k - i - 1];
      } else if j < k {
        assert s[k] == top[k - j - 1];
      }
    }
    assert InnerDotAfter(s, i) by {
      assert |host| > 0;
    }
  }

  lemma CharactersImplyMatch(s: string)
    requires ShapeByCharacters(s)
    ensures IsEmailShape(s)
  {
    var i: nat :| 0 < i < |s| && s[i] == '@' && AtOnlyAt(s, i) && InnerDotAfter(s, i);
    var j :| i + 1 < j < |s| - 1 && s[j] == '.';
    var user, host, top := s[..i], s[i + 1..j], s[j + 1..];
    assert PlainRun(user) by {
      forall k | 0 <= k < |user| ensures Plain(user[k]) {
        assert user[k] == s[k];
      }
    }
    assert PlainRun(host) by {
      forall k | 0 <= k < |host| ensures Plain(host[k]) {
        assert host[k] == s[i + 1 + k];
      }
    }
    assert PlainRun(top) by {
      forall k | 0 <= k < |top| ensures Plain(top[k]) {
        assert top[k] == s[j + 1 + k];
      }
    }
  }

  /** The pattern admits at most one '@': a string with two of them never
      passes, whatever surrounds them. */
  lemma TwoAtSignsRejected(s: string, a: int, b: int)
    requires 0 <= a < b < |s| && s[a] == '@' && s[b] == '@'
    ensures !IsEmailShape(s)
  {
    EmailShapeCharacterization(s);
  }

  /** A white-space character anywhere rejects the string. */
  lemma SpaceRejected(s: string, k: int)
    requires 0 <= k < |s| && IsSpace(s[k])
    ensures !IsEmailShape(s)
  {
    EmailShapeCharacterization(s);
  }
}

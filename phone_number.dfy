/** Destination normalisation of the send handlers: a phone number given by a
    client is reduced to its decimal digits, in their original order, before it
    is handed to the session manager. */
module PhoneNumber {

  /** The characters the normaliser keeps: '0' through '9' and nothing else. */
  predicate IsDigit(c: char) {
    '0' <= c <= '9'
  }

  predicate AllDigits(s: string) {
    forall i :: 0 <= i < |s| ==> IsDigit(s[i])
  }

  predicate NoDigits(s: string) {
    forall i :: 0 <= i < |s| ==> !IsDigit(s[i])
  }

  /** `t` can be obtained from `s` by deleting characters (order kept). */
  predicate IsSubsequence(t: string, s: string)
    decreases |s|
  {
    if t == [] then true
    else if s == [] then false
    else (t[0] == s[0] && IsSubsequence(t[1..], s[1..])) || IsSubsequence(t, s[1..])
  }

  /** The normalised destination: every digit of `s`, in order, every other
      character dropped. */
  function Clean(s: string): (r: string)
    ensures AllDigits(r)
    ensures |r| <= |s|
  {
    if s == [] then []
    else (if IsDigit(s[0]) then [s[0]] else []) + Clean(s[1..])
  }

  /** The accumulating loop of the handler: one pass over the characters,
      appending each digit to the result. */
  method CleanPhoneNumber(number: string) returns (result: string)
    ensures result == Clean(number)
  {
    result := "";
    for i := 0 to |number|
      invariant result == Clean(number[..i])
    {
      var c := number[i];
      if '0' <= c <= '9' {
        result := result + [c];
      }
      CleanAppend(number[..i], [c]);
      assert number[..i + 1] == number[..i] + [c];
    }
    assert number[..|number|] == number;
  }

  /** Each character is filtered on its own, so cleaning distributes over
      concatenation. */
  lemma {:induction false} CleanAppend(a: string, b: string)
    ensures Clean(a + b) == Clean(a) + Clean(b)
  {
    if a == [] {
      assert a + b == b;
    } else {
      assert (a + b)[0] == a[0];
      assert (a + b)[1..] == a[1..] + b;
      CleanAppend(a[1..], b);
    }
  }

  /** A string made only of digits is returned unchanged, and only such a
      string is. */
  lemma {:induction false} CleanFixpointIff(s: string)
    ensures Clean(s) == s <==> AllDigits(s)
  {
    if s != [] {
      CleanFixpointIff(s[1..]);
      if AllDigits(s) {
        assert AllDigits(s[1..]) by {
          forall i | 0 <= i < |s[1..]| ensures IsDigit(s[1..][i]) {
            assert s[1..][i] == s[i + 1];
          }
        }
      }
    }
  }

  /** Cleaning twice is cleaning once. */
  lemma CleanIdempotent(s: string)
    ensures Clean(Clean(s)) == Clean(s)
  {
    CleanFixpointIff(Clean(s));
  }

  /** The cleaned destination is empty exactly when the input holds no digit. */
  lemma {:induction false} CleanEmptyIff(s: string)
    ensures Clean(s) == [] <==> NoDigits(s)
  {
    if s != [] {
      CleanEmptyIff(s[1..]);
      if NoDigits(s) {
        assert NoDigits(s[1..]) by {
          forall i | 0 <= i < |s[1..]| ensures !IsDigit(s[1..][i]) {
            assert s[1..][i] == s[i + 1];
          }
        }
      } else {
        var i :| 0 <= i < |s| && IsDigit(s[i]);
        if i > 0 {
          assert s[1..][i - 1] == s[i];
        }
      }
    }
  }

  /** No digit is dropped or duplicated and nothing else survives: each digit
      occurs in the result exactly as often as in the input. */
  lemma {:induction false} CleanCounts(s: string, c: char)
    ensures multiset(Clean(s))[c] == if IsDigit(c) then multiset(s)[c] else 0
  {
    if s != [] {
      CleanCounts(s[1..], c);
      assert s == [s[0]] + s[1..];
      assert multiset(s) == multiset([s[0]]) + multiset(s[1..]);
      var head := if IsDigit(s[0]) then [s[0]] else [];
      assert Clean(s) == head + Clean(s[1..]);
      assert multiset(Clean(s)) == multiset(head) + multiset(Clean(s[1..]));
    }
  }

  /** The result keeps the input's order: it is a subsequence of the input. */
  lemma {:induction false} CleanIsSubsequence(s: string)
    ensures IsSubsequence(Clean(s), s)
  {
    if s != [] {
      CleanIsSubsequence(s[1..]);
      if IsDigit(s[0]) {
        assert Clean(s)[0] == s[0] && Clean(s)[1..] == Clean(s[1..]);
      } else {
        assert Clean(s) == Clean(s[1..]);
      }
    }
  }

  /** No all-digit subsequence of the input is longer than the cleaned one. */
  lemma {:induction false} DigitSubsequenceBound(t: string, s: string)
    requires AllDigits(t) && IsSubsequence(t, s)
    ensures |t| <= |Clean(s)|
    decreases |s|
  {
    if t != [] {
      if t[0] == s[0] && IsSubsequence(t[1..], s[1..]) {
        assert AllDigits(t[1..]) by {
          forall i | 0 <= i < |t[1..]| ensures IsDigit(t[1..][i]) {
            assert t[1..][i] == t[i + 1];
          }
        }
        DigitSubsequenceBound(t[1..], s[1..]);
        assert IsDigit(t[0]);
      } else {
        DigitSubsequenceBound(t, s[1..]);
      }
    }
  }

  /** Clean(s) is characterised independently of how it is computed: it is the
      one all-digit subsequence of `s` of greatest length. */
  lemma {:induction false} CleanIsLongestDigitSubsequence(t: string, s: string)
    requires AllDigits(t) && IsSubsequence(t, s)
    requires |t| >= |Clean(s)|
    ensures t == Clean(s)
    decreases |s|
  {
    if t != [] {
      if t[0] == s[0] && IsSubsequence(t[1..], s[1..]) {
        assert AllDigits(t[1..]) by {
          forall i | 0 <= i < |t[1..]| ensures IsDigit(t[1..][i]) {
            assert t[1..][i] == t[i + 1];
          }
        }
        assert IsDigit(s[0]) by { assert IsDigit(t[0]); }
        CleanIsLongestDigitSubsequence(t[1..], s[1..]);
        assert t == [t[0]] + t[1..];
      } else {
        DigitSubsequenceBound(t, s[1..]);
        assert !IsDigit(s[0]);
        CleanIsLongestDigitSubsequence(t, s[1..]);
      }
    }
  }

  /** Helper for FormattedNumberExample: cleaning four consecutive pieces
      cleans each one on its own. */
  lemma CleanAppend4(a: string, b: string, c: string, d: string)
    ensures Clean(a + (b + (c + d))) == Clean(a) + (Clean(b) + (Clean(c) + Clean(d)))
  {
    CleanAppend(c, d);
    CleanAppend(b, c + d);
    CleanAppend(a, b + (c + d));
  }

  /** Helper for FormattedNumberExample: the four pieces of the example, cleaned. */
  lemma FormattedNumberPieces()
    ensures Clean("+1 (") == "1" && Clean("555) ") == "555"
    ensures Clean("123-") == "123" && Clean("4567") == "4567"
  {}

  /** A destination written with a plus sign, spaces, brackets and a dash is
      reduced to its bare digits. */
  lemma FormattedNumberExample()
    ensures Clean("+1 (555) 123-4567") == "15551234567"
  {
    FormattedNumberPieces();
    CleanAppend4("+1 (", "555) ", "123-", "4567");
    assert "+1 (" + ("555) " + ("123-" + "4567")) == "+1 (555) 123-4567";
    assert "1" + ("555" + ("123" + "4567")) == "15551234567";
  }
}

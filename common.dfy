/** Types and string predicates shared by the handlers of the chat bot. */
module Common {

  datatype Option<+T> = None | Some(value: T)

  /** What a Python call does: return a value, or raise an exception carrying a message. */
  datatype Outcome<+T> = Returned(value: T) | Raised(message: string)

  /** The messaging platform's opaque user id. */
  type UserId = string

  /** One entry of a chat-completion message list: a role and a content, which is JSON null
      when the bot forwards a `None` prompt. */
  datatype Role = System | User | Assistant
  datatype ChatMessage = ChatMessage(role: Role, content: Option<string>)

  /** Python's `s.startswith(p)`. */
  predicate StartsWith(s: string, p: string) {
    |p| <= |s| && s[..|p|] == p
  }

  /** Python's `k in s` on strings: `k` occurs as a contiguous substring of `s`. */
  predicate Contains(s: string, k: string)
    decreases |s|
  {
    StartsWith(s, k) || (|s| > 0 && Contains(s[1..], k))
  }

  /** `k` occurs in `s` starting at index `i`. */
  predicate OccursAt(s: string, k: string, i: int) {
    0 <= i <= |s| - |k| && s[i..i + |k|] == k
  }

  /** A slice of the tail is the slice of the whole one position further on. */
  lemma TailSlice(s: string, i: int, n: int)
    requires 0 < |s| && 0 <= i && 0 <= n && i + n <= |s| - 1
    ensures s[1..][i..i + n] == s[i + 1..i + 1 + n]
  {
  }

  /** `Contains` agrees with the usual definition by an occurrence index. */
  lemma {:induction false} ContainsIff(s: string, k: string)
    ensures Contains(s, k) <==> exists i :: OccursAt(s, k, i)
    decreases |s|
  {
    if StartsWith(s, k) {
      assert OccursAt(s, k, 0);
    } else if |s| > 0 {
      ContainsIff(s[1..], k);
      if Contains(s[1..], k) {
        var i :| OccursAt(s[1..], k, i);
        TailSlice(s, i, |k|);
        assert OccursAt(s, k, i + 1);
      } else {
        forall i | OccursAt(s, k, i)
          ensures false
        {
          if i > 0 {
            TailSlice(s, i - 1, |k|);
            assert OccursAt(s[1..], k, i - 1);
          }
        }
      }
    } else {
      forall i | OccursAt(s, k, i)
        ensures false
      {
      }
    }
  }

  /** A string contains every string placed inside it. */
  lemma {:induction false} ContainsInfix(a: string, k: string, b: string)
    ensures Contains(a + k + b, k)
    decreases |a|
  {
    if |a| == 0 {
      assert a + k + b == k + b;
      assert (k + b)[..|k|] == k;
    } else {
      ContainsInfix(a[1..], k, b);
      assert (a + k + b)[1..] == a[1..] + k + b;
    }
  }

  /** A string cannot contain a string that has a character it lacks. */
  lemma {:induction false} NotContainsByChar(s: string, k: string, c: char)
    requires c in k && c !in s
    ensures !Contains(s, k)
    decreases |s|
  {
    if |s| > 0 {
      NotContainsByChar(s[1..], k, c);
    }
  }
}

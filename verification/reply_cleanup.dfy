/**
 * Cleanup of the completion text before parsing, shared by both query
 * services: every "```json" and then every "```" is removed together with at
 * most one newline right after it (the global regular-expression replacements
 * `/```json\n?/g` and `/```\n?/g`), and the result is trimmed.
 */
module ReplyCleanup {
  import opened Text

  const Fence: string := "```"
  const JsonFence: string := "```json"

  /**
   * One global replacement of `tok` followed by an optional newline with the
   * empty string: a left-to-right scan that deletes each non-overlapping
   * occurrence (and the newline after it, when there is one) and keeps every
   * other character in order.
   */
  function StripAll(s: string, tok: string): (r: string)
    requires |tok| > 0
    ensures |r| <= |s|
    ensures !Contains(s, tok) ==> r == s
    decreases |s|
  {
    if |s| == 0 then ""
    else if StartsWith(s, tok) then
      assert OccursAt(s, tok, 0);
      var rest := s[|tok|..];
      if |rest| > 0 && rest[0] == '\n' then StripAll(rest[1..], tok) else StripAll(rest, tok)
    else
      ContainsTail(s, tok);
      [s[0]] + StripAll(s[1..], tok)
  }

  lemma ContainsTail(s: string, tok: string)
    requires |s| > 0
    ensures Contains(s[1..], tok) ==> Contains(s, tok)
  {
    if Contains(s[1..], tok) {
      var i :| 0 <= i <= |s[1..]| && OccursAt(s[1..], tok, i);
      assert OccursAt(s, tok, i + 1);
    }
  }

  /** The cleaned completion text handed to `JSON.parse`: it never contains a fence. */
  function Cleanup(s: string): (r: string)
    ensures !Contains(r, Fence)
  {
    var stripped := StripAll(StripAll(s, JsonFence), Fence);
    NoTripleAfterStrip(StripAll(s, JsonFence));
    TrimKeepsNoFence(stripped);
    Trim(stripped)
  }

  /** Three backticks in a row at index `i`. */
  predicate TripleAt(t: string, i: int) {
    0 <= i && i + 3 <= |t| && t[i] == '`' && t[i + 1] == '`' && t[i + 2] == '`'
  }

  lemma TripleIsFence(t: string, i: int)
    ensures OccursAt(t, Fence, i) <==> TripleAt(t, i)
  {
    if TripleAt(t, i) {
      assert t[i..i + 3] == Fence;
    }
  }

  /** A stripped text that starts with a backtick came from a text that does. */
  lemma FirstBacktick(v: string, tok: string)
    requires |tok| > 0 && tok[0] == '`'
    requires |StripAll(v, tok)| > 0 && StripAll(v, tok)[0] == '`'
    ensures |v| > 0 && v[0] == '`'
  {
    if StartsWith(v, tok) {
      assert v[0] == tok[0];
    }
  }

  /** A text stripped of fences that starts with two backticks came from a text that does. */
  lemma FirstTwoBackticks(u: string)
    requires |StripAll(u, Fence)| >= 2
    requires StripAll(u, Fence)[0] == '`' && StripAll(u, Fence)[1] == '`'
    ensures |u| >= 2 && u[0] == '`' && u[1] == '`'
  {
    if StartsWith(u, Fence) {
      assert u[..3] == Fence;
      assert u[0] == Fence[0] && u[1] == Fence[1];
    } else {
      FirstBacktick(u[1..], Fence);
    }
  }

  /**
   * After the second replacement no three backticks remain: deleting a fence
   * can never join backticks on its two sides into a new fence, because a
   * kept backtick is never directly followed by a fence.
   */
  lemma {:induction false} NoTripleAfterStrip(s: string)
    ensures forall i :: !TripleAt(StripAll(s, Fence), i)
    decreases |s|
  {
    if |s| == 0 {
    } else if StartsWith(s, Fence) {
      var rest := s[|Fence|..];
      if |rest| > 0 && rest[0] == '\n' {
        NoTripleAfterStrip(rest[1..]);
      } else {
        NoTripleAfterStrip(rest);
      }
    } else {
      var tail := StripAll(s[1..], Fence);
      var r := StripAll(s, Fence);
      assert r == [s[0]] + tail;
      NoTripleAfterStrip(s[1..]);
      forall i | TripleAt(r, i)
        ensures false
      {
        if i == 0 {
          FirstTwoBackticks(s[1..]);
        } else {
          assert TripleAt(tail, i - 1);
        }
      }
    }
  }

  /** Trimming text without three backticks in a row leaves no fence. */
  lemma TrimKeepsNoFence(stripped: string)
    requires forall i :: !TripleAt(stripped, i)
    ensures !Contains(Trim(stripped), Fence)
  {
    TrimIsSlice(stripped);
    var i, j :| 0 <= i <= j <= |stripped| && Trim(stripped) == stripped[i..j]
      && AllWhitespace(stripped[..i]) && AllWhitespace(stripped[j..]);
    var c := Trim(stripped);
    forall k | 0 <= k <= |c| && OccursAt(c, Fence, k)
      ensures false
    {
      TripleIsFence(c, k);
      TripleInSlice(stripped, i, j, k);
    }
  }

  lemma TripleInSlice(t: string, i: int, j: int, k: int)
    requires 0 <= i <= j <= |t| && TripleAt(t[i..j], k)
    ensures TripleAt(t, i + k)
  {
  }

  /** Text without backticks passes through a replacement of a backtick token unchanged. */
  lemma {:induction false} StripSkipsPlainText(u: string, w: string, tok: string)
    requires |tok| > 0 && tok[0] == '`'
    requires '`' !in u
    ensures StripAll(u + w, tok) == u + StripAll(w, tok)
    decreases |u|
  {
    if |u| > 0 {
      assert !StartsWith(u + w, tok) by {
        assert (u + w)[0] == u[0];
      }
      assert (u + w)[1..] == u[1..] + w;
      StripSkipsPlainText(u[1..], w, tok);
      assert u == [u[0]] + u[1..];
    } else {
      assert u + w == w;
    }
  }

  /** A reply without any backtick is only trimmed. */
  lemma PlainReplyIsTrimmed(s: string)
    requires '`' !in s
    ensures Cleanup(s) == Trim(s)
  {
    StripSkipsPlainText(s, "", JsonFence);
    StripSkipsPlainText(s, "", Fence);
    assert s + "" == s;
  }

  /**
   * The usual markdown wrapping "```json\n" + body + "\n```" is removed
   * completely when the body has no backtick: what remains is the trimmed body.
   */
  lemma WrappedReplyCleansToBody(body: string)
    requires '`' !in body
    ensures Cleanup("```json\n" + body + "\n```") == Trim(body)
  {
    var s := "```json\n" + body + "\n```";
    var inner := body + "\n" + Fence;
    assert StartsWith(s, JsonFence) by {
      assert s[..7] == JsonFence;
    }
    assert s[|JsonFence|..] == "\n" + inner;
    assert ("\n" + inner)[1..] == inner;
    assert StripAll(s, JsonFence) == StripAll(inner, JsonFence);
    assert '`' !in body + "\n";
    StripSkipsPlainText(body + "\n", Fence, JsonFence);
    ShortFenceKept();
    assert StripAll(inner, JsonFence) == inner;
    StripSkipsPlainText(body + "\n", Fence, Fence);
    FenceRemoved();
    assert StripAll(inner, Fence) == body + "\n" + "";
    assert AllWhitespace("\n");
    TrimAppendWhitespace(body, "\n");
    assert body + "\n" + "" == body + "\n";
  }

  /** "```" alone is too short to hold "```json" and survives the first replacement. */
  lemma ShortFenceKept()
    ensures StripAll(Fence, JsonFence) == Fence
  {
    assert !StartsWith(Fence, JsonFence);
    assert !StartsWith(Fence[1..], JsonFence);
    assert !StartsWith(Fence[2..], JsonFence);
    assert Fence[1..][1..] == Fence[2..];
    assert Fence[2..][1..] == "";
  }

  /** "```" alone is removed entirely by the second replacement. */
  lemma FenceRemoved()
    ensures StripAll(Fence, Fence) == ""
  {
    assert StartsWith(Fence, Fence);
    assert Fence[|Fence|..] == "";
  }
}

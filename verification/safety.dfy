/** The safety agent: asks the model whether the latest journal message shows
    signs of danger, and classifies the reply as unsafe when, trimmed and
    upper-cased, it starts with `UNSAFE`. */
module Safety {
  import opened PyValues
  import opened AgentState
  import opened AsciiText

  /** `response.content.strip().upper().startswith("UNSAFE")` */
  predicate IsUnsafe(content: string) {
    StartsWith(Upper(Strip(content)), "UNSAFE")
  }

  /** An independent reading of the classification: after nothing but
      whitespace, position `k` starts the six letters of UNSAFE in any case. */
  predicate TokenAt(s: string, k: int) {
    && 0 <= k && k + 6 <= |s|
    && (forall i :: 0 <= i < k ==> IsSpace(s[i]))
    && Upper(s[k..k + 6]) == "UNSAFE"
  }

  /** A character that upper-cases to a letter is not whitespace. */
  lemma TokenCharsNotSpace(s: string, k: int, j: int)
    requires TokenAt(s, k) && k <= j < k + 6
    ensures !IsSpace(s[j])
    ensures UpperChar(s[j]) == "UNSAFE"[j - k]
  {
    assert Upper(s[k..k + 6])[j - k] == UpperChar(s[j]);
  }

  /** Everything before a token is whitespace. */
  lemma TokenSpaceBefore(s: string, k: int, i: int)
    requires TokenAt(s, k) && 0 <= i < k
    ensures IsSpace(s[i])
  {
  }

  /** The classification flags exactly the replies that open, after optional
      whitespace, with UNSAFE in any mix of cases. */
  lemma {:induction false} UnsafeIffToken(s: string)
    ensures IsUnsafe(s) <==> exists k :: TokenAt(s, k)
  {
    var r := Strip(s);
    var lo := Leading(s);
    if IsUnsafe(s) {
      assert Upper(s[lo..lo + 6]) == "UNSAFE" by {
        assert s[lo..lo + 6] == r[..6];
        UpperSlice(r, 0, 6);
      }
      assert TokenAt(s, lo);
    }
    if k :| TokenAt(s, k) {
      if k < lo {
        TokenCharsNotSpace(s, k, k);
        assert false;
      }
      if k > lo {
        TokenCharsNotSpace(s, k, k);
        assert false;
      }
      if |r| < 6 {
        TokenCharsNotSpace(s, k, lo + 5);
        assert false;
      }
      assert s[lo..lo + 6] == r[..6];
      UpperSlice(r, 0, 6);
    }
  }

  /** A token survives replacing the string by one that upper-cases alike. */
  lemma {:induction false} TokenSameUpper(s: string, t: string, k: int)
    requires Upper(s) == Upper(t) && TokenAt(s, k)
    ensures TokenAt(t, k)
  {
    forall i | 0 <= i < k ensures IsSpace(t[i]) {
      assert Upper(s)[i] == Upper(t)[i];
      UpperCharKeepsSpace(s[i]);
      UpperCharKeepsSpace(t[i]);
    }
    UpperSlice(s, k, k + 6);
    UpperSlice(t, k, k + 6);
  }

  /** Classification ignores case: strings that upper-case alike are
      classified alike. */
  lemma {:induction false} CaseInsensitive(s1: string, s2: string)
    requires Upper(s1) == Upper(s2)
    ensures IsUnsafe(s1) == IsUnsafe(s2)
  {
    UnsafeIffToken(s1);
    UnsafeIffToken(s2);
    if k :| TokenAt(s1, k) {
      TokenSameUpper(s1, s2, k);
    }
    if k :| TokenAt(s2, k) {
      TokenSameUpper(s2, s1, k);
    }
  }

  /** Leading whitespace shifts the token without changing whether there is one. */
  lemma {:induction false} TokenAfterSpace(ws: string, s: string)
    requires forall i :: 0 <= i < |ws| ==> IsSpace(ws[i])
    ensures (exists k :: TokenAt(ws + s, k)) <==> (exists k :: TokenAt(s, k))
  {
    if k :| TokenAt(s, k) {
      assert (ws + s)[|ws| + k..|ws| + k + 6] == s[k..k + 6];
      assert TokenAt(ws + s, |ws| + k);
    }
    if j :| TokenAt(ws + s, j) {
      if j < |ws| {
        TokenCharsNotSpace(ws + s, j, j);
        assert false;
      }
      forall i | 0 <= i < j - |ws| ensures IsSpace(s[i]) {
        assert (ws + s)[|ws| + i] == s[i];
      }
      assert (ws + s)[j..j + 6] == s[j - |ws|..j - |ws| + 6];
      assert TokenAt(s, j - |ws|);
    }
  }

  /** Classification ignores leading whitespace. */
  lemma {:induction false} LeadingSpaceIgnored(ws: string, s: string)
    requires forall i :: 0 <= i < |ws| ==> IsSpace(ws[i])
    ensures IsUnsafe(ws + s) == IsUnsafe(s)
  {
    UnsafeIffToken(s);
    UnsafeIffToken(ws + s);
    TokenAfterSpace(ws, s);
  }

  /** Once a token position is fixed by a non-whitespace character, text
      appended after the first six characters past it cannot move it. */
  lemma {:induction false} TokenBeforeSuffix(s: string, t: string, lo: nat)
    requires lo + 6 <= |s| && !IsSpace(s[lo])
    requires forall i :: 0 <= i < lo ==> IsSpace(s[i])
    ensures (exists k :: TokenAt(s + t, k)) <==> (exists k :: TokenAt(s, k))
  {
    if k :| TokenAt(s, k) {
      assert (s + t)[k..k + 6] == s[k..k + 6];
      assert TokenAt(s + t, k);
    }
    if j :| TokenAt(s + t, j) {
      if j < lo {
        TokenCharsNotSpace(s + t, j, j);
        assert false;
      }
      if j > lo {
        TokenSpaceBefore(s + t, j, lo);
        assert false;
      }
      assert (s + t)[j..j + 6] == s[j..j + 6];
      assert TokenAt(s, j);
    }
  }

  /** Only the first six non-whitespace characters count: once the reply has
      that many after its leading whitespace, whatever follows does not change
      the verdict. */
  lemma {:induction false} OnlyPrefixCounts(s: string, t: string)
    requires |s| - Leading(s) >= 6
    ensures IsUnsafe(s + t) == IsUnsafe(s)
  {
    var lo := Leading(s);
    assert !IsSpace(s[lo]) by {
      assert LStrip(s)[0] == s[lo];
    }
    UnsafeIffToken(s);
    UnsafeIffToken(s + t);
    TokenBeforeSuffix(s, t, lo);
  }

  /** A reply that opens with lower-case unsafe after two spaces is flagged. */
  lemma LowerCaseAfterSpacesFlagged()
    ensures IsUnsafe("  unsafe: x")
  {
    var a := "  unsafe: x";
    assert TokenAt(a, 2) by {
      assert a[2..8] == "unsafe";
    }
    UnsafeIffToken(a);
  }

  /** A reply in the requested UNSAFE format is flagged. */
  lemma UnsafeReplyFlagged()
    ensures IsUnsafe("UNSAFE: mentions self-harm")
  {
    var b := "UNSAFE: mentions self-harm";
    assert TokenAt(b, 0) by {
      assert b[0..6] == "UNSAFE";
    }
    UnsafeIffToken(b);
  }

  /** Replies in the requested SAFE format are not flagged. */
  lemma SafeRepliesNotFlagged()
    ensures !IsUnsafe("SAFE: x")
    ensures !IsUnsafe("SAFE: describes a stressful day")
  {
    NoTokenAtSafeReply("SAFE: x");
    NoTokenAtSafeReply("SAFE: describes a stressful day");
  }

  /** A reply that starts with the letters SAFE carries no UNSAFE token. */
  lemma NoTokenAtSafeReply(s: string)
    requires |s| >= 4 && s[..4] == "SAFE"
    ensures !IsUnsafe(s)
  {
    UnsafeIffToken(s);
    assert s[0] == 'S';
    if k :| TokenAt(s, k) {
      TokenCharsNotSpace(s, k, k);
      assert false;
    }
  }

  /** `safety_agent(state)`: ask the model about `state["messages"][-1]` once;
      the returned dict holds the flag, the raw reply text and the extended
      message list, and no `safety_check` key. */
  function SafetyAgent(state: State, llm: Oracle): (run: Run<State>)
    ensures "messages" !in state ==> run == Run([], Err(KeyError("messages")))
    ensures "messages" in state && state["messages"] == List([]) ==> run == Run([], Err(IndexError))
    ensures run.calls == [] <==> LastMessage(state).Err?
    ensures run.calls != [] ==> run.calls == [AgentPrompt(SafetyCheck, LastMessage(state).value)]
    ensures run.result.Ok? <==> HasMessages(state)
    ensures run.result.Ok? ==>
              var reply := llm(AgentPrompt(SafetyCheck, LastOf(state)));
              var out := run.result.value;
              && out.Keys == {"safety_flag", "safety_notes", "messages"}
              && "safety_check" !in out
              && out["safety_flag"] == Bool(IsUnsafe(reply))
              && out["safety_notes"] == Str(reply)
              && out["messages"] == List(state["messages"].items + [AIMessage(reply)])
  {
    var run := Exchange(state, llm, SafetyCheck, LastMessage(state));
    if run.result.Err? then Run(run.calls, Err(run.result.error))
    else
      var reply := run.result.value;
      if IsUnsafe(reply.content) then
        Run(run.calls, Ok(map["safety_flag" := Bool(true),
                               "safety_notes" := Str(reply.content),
                               "messages" := reply.messages]))
      else
        Run(run.calls, Ok(map["safety_flag" := Bool(false),
                               "safety_notes" := Str(reply.content),
                               "messages" := reply.messages]))
  }
}

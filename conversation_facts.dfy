/**
 * What the conversation history promises across submissions: the system turn
 * stays first and alone, the length stays bounded, each submission adds its
 * turns at the end, and after any run the history is the system turn followed
 * by the most recent turns of the whole transcript.
 */
module ConversationFacts {
  import opened Text
  import opened Conversation

  /** Every submission in the run has a non-blank message and a successful response. */
  predicate AllSucceed(subs: seq<Submission>) {
    forall i :: 0 <= i < |subs| ==> Trim(subs[i].text) != [] && ReplyText(subs[i].outcome).Some?
  }

  /** Trimming a history that is already short enough changes nothing. */
  lemma TrimHistoryIdempotent(h: seq<Turn>)
    ensures TrimHistory(TrimHistory(h)) == TrimHistory(h)
  {
  }

  /**
   * The user push and trim: the system turn stays first and alone, the list
   * holds at most 21 turns, and the last one is the new user turn.
   */
  lemma AfterUserTurnShape(h: seq<Turn>, message: string)
    requires WellFormed(h)
    ensures var r := AfterUserTurn(h, message);
      WellFormed(r) && r[0] == h[0] && 2 <= |r| <= MaxHistory && r[|r| - 1] == Turn(User, message)
  {
    var p := h + [Turn(User, message)];
    var r := AfterUserTurn(h, message);
    if |p| > MaxHistory {
      var tail := p[|p| - KeptMessages..];
      assert r == [p[0]] + tail;
      assert r[|r| - 1] == tail[|tail| - 1] == p[|p| - 1];
      forall k | 1 <= k < |r| ensures r[k].role != System {
        assert r[k] == tail[k - 1] == p[|p| - KeptMessages + k - 1];
      }
    } else {
      assert r == p;
      forall k | 1 <= k < |r| ensures r[k].role != System {
        if k < |h| { assert r[k] == h[k]; }
      }
    }
  }

  /** What a submission with a non-blank message and a usable reply does, spelt out. */
  lemma StepOnReply(h: seq<Turn>, s: Submission)
    requires Trim(s.text) != [] && ReplyText(s.outcome).Some?
    ensures var u, a := Turn(User, Trim(s.text)), Turn(Assistant, ReplyText(s.outcome).value);
      Step(h, s) == AfterUserTurn(h, Trim(s.text)) + [a] && NewTurns(s) == [u, a]
  {
  }

  /** What a submission with a non-blank message and a failed request does, spelt out. */
  lemma StepOnFailure(h: seq<Turn>, s: Submission)
    requires Trim(s.text) != [] && ReplyText(s.outcome).None?
    ensures Step(h, s) == AfterUserTurn(h, Trim(s.text)) && NewTurns(s) == [Turn(User, Trim(s.text))]
  {
  }

  /** What a blank submission does, spelt out. */
  lemma StepOnBlank(h: seq<Turn>, s: Submission)
    requires Trim(s.text) == []
    ensures Step(h, s) == h && NewTurns(s) == []
  {
  }

  /** A submission that gets a reply ends the history with its user and assistant turns, and leaves at most 22. */
  lemma ReplyStepShape(h: seq<Turn>, s: Submission)
    requires WellFormed(h) && Trim(s.text) != [] && ReplyText(s.outcome).Some?
    ensures var r := Step(h, s);
      WellFormed(r) && r[0] == h[0] && |r| <= MaxHistory + 1 && r[|r| - 2..] == NewTurns(s)
  {
    var message := Trim(s.text);
    var q := AfterUserTurn(h, message);
    var a := Turn(Assistant, ReplyText(s.outcome).value);
    AfterUserTurnShape(h, message);
    StepOnReply(h, s);
    var r := q + [a];
    assert r[|r| - 2..] == [q[|q| - 1], a];
    assert forall k :: 1 <= k < |r| ==> r[k].role != System by {
      forall k | 1 <= k < |r| ensures r[k].role != System {
        if k < |q| { assert r[k] == q[k]; }
      }
    }
  }

  /** A submission whose request fails ends the history with its user turn, and leaves at most 21. */
  lemma FailureStepShape(h: seq<Turn>, s: Submission)
    requires WellFormed(h) && Trim(s.text) != [] && ReplyText(s.outcome).None?
    ensures var r := Step(h, s);
      WellFormed(r) && r[0] == h[0] && |r| <= MaxHistory && r[|r| - 1..] == NewTurns(s)
  {
    var q := AfterUserTurn(h, Trim(s.text));
    AfterUserTurnShape(h, Trim(s.text));
    StepOnFailure(h, s);
    assert q[|q| - 1..] == [q[|q| - 1]];
  }

  /**
   * One submission keeps the history well formed with the same first turn and
   * at most 22 turns (21 after a failure). A blank message changes nothing;
   * otherwise the history ends with exactly the turns the submission adds.
   */
  lemma StepPreservesShape(h: seq<Turn>, s: Submission)
    requires WellFormed(h) && |h| <= MaxHistory + 1
    ensures var r := Step(h, s);
      WellFormed(r) && r[0] == h[0] && |r| <= MaxHistory + 1 &&
      (Trim(s.text) == [] ==> r == h) &&
      (Trim(s.text) != [] ==> |NewTurns(s)| <= |r| && r[|r| - |NewTurns(s)|..] == NewTurns(s)) &&
      (ReplyText(s.outcome).None? && |h| <= MaxHistory ==> |r| <= MaxHistory)
  {
    if Trim(s.text) == [] {
      StepOnBlank(h, s);
    } else if ReplyText(s.outcome).Some? {
      ReplyStepShape(h, s);
      StepOnReply(h, s);
    } else {
      FailureStepShape(h, s);
      StepOnFailure(h, s);
    }
  }

  /** Across any run of submissions the history stays well formed, keeps its first turn and holds at most 22 turns. */
  lemma {:induction false} ReplayInvariant(h: seq<Turn>, subs: seq<Submission>)
    requires WellFormed(h) && |h| <= MaxHistory + 1
    ensures var r := Replay(h, subs); WellFormed(r) && r[0] == h[0] && |r| <= MaxHistory + 1
    decreases |subs|
  {
    if subs != [] {
      ReplayInvariant(h, subs[..|subs| - 1]);
      StepPreservesShape(Replay(h, subs[..|subs| - 1]), subs[|subs| - 1]);
    }
  }

  /** The most recent `n` elements of `s`. */
  function Recent(s: seq<Turn>, n: nat): (r: seq<Turn>)
    requires n <= |s|
    ensures |r| == n
  {
    s[|s| - n..]
  }

  /** Appending to a suffix gives a suffix of the appended sequence. */
  lemma RecentAppend(s: seq<Turn>, n: nat, x: seq<Turn>)
    requires n <= |s|
    ensures Recent(s, n) + x == Recent(s + x, n + |x|)
  {
    assert (s + x)[|s| - n..] == s[|s| - n..] + x;
  }

  /** Taking the most recent `m` of the most recent `n` is taking the most recent `m`. */
  lemma RecentRecent(s: seq<Turn>, n: nat, m: nat)
    requires m <= n <= |s|
    ensures Recent(Recent(s, n), m) == Recent(s, m)
  {
  }

  /**
   * The user push and trim on a history made of a first turn and the `n` most
   * recent transcript turns: the first turn and the most recent turns of the
   * transcript with the user turn added, 20 of them once the trim fires.
   */
  lemma PushKeepsRecent(first: Turn, t: seq<Turn>, n: nat, u: Turn)
    requires n <= |t| && n <= MaxHistory && (n == |t| || n >= KeptMessages)
    ensures var k := if n + 2 > MaxHistory then KeptMessages else n + 1;
      k <= |t| + 1 && TrimHistory([first] + Recent(t, n) + [u]) == [first] + Recent(t + [u], k)
  {
    var p := [first] + Recent(t, n) + [u];
    assert p == [first] + Recent(t + [u], n + 1) by { RecentAppend(t, n, [u]); }
    if |p| > MaxHistory {
      assert TrimHistory(p) == [p[0]] + p[|p| - KeptMessages..];
      RecentRecent(t + [u], n + 1, KeptMessages);
      assert p[|p| - KeptMessages..] == Recent(Recent(t + [u], n + 1), KeptMessages);
    } else {
      assert TrimHistory(p) == p;
    }
  }

  /** `StepKeepsRecent` for a submission that gets a reply: 21 turns are kept once the trim has fired. */
  lemma ReplyKeepsRecent(first: Turn, t: seq<Turn>, n: nat, s: Submission)
    requires n <= |t| && n <= MaxHistory && (n == |t| || n >= KeptMessages)
    requires Trim(s.text) != [] && ReplyText(s.outcome).Some?
    ensures var added := NewTurns(s); var m := Min(|t| + |added|, MaxHistory);
      m <= |t + added| && Step([first] + Recent(t, n), s) == [first] + Recent(t + added, m)
  {
    var h := [first] + Recent(t, n);
    var u, a := Turn(User, Trim(s.text)), Turn(Assistant, ReplyText(s.outcome).value);
    StepOnReply(h, s);
    PushKeepsRecent(first, t, n, u);
    var k := if n + 2 > MaxHistory then KeptMessages else n + 1;
    assert AfterUserTurn(h, Trim(s.text)) == [first] + Recent(t + [u], k);
    RecentAppend(t + [u], k, [a]);
    assert t + [u] + [a] == t + NewTurns(s);
    assert k + 1 == Min(|t| + 2, MaxHistory);
    calc {
      Step(h, s);
      AfterUserTurn(h, Trim(s.text)) + [a];
      [first] + Recent(t + [u], k) + [a];
      [first] + (Recent(t + [u], k) + [a]);
      [first] + Recent(t + [u] + [a], k + 1);
      [first] + Recent(t + NewTurns(s), Min(|t| + |NewTurns(s)|, MaxHistory));
    }
  }

  /** `StepKeepsRecent` for a submission whose request fails: 20 turns are kept once the trim has fired. */
  lemma FailureKeepsRecent(first: Turn, t: seq<Turn>, n: nat, s: Submission)
    requires n <= |t| && n <= MaxHistory && (n == |t| || n >= KeptMessages)
    requires Trim(s.text) != [] && ReplyText(s.outcome).None?
    ensures var added := NewTurns(s); var m := Min(|t| + |added|, KeptMessages);
      m <= |t + added| && Step([first] + Recent(t, n), s) == [first] + Recent(t + added, m)
  {
    PushKeepsRecent(first, t, n, Turn(User, Trim(s.text)));
    StepOnFailure([first] + Recent(t, n), s);
  }

  /**
   * One submission on a history made of a first turn and the `n` most recent
   * transcript turns: the history afterwards is the first turn and the most
   * recent turns of the longer transcript, as many as `Kept` counts.
   */
  lemma StepKeepsRecent(first: Turn, t: seq<Turn>, n: nat, s: Submission)
    requires n <= |t| && n <= MaxHistory && (n == |t| || n >= KeptMessages)
    ensures var added := NewTurns(s);
      var m := if added == [] then n
               else Min(|t| + |added|, if ReplyText(s.outcome).Some? then MaxHistory else KeptMessages);
      m <= |t + added| && Step([first] + Recent(t, n), s) == [first] + Recent(t + added, m)
  {
    if Trim(s.text) == [] {
      StepOnBlank([first] + Recent(t, n), s);
      assert t + [] == t;
    } else if ReplyText(s.outcome).Some? {
      ReplyKeepsRecent(first, t, n, s);
      StepOnReply([first] + Recent(t, n), s);
    } else {
      FailureKeepsRecent(first, t, n, s);
      StepOnFailure([first] + Recent(t, n), s);
    }
  }

  /**
   * After any run, starting from the single system turn, the history is that
   * turn followed by the `Kept(subs)` most recent turns of the transcript;
   * fewer than 20 are kept only while nothing has been dropped.
   */
  lemma {:induction false} ReplayKeepsRecentTurns(first: Turn, subs: seq<Submission>)
    ensures Kept(subs) <= |Transcript(subs)| && Kept(subs) <= MaxHistory
    ensures Kept(subs) == |Transcript(subs)| || Kept(subs) >= KeptMessages
    ensures Replay([first], subs) == [first] + Recent(Transcript(subs), Kept(subs))
    decreases |subs|
  {
    if subs != [] {
      var init, last := subs[..|subs| - 1], subs[|subs| - 1];
      ReplayKeepsRecentTurns(first, init);
      StepKeepsRecent(first, Transcript(init), Kept(init), last);
    }
  }

  /** In a run where every submission succeeds, the transcript alternates user and assistant turns, one pair per submission. */
  lemma {:induction false} SuccessfulTranscript(subs: seq<Submission>)
    requires AllSucceed(subs)
    ensures |Transcript(subs)| == 2 * |subs|
    ensures forall k :: 0 <= k < |subs| ==>
      Transcript(subs)[2 * k] == Turn(User, Trim(subs[k].text)) &&
      Transcript(subs)[2 * k + 1] == Turn(Assistant, ReplyText(subs[k].outcome).value)
    decreases |subs|
  {
    if subs != [] {
      var init, last := subs[..|subs| - 1], subs[|subs| - 1];
      assert AllSucceed(init) by {
        forall i | 0 <= i < |init| ensures Trim(init[i].text) != [] && ReplyText(init[i].outcome).Some? {
          assert init[i] == subs[i];
        }
      }
      SuccessfulTranscript(init);
      var t := Transcript(init);
      assert Trim(last.text) != [] && ReplyText(last.outcome).Some?;
      StepOnReply([], last);
      var u, a := Turn(User, Trim(last.text)), Turn(Assistant, ReplyText(last.outcome).value);
      var t' := Transcript(subs);
      assert t' == t + [u, a];
      forall k | 0 <= k < |subs|
        ensures t'[2 * k] == Turn(User, Trim(subs[k].text))
        ensures t'[2 * k + 1] == Turn(Assistant, ReplyText(subs[k].outcome).value)
      {
        if k < |init| {
          assert subs[k] == init[k];
          assert t'[2 * k] == t[2 * k] && t'[2 * k + 1] == t[2 * k + 1];
        }
      }
    }
  }

  /**
   * Once eleven or more exchanges have succeeded in a row from the start, the
   * history holds 22 turns, and the turn right after the system turn is the
   * assistant reply of the eleventh-newest exchange, not a user turn.
   */
  lemma LongSuccessfulRun(first: Turn, subs: seq<Submission>)
    requires AllSucceed(subs) && |subs| >= 11
    ensures |Replay([first], subs)| == MaxHistory + 1
    ensures Replay([first], subs)[0] == first
    ensures Replay([first], subs)[1] == Turn(Assistant, ReplyText(subs[|subs| - 11].outcome).value)
  {
    ReplayKeepsRecentTurns(first, subs);
    SuccessfulTranscript(subs);
    var t := Transcript(subs);
    assert NewTurns(subs[|subs| - 1]) != [];
    assert Kept(subs) == MaxHistory;
    var k := |subs| - 11;
    assert Recent(t, MaxHistory)[0] == t[2 * k + 1];
  }

  /** While at most ten exchanges have been made from the start, nothing has been dropped. */
  lemma ShortRunKeepsEverything(first: Turn, subs: seq<Submission>)
    requires |subs| <= 10
    ensures Replay([first], subs) == [first] + Transcript(subs)
  {
    ReplayKeepsRecentTurns(first, subs);
    TranscriptLength(subs);
  }

  /** Each submission adds at most two turns to the transcript. */
  lemma {:induction false} TranscriptLength(subs: seq<Submission>)
    ensures |Transcript(subs)| <= 2 * |subs|
    decreases |subs|
  {
    if subs != [] {
      TranscriptLength(subs[..|subs| - 1]);
    }
  }

  /** A reply to "hello" is stored after it, trimmed of surrounding white space. */
  lemma HelloScenario(prompt: string)
    ensures Replay([Turn(System, prompt)], [Submission("hello", Response(200, Some(" Meow!\n")))])
         == [Turn(System, prompt), Turn(User, "hello"), Turn(Assistant, "Meow!")]
  {
    var s := Submission("hello", Response(200, Some(" Meow!\n")));
    assert Trim("hello") == "hello";
    assert " Meow!\n"[1..] == "Meow!\n" && "Meow!\n"[..5] == "Meow!";
    assert Trim(" Meow!\n") == "Meow!";
    StepOnReply([Turn(System, prompt)], s);
    assert [s][..0] == [];
  }

  /** A 500 response leaves only the user turn behind; the message is stored trimmed. */
  lemma ServerErrorScenario(prompt: string)
    ensures Replay([Turn(System, prompt)], [Submission("  hi ", Response(500, None))])
         == [Turn(System, prompt), Turn(User, "hi")]
  {
    var s := Submission("  hi ", Response(500, None));
    assert "  hi "[1..] == " hi " && " hi "[1..] == "hi " && "hi "[..2] == "hi";
    assert Trim("  hi ") == "hi";
    StepOnFailure([Turn(System, prompt)], s);
    assert [s][..0] == [];
  }

  /** A blank submission is ignored. */
  lemma BlankScenario(prompt: string)
    ensures Replay([Turn(System, prompt)], [Submission(" \t\n", NetworkError)]) == [Turn(System, prompt)]
  {
    var s := Submission(" \t\n", NetworkError);
    assert " \t\n"[1..] == "\t\n" && "\t\n"[1..] == "\n" && "\n"[1..] == "";
    assert Trim(s.text) == [];
    StepOnBlank([Turn(System, prompt)], s);
    assert [s][..0] == [];
  }
}

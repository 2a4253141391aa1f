/** Properties of the session controller over sequences of events: how
    answers are captured, what gets scored, and how a full run through the
    questions reaches the results exactly once. */
module SessionRuns {
  import opened Optional
  import opened JsText
  import opened QuestionBank
  import opened Scoring
  import opened Session

  /** The current question is open for answering: no feedback on display and
      nothing being scored. */
  predicate Answering(s: SessionState) {
    s.feedback.None? && !s.Submitting()
  }

  /** `after` is `before` with `script` written over the entries from index
      `from` on. */
  predicate FilledIn(before: seq<string>, from: nat, script: seq<string>, after: seq<string>) {
    && |after| == |before|
    && forall k :: 0 <= k < |before| ==>
         after[k] == (if from <= k < from + |script| then script[k - from] else before[k])
  }

  /** Every feedback is the fresh assessment of the answer at the same index. */
  predicate FreshlyAssessed(h: Handoff) {
    && |h.feedbacks| == |h.answers|
    && forall k :: 0 <= k < |h.answers| ==> h.feedbacks[k] == Assess(h.answers[k])
  }

  /** One question answered the ordinary way: type the answer, submit it, let
      scoring finish, continue. */
  function Round(s: SessionState, answer: string): (r: Result<Step, SessionError>)
    requires Valid(s)
    ensures r.Success? && r.value.Next? ==> Valid(r.value.state)
  {
    var typed :- Edit(s, answer);
    var sent :- Submit(typed);
    Continue(CompleteSubmit(sent).value)
  }

  /** An ordinary round reaches continue with dictation already stopped by
      submit, so the screen's own continue takes the same step as the
      corrected one: every run of rounds is the same under both. */
  lemma RoundContinuesAsWritten(s: SessionState, answer: string)
    requires Valid(s)
    ensures Round(s, answer).Success? ==>
      && Edit(s, answer).Success?
      && Submit(Edit(s, answer).value).Success?
      && var scored := CompleteSubmit(Submit(Edit(s, answer).value).value).value;
      && !scored.recording
      && ContinueAsWritten(scored) == Round(s, answer)
  {
  }

  /** Answers the questions from the current one on with `script`, one round
      per answer; a round after the session has completed is refused. */
  function Run(s: SessionState, script: seq<string>): Result<Step, SessionError>
    requires Valid(s)
    decreases |script|
  {
    if script == [] then Success(Next(s))
    else
      match Round(s, script[0])
      case Failure(e) => Failure(e)
      case Success(Finished(h)) => if |script| == 1 then Success(Finished(h)) else Failure(SessionOver)
      case Success(Next(t)) => Run(t, script[1..])
  }

  /** Typing overwrites: of two successive edits only the second one counts. */
  lemma EditLastWins(s: SessionState, first: string, second: string)
    requires Valid(s) && s.feedback.None?
    ensures Edit(Edit(s, first).value, second) == Edit(s, second)
  {
    assert s.answers[s.index := first][s.index := second] == s.answers[s.index := second];
  }

  /** Transcripts replace rather than append: after two deliveries the answer
      is the second transcript, whatever the first one was. */
  lemma TranscriptReplaces(s: SessionState, first: string, second: string)
    requires Valid(s) && s.listening
    ensures Transcript(Transcript(s, first).value, second) == Transcript(s, second)
    ensures Transcript(s, second).value.answers[s.index] == second
  {
    assert s.answers[s.index := first][s.index := second] == s.answers[s.index := second];
  }

  /** Restarting dictation on the same question drops what was there before:
      right after the restart the answer is empty, and after the first
      transcript it is exactly that transcript. */
  lemma DictationRestartClears(s: SessionState, transcript: string)
    requires Valid(s) && s.dictationAvailable && s.feedback.None? && s.recording
    ensures var stopped := ToggleDictation(s).value;
      && stopped.answers == s.answers
      && var restarted := ToggleDictation(stopped).value;
      && restarted.answers[s.index] == ""
      && Transcript(restarted, transcript).value.answers[s.index] == transcript
  {
  }

  /** An answer made only of white space (or no characters at all) cannot be
      submitted; the session stays where it was. */
  lemma WhitespaceAnswerIsRejected(s: SessionState)
    requires Valid(s) && Answering(s)
    requires forall k :: 0 <= k < |s.answers[s.index]| ==> IsJsWhitespace(s.answers[s.index][k])
    ensures Submit(s) == Failure(EmptyAnswer)
  {
    BlankIffAllWhitespace(s.answers[s.index]);
  }

  /** While an answer is being scored it cannot be submitted again. */
  lemma NoSecondSubmitInFlight(s: SessionState)
    requires Valid(s) && Answering(s) && !IsBlank(s.answers[s.index])
    ensures Submit(Submit(s).value) == Failure(AlreadySubmitting)
  {
  }

  /** The feedback shown is the assessment of the answer as it was when
      submit was pressed, even if the answer box is edited while scoring is
      in flight. */
  lemma ScoringUsesSubmittedText(s: SessionState, laterEdit: string)
    requires Valid(s) && Answering(s) && !IsBlank(s.answers[s.index])
    ensures var sent := Submit(s).value;
      && CompleteSubmit(sent).value.feedback == Some(Assess(s.answers[s.index]))
      && CompleteSubmit(Edit(sent, laterEdit).value).value.feedback == Some(Assess(s.answers[s.index]))
  {
  }

  /** One ordinary round with a non-blank answer always succeeds and writes
      exactly the current answer. It opens the next question or, after the
      last one, completes the session handing over every answer freshly
      assessed. */
  lemma RoundAnswersOneQuestion(s: SessionState, answer: string)
    requires Valid(s) && Answering(s) && !IsBlank(answer)
    ensures Round(s, answer).Success?
    ensures Round(s, answer).value.Next? <==> s.index < |s.questions| - 1
    ensures Round(s, answer).value.Next? ==>
      var t := Round(s, answer).value.state;
      && Valid(t) && Answering(t)
      && t.index == s.index + 1
      && t.questions == s.questions
      && FilledIn(s.answers, s.index, [answer], t.answers)
    ensures Round(s, answer).value.Finished? ==>
      var h := Round(s, answer).value.handoff;
      && h.questions == s.questions
      && FilledIn(s.answers, s.index, [answer], h.answers)
      && FreshlyAssessed(h)
  {
    var typed := Edit(s, answer).value;
    var sent := Submit(typed).value;
    var scored := CompleteSubmit(sent).value;
    assert Round(s, answer) == Continue(scored);
  }

  /** Every answer in the script is non-blank. */
  predicate AllNonBlank(script: seq<string>) {
    forall k :: 0 <= k < |script| ==> !IsBlank(script[k])
  }

  lemma AllNonBlankTail(script: seq<string>)
    requires script != [] && AllNonBlank(script)
    ensures AllNonBlank(script[1..])
  {
    forall k | 0 <= k < |script[1..]| ensures !IsBlank(script[1..][k]) {
      assert script[1..][k] == script[k + 1];
    }
  }

  /** Writing one answer and then the rest of a script is writing the whole
      script. */
  lemma FilledInCompose(before: seq<string>, from: nat, x: string, mid: seq<string>,
                        rest: seq<string>, after: seq<string>)
    requires FilledIn(before, from, [x], mid) && FilledIn(mid, from + 1, rest, after)
    ensures FilledIn(before, from, [x] + rest, after)
  {
    var script := [x] + rest;
    forall k | 0 <= k < |before|
      ensures after[k] == (if from <= k < from + |script| then script[k - from] else before[k])
    {
      if from + 1 <= k < from + 1 + |rest| {
        assert script[k - from] == rest[k - (from + 1)];
      }
    }
  }

  /** Writing a script as long as the whole answer list from the start
      replaces every answer. */
  lemma FilledInWhole(before: seq<string>, script: seq<string>, after: seq<string>)
    requires |script| == |before| && FilledIn(before, 0, script, after)
    ensures after == script
  {
    forall k | 0 <= k < |script| ensures after[k] == script[k] {
    }
  }

  /** `r` leaves the session open, `|script|` questions on from `s`, with
      the script written over the answers from the current one on. */
  predicate OpenAfter(s: SessionState, script: seq<string>, r: Result<Step, SessionError>) {
    && r.Success? && r.value.Next?
    && Valid(r.value.state) && Answering(r.value.state)
    && r.value.state.index == s.index + |script|
    && r.value.state.questions == s.questions
    && FilledIn(s.answers, s.index, script, r.value.state.answers)
  }

  /** `r` completes the session begun as `s`, handing over its questions and
      the answers with the script written from the current one on, all
      freshly assessed. */
  predicate CompletedAfter(s: SessionState, script: seq<string>, r: Result<Step, SessionError>) {
    && r.Success? && r.value.Finished?
    && r.value.handoff.questions == s.questions
    && FilledIn(s.answers, s.index, script, r.value.handoff.answers)
    && FreshlyAssessed(r.value.handoff)
  }

  /** A round that opens question `t`, followed by steps that leave the
      session open, leaves it open. */
  lemma OpenCompose(s: SessionState, x: string, rest: seq<string>, t: SessionState,
                    r: Result<Step, SessionError>)
    requires OpenAfter(s, [x], Success(Next(t))) && OpenAfter(t, rest, r)
    ensures OpenAfter(s, [x] + rest, r)
  {
    FilledInCompose(s.answers, s.index, x, t.answers, rest, r.value.state.answers);
  }

  /** A round that opens question `t`, followed by steps that complete the
      session, complete it. */
  lemma CompletedCompose(s: SessionState, x: string, rest: seq<string>, t: SessionState,
                         r: Result<Step, SessionError>)
    requires OpenAfter(s, [x], Success(Next(t))) && CompletedAfter(t, rest, r)
    ensures CompletedAfter(s, [x] + rest, r)
  {
    FilledInCompose(s.answers, s.index, x, t.answers, rest, r.value.handoff.answers);
  }

  /** Before the last question, a run is one round, which opens the next
      question `t`, followed by a run over the rest of the script from `t`. */
  lemma NextRound(s: SessionState, script: seq<string>) returns (t: SessionState)
    requires Valid(s) && Answering(s) && script != [] && !IsBlank(script[0])
    requires s.index < |s.questions| - 1
    ensures OpenAfter(s, [script[0]], Success(Next(t)))
    ensures Run(s, script) == Run(t, script[1..])
  {
    RoundAnswersOneQuestion(s, script[0]);
    t := Round(s, script[0]).value.state;
  }

  /** Fewer rounds than questions left leave the session open on the question
      after the last one answered, with the script written in order. */
  lemma {:induction false} RunStaysOpen(s: SessionState, script: seq<string>)
    requires Valid(s) && Answering(s) && AllNonBlank(script)
    requires s.index + |script| < |s.questions|
    ensures OpenAfter(s, script, Run(s, script))
    decreases |script|
  {
    if script != [] {
      var t := NextRound(s, script);
      AllNonBlankTail(script);
      RunStaysOpen(t, script[1..]);
      OpenCompose(s, script[0], script[1..], t, Run(t, script[1..]));
      assert [script[0]] + script[1..] == script;
    }
  }

  /** Exactly as many rounds as questions left complete the session, handing
      over the answers with the script written in order, all freshly
      assessed. */
  lemma {:induction false} RunCompletes(s: SessionState, script: seq<string>)
    requires Valid(s) && Answering(s) && AllNonBlank(script)
    requires s.index + |script| == |s.questions|
    ensures CompletedAfter(s, script, Run(s, script))
    decreases |script|
  {
    if |script| == 1 {
      RoundAnswersOneQuestion(s, script[0]);
      assert script == [script[0]];
    } else {
      var t := NextRound(s, script);
      AllNonBlankTail(script);
      RunCompletes(t, script[1..]);
      CompletedCompose(s, script[0], script[1..], t, Run(t, script[1..]));
      assert [script[0]] + script[1..] == script;
    }
  }

  /** More rounds than questions left are refused: the round after the one
      that completes the session finds it over. */
  lemma {:induction false} RunOverflows(s: SessionState, script: seq<string>)
    requires Valid(s) && Answering(s) && AllNonBlank(script)
    requires s.index + |script| > |s.questions|
    ensures Run(s, script) == Failure(SessionOver)
    decreases |script|
  {
    if s.index < |s.questions| - 1 {
      var t := NextRound(s, script);
      AllNonBlankTail(script);
      RunOverflows(t, script[1..]);
    } else {
      RoundAnswersOneQuestion(s, script[0]);
    }
  }

  /** A session on its first question, open for answering. */
  predicate Fresh(s: SessionState) {
    Valid(s) && s.index == 0 && Answering(s)
  }

  /** A fresh session answered with as many non-blank answers as it has
      questions completes, handing over exactly those answers, each freshly
      assessed. */
  lemma FreshRunCompletes(s: SessionState, script: seq<string>)
    requires Fresh(s) && |script| == |s.questions| && AllNonBlank(script)
    ensures Run(s, script).Success? && Run(s, script).value.Finished?
    ensures Run(s, script).value.handoff.answers == script
    ensures FreshlyAssessed(Run(s, script).value.handoff)
  {
    RunCompletes(s, script);
    FilledInWhole(s.answers, script, Run(s, script).value.handoff.answers);
  }

  /** A session opened for any role stays on question n after n rounds, for
      every n below the number of questions. */
  lemma FewerRoundsLeaveTheSessionOpen(role: Option<string>, dictation: bool, script: seq<string>, n: nat)
    requires |script| == QuestionCount
    requires AllNonBlank(script)
    requires n < |script|
    ensures Run(Start(role, dictation), script[..n]).Success?
    ensures Run(Start(role, dictation), script[..n]).value.Next?
    ensures Run(Start(role, dictation), script[..n]).value.state.index == n
  {
    assert AllNonBlank(script[..n]) by {
      forall k | 0 <= k < n ensures !IsBlank(script[..n][k]) {
        assert script[..n][k] == script[k];
      }
    }
    RunStaysOpen(Start(role, dictation), script[..n]);
  }

  /** A session opened for any role and answered with five non-blank answers
      completes on the fifth round, handing over exactly those answers, each
      freshly assessed. */
  lemma FiveRoundsCompleteTheInterview(role: Option<string>, dictation: bool, script: seq<string>)
    requires |script| == QuestionCount
    requires AllNonBlank(script)
    ensures Run(Start(role, dictation), script).Success?
    ensures Run(Start(role, dictation), script).value.Finished?
    ensures Run(Start(role, dictation), script).value.handoff.answers == script
    ensures FreshlyAssessed(Run(Start(role, dictation), script).value.handoff)
  {
    FreshRunCompletes(Start(role, dictation), script);
  }

  /** Once the fifth round has completed the session, a sixth is refused. */
  lemma NoRoundAfterCompletion(role: Option<string>, dictation: bool, script: seq<string>)
    requires |script| == QuestionCount + 1
    requires AllNonBlank(script)
    ensures Run(Start(role, dictation), script) == Failure(SessionOver)
  {
    RunOverflows(Start(role, dictation), script);
  }

  /** The recording flag goes stale: dictation started while an answer is
      being scored is still shown as recording on the next question, although
      moving on stopped the recognizer, so the screen reports "Listening..."
      while no transcript can arrive. */
  lemma StaleRecordingFlagAfterContinue(s: SessionState)
    requires Valid(s) && Answering(s) && !s.recording && s.dictationAvailable
    requires !IsBlank(s.answers[s.index]) && s.index < |s.questions| - 1
    ensures var scored := CompleteSubmit(ToggleDictation(Submit(s).value).value).value;
      && ContinueAsWritten(scored).Success?
      && ContinueAsWritten(scored).value.Next?
      && var next := ContinueAsWritten(scored).value.state;
      && next.recording && !next.listening
      && !Valid(next)
  {
  }

  /** With the corrected continue, the same events leave the next question
      with dictation off on both counts. */
  lemma ContinueStopsDictation(s: SessionState)
    requires Valid(s) && Answering(s) && !s.recording && s.dictationAvailable
    requires !IsBlank(s.answers[s.index]) && s.index < |s.questions| - 1
    ensures var scored := CompleteSubmit(ToggleDictation(Submit(s).value).value).value;
      && scored.recording
      && Continue(scored).Success?
      && Continue(scored).value.Next?
      && var next := Continue(scored).value.state;
      && !next.recording && !next.listening && Valid(next)
  {
  }
}
